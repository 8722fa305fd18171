/**
  The deterministic risk engine, and the book it protects. Percentages are exact reals; symbols are
  upper-cased tickers in their sorted order, sectors are names.
 */
module RiskEngine {
  import opened Basics
  import opened Wrappers
  import opened PositionSizing
  import CorrelationMatrix

  const PCT_EPSILON: real := 0.000000001
  const RISK_EPSILON: real := 0.000001

  datatype Limits = Limits(
    riskPct: real, positionPct: real, dailyLossPct: real, weeklyLossPct: real, drawdownPct: real,
    maxOpen: nat, maxCorrelation: real, minEffective: real, sectorPct: real,
    daysBefore: int, daysAfter: int, needEarnings: bool, needNews: bool, needSector: bool)

  datatype Candidate = Candidate(symbol: int, buy: bool, entry: real, stop: real, target: Option<real>)

  datatype Portfolio = Portfolio(
    killSwitch: bool, equity: real, cash: real, dayPnl: real, weekPnl: Option<real>, drawdownPct: Option<real>,
    weekBaseline: Option<real>, openPositions: nat, openExposure: real)

  datatype Seen = Checked | NotConfigured | Unavailable | NotChecked | Unclassified

  datatype Context = Context(
    open: seq<int>, correlations: Option<CorrelationMatrix.Values>,
    sector: Option<string>, sectorCheck: Seen, sectorExposure: map<string, real>, unclassified: real,
    earnings: Seen, daysToEarnings: Option<int>, daysSinceEarnings: Option<int>, news: Seen,
    tradable: Option<bool>, unresolved: set<int>, positionsTrusted: bool, intentsTrusted: bool, slippage: real)

  datatype Reason =
    | KillSwitch | LongOnly | InvalidGeometry | NonPositiveEquity | WeeklyPnlUnavailable | DrawdownUnavailable
    | BaselineInvalid
    | MaxDailyLoss | MaxWeeklyLoss | MaxDrawdown | MaxOpenPositions
    | UnresolvedBroker | PositionsUnreadable | IntentsUnreadable
    | EarningsUnread(earnings: Seen) | NewsUnread(news: Seen) | SectorUnknown(sector: Seen)
    | EarningsImminent | EarningsJustReported
    | MaxCorrelation | InsufficientDiversification
    | RegimeNotTradable | RegimeMissing
    | SizeZero | MaxPosition | MaxBookExposure | MaxSectorExposure | MaxRiskPerTrade

  datatype Decision = Pass(qty: real, loss: real) | Reject(reasons: seq<Reason>)

  function OrderOf(l: Limits, c: Candidate, p: Portfolio, ctx: Context): Order {
    Order(p.equity, c.entry, c.stop, l.riskPct, l.positionPct, p.cash, ctx.slippage)
  }

  function Pct(part: real, whole: real): real
    requires whole != 0.0
  {
    part / whole * 100.0
  }

  function LossPct(pnl: real, base: real): real
    requires base > 0.0
  {
    if pnl < 0.0 then Pct(-pnl, base) else 0.0
  }

  function WeekBase(p: Portfolio): real {
    p.weekBaseline.GetOr(p.equity)
  }

  /** The candidate and the account can be judged at all. */
  predicate Judgeable(c: Candidate, p: Portfolio) {
    && !p.killSwitch && c.buy && c.stop < c.entry && (c.target.Some? ==> c.target.value > c.entry)
    && p.equity > 0.0 && p.weekPnl.Some? && p.drawdownPct.Some? && WeekBase(p) > 0.0
  }

  /** What the engine answers when it cannot judge. */
  function Unjudged(c: Candidate, p: Portfolio): seq<Reason> {
    if p.killSwitch then [KillSwitch]
    else if !c.buy then [LongOnly]
    else if c.stop >= c.entry || (c.target.Some? && c.target.value <= c.entry) then [InvalidGeometry]
    else if p.equity <= 0.0 then [NonPositiveEquity]
    else if p.weekPnl.None? || p.drawdownPct.None? then
      (if p.weekPnl.None? then [WeeklyPnlUnavailable] else []) +
      (if p.drawdownPct.None? then [DrawdownUnavailable] else [])
    else if WeekBase(p) <= 0.0 then [BaselineInvalid]
    else []
  }

  lemma UnjudgedMeans(c: Candidate, p: Portfolio)
    ensures Unjudged(c, p) == [] <==> Judgeable(c, p)
  {
  }

  // ---- Objections, one predicate per group of checks ---------------------------------------------

  predicate LossObjects(r: Reason, l: Limits, p: Portfolio)
    requires p.equity > 0.0 && p.weekPnl.Some? && p.drawdownPct.Some? && WeekBase(p) > 0.0
  {
    || (r == MaxDailyLoss && LossPct(p.dayPnl, p.equity) >= l.dailyLossPct)
    || (r == MaxWeeklyLoss && LossPct(p.weekPnl.value, WeekBase(p)) >= l.weeklyLossPct)
    || (r == MaxDrawdown && p.drawdownPct.value >= l.drawdownPct)
  }

  predicate AccountObjects(r: Reason, l: Limits, c: Candidate, p: Portfolio, ctx: Context) {
    || (r == MaxOpenPositions && p.openPositions >= l.maxOpen)
    || (r == UnresolvedBroker && c.symbol in ctx.unresolved)
    || (r == PositionsUnreadable && !ctx.positionsTrusted)
    || (r == IntentsUnreadable && !ctx.intentsTrusted)
  }

  predicate EventObjects(r: Reason, l: Limits, ctx: Context) {
    || (l.needEarnings && ctx.earnings != Checked && r == EarningsUnread(ctx.earnings))
    || (l.needNews && ctx.news != Checked && r == NewsUnread(ctx.news))
    || (l.needSector && ctx.sectorCheck != Checked && r == SectorUnknown(ctx.sectorCheck))
    || (r == EarningsImminent && ctx.daysToEarnings.Some? && 0 <= ctx.daysToEarnings.value <= l.daysBefore)
    || (r == EarningsJustReported && ctx.daysSinceEarnings.Some? && 0 <= ctx.daysSinceEarnings.value <= l.daysAfter)
  }

  predicate RegimeObjects(r: Reason, ctx: Context) {
    r == (if ctx.tradable.None? then RegimeMissing else RegimeNotTradable) && ctx.tradable != Some(true)
  }

  /** Correlated with, or too few independent bets beside, what is already open. */
  predicate ConcentrationObjects(r: Reason, l: Limits, c: Candidate, ctx: Context) {
    ctx.correlations.Some? && ctx.open != [] &&
    var values := ctx.correlations.value;
    var others := CorrelationMatrix.Without(ctx.open, c.symbol);
    || (r == MaxCorrelation &&
          exists o | o in ctx.open && o != c.symbol && CorrelationMatrix.Get(values, c.symbol, o).Some? ::
            CorrelationMatrix.Get(values, c.symbol, o).value > l.maxCorrelation)
    || (r == InsufficientDiversification && |others| >= 2 &&
          var e := CorrelationMatrix.EffectivePositions(values, others + [c.symbol]);
          e.Some? && e.value < l.minEffective)
  }

  function SectorNow(ctx: Context): real {
    (if ctx.sector.Some? && ctx.sector.value in ctx.sectorExposure then ctx.sectorExposure[ctx.sector.value] else 0.0)
    + ctx.unclassified
  }

  function Notional(qty: real, entry: real): real {
    qty * entry
  }

  predicate SizeObjects(r: Reason, l: Limits, c: Candidate, p: Portfolio, ctx: Context)
    requires Judgeable(c, p)
  {
    var sized := SizeLong(OrderOf(l, c, p, ctx));
    NotionalObjects(r, l, p, ctx, sized.0, Notional(sized.0, c.entry), sized.1)
  }

  predicate NotionalObjects(r: Reason, l: Limits, p: Portfolio, ctx: Context, qty: real, notional: real, loss: real)
    requires p.equity > 0.0
  {
    || (r == SizeZero && qty <= 0.0)
    || (r == MaxPosition && Pct(notional, p.equity) > l.positionPct + PCT_EPSILON)
    || (r == MaxBookExposure && Pct(p.openExposure + notional, p.equity) > l.positionPct * 5.0 + PCT_EPSILON)
    || (r == MaxSectorExposure && ctx.sector.GetOr("") != "" &&
          Pct(SectorNow(ctx) + notional, p.equity) > l.sectorPct + PCT_EPSILON)
    || (r == MaxRiskPerTrade && Pct(loss, p.equity) > l.riskPct + RISK_EPSILON)
  }

  predicate Objects(r: Reason, l: Limits, c: Candidate, p: Portfolio, ctx: Context)
    requires Judgeable(c, p)
  {
    LossObjects(r, l, p) || AccountObjects(r, l, c, p, ctx) || EventObjects(r, l, ctx) ||
    ConcentrationObjects(r, l, c, ctx) || RegimeObjects(r, ctx) || SizeObjects(r, l, c, p, ctx)
  }

  // ---- The same answers reason by reason, in numbers alone ---------------------------------------

  /** A result has lost the percentage of the base; a gain has lost none. */
  predicate HasLost(pnl: real, base: real, pct: real) {
    if pnl < 0.0 then -pnl * 100.0 >= pct * base else pct <= 0.0
  }

  predicate Beyond(part: real, whole: real, pct: real) {
    part * 100.0 > pct * whole
  }

  predicate GeometryOk(c: Candidate) {
    c.stop < c.entry && (c.target.None? || c.entry < c.target.value)
  }

  /** When the engine refuses to judge, and for which one of the reasons, the first there is. */
  predicate Bars(r: Reason, c: Candidate, p: Portfolio) {
    match r
    case KillSwitch => p.killSwitch
    case LongOnly => !p.killSwitch && !c.buy
    case InvalidGeometry => !p.killSwitch && c.buy && !GeometryOk(c)
    case NonPositiveEquity => !p.killSwitch && c.buy && GeometryOk(c) && p.equity <= 0.0
    case WeeklyPnlUnavailable => !p.killSwitch && c.buy && GeometryOk(c) && p.equity > 0.0 && p.weekPnl.None?
    case DrawdownUnavailable => !p.killSwitch && c.buy && GeometryOk(c) && p.equity > 0.0 && p.drawdownPct.None?
    case BaselineInvalid =>
      && !p.killSwitch && c.buy && GeometryOk(c) && p.equity > 0.0 && p.weekPnl.Some? && p.drawdownPct.Some?
      && p.weekBaseline.Some? && p.weekBaseline.value <= 0.0
    case _ => false
  }

  predicate Unread(seen: Seen) {
    seen in {NotConfigured, Unavailable, NotChecked, Unclassified}
  }

  /** What is objected to a trade of that quantity, which can lose that much. */
  predicate Raised(r: Reason, l: Limits, c: Candidate, p: Portfolio, ctx: Context, qty: real, loss: real) {
    match r
    case MaxDailyLoss => HasLost(p.dayPnl, p.equity, l.dailyLossPct)
    case MaxWeeklyLoss =>
      p.weekPnl.Some? &&
      HasLost(p.weekPnl.value, if p.weekBaseline.Some? then p.weekBaseline.value else p.equity, l.weeklyLossPct)
    case MaxDrawdown => p.drawdownPct.Some? && p.drawdownPct.value >= l.drawdownPct
    case MaxOpenPositions => p.openPositions >= l.maxOpen
    case UnresolvedBroker => c.symbol in ctx.unresolved
    case PositionsUnreadable => !ctx.positionsTrusted
    case IntentsUnreadable => !ctx.intentsTrusted
    case EarningsUnread(seen) => l.needEarnings && seen == ctx.earnings && Unread(seen)
    case NewsUnread(seen) => l.needNews && seen == ctx.news && Unread(seen)
    case SectorUnknown(seen) => l.needSector && seen == ctx.sectorCheck && Unread(seen)
    case EarningsImminent => ctx.daysToEarnings.Some? && 0 <= ctx.daysToEarnings.value <= l.daysBefore
    case EarningsJustReported => ctx.daysSinceEarnings.Some? && 0 <= ctx.daysSinceEarnings.value <= l.daysAfter
    case MaxCorrelation => ctx.correlations.Some? && TooAlike(l, c, ctx.open, ctx.correlations.value)
    case InsufficientDiversification => ctx.correlations.Some? && TooFew(l, c, ctx.open, ctx.correlations.value)
    case RegimeNotTradable => ctx.tradable.Some? && !ctx.tradable.value
    case RegimeMissing => ctx.tradable.None?
    case SizeZero => qty <= 0.0
    case MaxBookExposure => Beyond(p.openExposure + qty * c.entry, p.equity, 5.0 * l.positionPct + 0.000000001)
    case MaxSectorExposure =>
      && ctx.sector.Some? && ctx.sector.value != ""
      && var held := if ctx.sector.value in ctx.sectorExposure then ctx.sectorExposure[ctx.sector.value] else 0.0;
         Beyond(held + ctx.unclassified + qty * c.entry, p.equity, l.sectorPct + 0.000000001)
    case MaxRiskPerTrade => Beyond(loss, p.equity, l.riskPct + 0.000001)
    case _ => false
  }

  predicate TooAlike(l: Limits, c: Candidate, open: seq<int>, values: CorrelationMatrix.Values) {
    exists o | o in open && o != c.symbol && CorrelationMatrix.Get(values, c.symbol, o).Some? ::
      CorrelationMatrix.Get(values, c.symbol, o).value > l.maxCorrelation
  }

  predicate TooFew(l: Limits, c: Candidate, open: seq<int>, values: CorrelationMatrix.Values) {
    var others := CorrelationMatrix.Without(open, c.symbol);
    var e := CorrelationMatrix.EffectivePositions(values, others + [c.symbol]);
    |others| >= 2 && e.Some? && e.value < l.minEffective
  }

  /** The verdict on n lots, the most the budgets allow, and on the loss they risk. */
  ghost predicate Judged(d: Decision, l: Limits, c: Candidate, p: Portfolio, ctx: Context, n: int, loss: real) {
    var o := Order(p.equity, c.entry, c.stop, l.riskPct, l.positionPct, p.cash, ctx.slippage);
    var qty := n as real / 10_000.0;
    && Largest(o, n) && InCents(LossAt(o, n), loss)
    && (d.Pass? <==> forall r :: !Raised(r, l, c, p, ctx, qty, loss))
    && (d.Pass? ==> d.qty == qty && d.loss == loss)
    && (d.Reject? ==> forall r :: r in d.reasons <==> Raised(r, l, c, p, ctx, qty, loss))
  }

  lemma BarsMeans(c: Candidate, p: Portfolio)
    ensures forall r :: r in Unjudged(c, p) <==> Bars(r, c, p)
  {
  }

  lemma PctMeans(part: real, whole: real, pct: real)
    requires whole > 0.0
    ensures Pct(part, whole) > pct <==> Beyond(part, whole, pct)
    ensures Pct(part, whole) >= pct <==> part * 100.0 >= pct * whole
  {
    var share := Pct(part, whole);
    assert share * whole == part * 100.0 by {
      assert part / whole * whole == part;
    }
    Scale(share, pct, whole);
  }

  predicate OfLoss(r: Reason) {
    r == MaxDailyLoss || r == MaxWeeklyLoss || r == MaxDrawdown
  }

  predicate OfSize(r: Reason) {
    r == SizeZero || r == MaxBookExposure || r == MaxSectorExposure || r == MaxRiskPerTrade
  }

  predicate OfConcentration(r: Reason) {
    r == MaxCorrelation || r == InsufficientDiversification
  }

  predicate OfRegime(r: Reason) {
    r == RegimeMissing || r == RegimeNotTradable
  }

  predicate OfEvent(r: Reason) {
    r.EarningsUnread? || r.NewsUnread? || r.SectorUnknown? || r == EarningsImminent || r == EarningsJustReported
  }

  lemma LossMeans(r: Reason, l: Limits, c: Candidate, p: Portfolio, ctx: Context, qty: real, loss: real)
    requires Judgeable(c, p)
    ensures LossObjects(r, l, p) <==> OfLoss(r) && Raised(r, l, c, p, ctx, qty, loss)
  {
    PctMeans(-p.dayPnl, p.equity, l.dailyLossPct);
    PctMeans(-p.weekPnl.value, WeekBase(p), l.weeklyLossPct);
    hide Pct, Beyond;
  }

  lemma NotionalMeans(r: Reason, l: Limits, c: Candidate, p: Portfolio, ctx: Context, qty: real, loss: real)
    requires p.equity > 0.0 && r != MaxPosition
    ensures NotionalObjects(r, l, p, ctx, qty, Notional(qty, c.entry), loss) <==>
            OfSize(r) && Raised(r, l, c, p, ctx, qty, loss)
  {
    var notional := qty * c.entry;
    PctMeans(p.openExposure + notional, p.equity, l.positionPct * 5.0 + PCT_EPSILON);
    PctMeans(SectorNow(ctx) + notional, p.equity, l.sectorPct + PCT_EPSILON);
    PctMeans(loss, p.equity, l.riskPct + RISK_EPSILON);
    hide Pct;
  }

  lemma AlikeMeans(r: Reason, l: Limits, c: Candidate, p: Portfolio, ctx: Context, qty: real, loss: real)
    ensures ConcentrationObjects(r, l, c, ctx) <==> OfConcentration(r) && Raised(r, l, c, p, ctx, qty, loss)
  {
    hide CorrelationMatrix.Get, CorrelationMatrix.EffectivePositions, CorrelationMatrix.Without, Beyond, HasLost;
    var others := CorrelationMatrix.Without(ctx.open, c.symbol);
    assert |others| >= 2 ==> others[0] in others;
  }

  lemma EventMeans(r: Reason, l: Limits, c: Candidate, p: Portfolio, ctx: Context, qty: real, loss: real)
    ensures EventObjects(r, l, ctx) <==> OfEvent(r) && Raised(r, l, c, p, ctx, qty, loss)
  {
    hide TooAlike, TooFew, Beyond, HasLost;
    assert Unread(ctx.earnings) <==> ctx.earnings != Checked;
    assert Unread(ctx.news) <==> ctx.news != Checked;
    assert Unread(ctx.sectorCheck) <==> ctx.sectorCheck != Checked;
    hide Unread;
  }

  lemma RegimeMeans(r: Reason, l: Limits, c: Candidate, p: Portfolio, ctx: Context, qty: real, loss: real)
    ensures RegimeObjects(r, ctx) <==> OfRegime(r) && Raised(r, l, c, p, ctx, qty, loss)
  {
    hide TooAlike, TooFew, Beyond, HasLost, Unread;
  }

  lemma AccountMeans(r: Reason, l: Limits, c: Candidate, p: Portfolio, ctx: Context, qty: real, loss: real)
    ensures AccountObjects(r, l, c, p, ctx) <==>
            && !OfLoss(r) && !OfSize(r) && !OfConcentration(r) && !OfEvent(r) && !OfRegime(r)
            && Raised(r, l, c, p, ctx, qty, loss)
  {
    hide TooAlike, TooFew, Beyond, HasLost, Unread;
  }

  lemma ObjectsMeans(r: Reason, l: Limits, c: Candidate, p: Portfolio, ctx: Context)
    requires Judgeable(c, p) && l.positionPct > 0.0
    ensures var (qty, loss) := SizeLong(OrderOf(l, c, p, ctx));
            Objects(r, l, c, p, ctx) <==> Raised(r, l, c, p, ctx, qty, loss)
  {
    hide SizeLong, OrderOf, LossObjects, NotionalObjects, AccountObjects, EventObjects, ConcentrationObjects;
    hide RegimeObjects, Notional;
    var (qty, loss) := SizeLong(OrderOf(l, c, p, ctx));
    if r == MaxPosition {
      NeverTooLarge(l, c, p, ctx);
    } else {
      hide Raised, OfLoss, OfSize, OfConcentration, OfEvent, OfRegime;
      LossMeans(r, l, c, p, ctx, qty, loss);
      NotionalMeans(r, l, c, p, ctx, qty, loss);
      AlikeMeans(r, l, c, p, ctx, qty, loss);
      EventMeans(r, l, c, p, ctx, qty, loss);
      RegimeMeans(r, l, c, p, ctx, qty, loss);
      AccountMeans(r, l, c, p, ctx, qty, loss);
    }
  }

  // ---- The engine --------------------------------------------------------------------------------

  method LossReasons(l: Limits, p: Portfolio) returns (reasons: seq<Reason>)
    requires p.equity > 0.0 && p.weekPnl.Some? && p.drawdownPct.Some? && WeekBase(p) > 0.0
    ensures forall r :: r in reasons <==> LossObjects(r, l, p)
  {
    hide LossPct, WeekBase;
    reasons := [];
    if LossPct(p.dayPnl, p.equity) >= l.dailyLossPct { reasons := reasons + [MaxDailyLoss]; }
    if LossPct(p.weekPnl.value, WeekBase(p)) >= l.weeklyLossPct { reasons := reasons + [MaxWeeklyLoss]; }
    if p.drawdownPct.value >= l.drawdownPct { reasons := reasons + [MaxDrawdown]; }
  }

  method AccountReasons(l: Limits, c: Candidate, p: Portfolio, ctx: Context) returns (reasons: seq<Reason>)
    ensures forall r :: r in reasons <==> AccountObjects(r, l, c, p, ctx)
  {
    reasons := [];
    if p.openPositions >= l.maxOpen { reasons := reasons + [MaxOpenPositions]; }
    if c.symbol in ctx.unresolved { reasons := reasons + [UnresolvedBroker]; }
    if !ctx.positionsTrusted { reasons := reasons + [PositionsUnreadable]; }
    if !ctx.intentsTrusted { reasons := reasons + [IntentsUnreadable]; }
  }

  method EventRisk(l: Limits, ctx: Context) returns (reasons: seq<Reason>)
    ensures forall r :: r in reasons <==> EventObjects(r, l, ctx)
  {
    reasons := [];
    if l.needEarnings && ctx.earnings != Checked { reasons := reasons + [EarningsUnread(ctx.earnings)]; }
    if l.needNews && ctx.news != Checked { reasons := reasons + [NewsUnread(ctx.news)]; }
    if l.needSector && ctx.sectorCheck != Checked { reasons := reasons + [SectorUnknown(ctx.sectorCheck)]; }
    if ctx.daysToEarnings.Some? && 0 <= ctx.daysToEarnings.value <= l.daysBefore {
      reasons := reasons + [EarningsImminent];
    }
    if ctx.daysSinceEarnings.Some? && 0 <= ctx.daysSinceEarnings.value <= l.daysAfter {
      reasons := reasons + [EarningsJustReported];
    }
  }

  method Concentration(l: Limits, c: Candidate, ctx: Context) returns (reasons: seq<Reason>)
    ensures forall r :: r in reasons <==> ConcentrationObjects(r, l, c, ctx)
  {
    hide CorrelationMatrix.Get, CorrelationMatrix.EffectivePositions, CorrelationMatrix.Without;
    reasons := [];
    if ctx.correlations.None? || ctx.open == [] {
      return;
    }
    var check := CorrelationMatrix.CheckConcentration(
      c.symbol, ctx.open, ctx.correlations.value, l.maxCorrelation, l.minEffective);
    if CorrelationMatrix.MaxCorrelation in check.breaches { reasons := reasons + [MaxCorrelation]; }
    if CorrelationMatrix.InsufficientDiversification in check.breaches {
      reasons := reasons + [InsufficientDiversification];
    }
  }

  method NotionalReasons(l: Limits, p: Portfolio, ctx: Context, qty: real, notional: real, loss: real)
    returns (reasons: seq<Reason>)
    requires p.equity > 0.0
    ensures forall r :: r in reasons <==> NotionalObjects(r, l, p, ctx, qty, notional, loss)
  {
    hide Pct, SectorNow;
    reasons := [];
    if qty <= 0.0 { reasons := reasons + [SizeZero]; }
    if Pct(notional, p.equity) > l.positionPct + PCT_EPSILON { reasons := reasons + [MaxPosition]; }
    if Pct(p.openExposure + notional, p.equity) > l.positionPct * 5.0 + PCT_EPSILON {
      reasons := reasons + [MaxBookExposure];
    }
    if ctx.sector.GetOr("") != "" {
      if Pct(SectorNow(ctx) + notional, p.equity) > l.sectorPct + PCT_EPSILON {
        reasons := reasons + [MaxSectorExposure];
      }
    }
    if Pct(loss, p.equity) > l.riskPct + RISK_EPSILON { reasons := reasons + [MaxRiskPerTrade]; }
  }

  method SizeReasons(l: Limits, c: Candidate, p: Portfolio, ctx: Context)
      returns (reasons: seq<Reason>, qty: real, loss: real)
    requires Judgeable(c, p)
    ensures (qty, loss) == SizeLong(OrderOf(l, c, p, ctx))
    ensures forall r :: r in reasons <==> SizeObjects(r, l, c, p, ctx)
  {
    hide SizeLong, NotionalObjects, Notional;
    var sized := SizeLong(OrderOf(l, c, p, ctx));
    qty, loss := sized.0, sized.1;
    reasons := NotionalReasons(l, p, ctx, sized.0, Notional(sized.0, c.entry), sized.1);
  }

  /**
    One verdict. A rejection lists exactly the objections there are, and it passes exactly when
    there is none; the position-size objection is never among them.
   */
  method Evaluate(l: Limits, c: Candidate, p: Portfolio, ctx: Context) returns (d: Decision)
    requires l.positionPct > 0.0
    ensures !Judgeable(c, p) ==> d == Reject(Unjudged(c, p)) && d.reasons != []
    ensures Judgeable(c, p) && d.Reject? ==> d.reasons != [] && forall r :: r in d.reasons <==> Objects(r, l, c, p, ctx)
    ensures d.Pass? <==> Judgeable(c, p) && forall r :: !Objects(r, l, c, p, ctx)
    ensures d.Pass? ==> (d.qty, d.loss) == SizeLong(OrderOf(l, c, p, ctx)) && d.qty > 0.0
    ensures d.Reject? ==> MaxPosition !in d.reasons
    // The same without a name of the above.
    ensures (exists r :: Bars(r, c, p)) ==> d.Reject? && forall r :: r in d.reasons <==> Bars(r, c, p)
    ensures (forall r :: !Bars(r, c, p)) ==> exists n, loss :: Judged(d, l, c, p, ctx, n, loss)
  {
    d := Verdict(l, c, p, ctx);
    hide LossObjects, AccountObjects, EventObjects, ConcentrationObjects, SizeObjects, SizeLong, Raised, Judged, Bars;
    BarsMeans(c, p);
    UnjudgedMeans(c, p);
    assert Unjudged(c, p) != [] ==> Unjudged(c, p)[0] in Unjudged(c, p);
    if Judgeable(c, p) {
      var n, loss := VerdictMeans(d, l, c, p, ctx);
    }
  }

  lemma VerdictMeans(d: Decision, l: Limits, c: Candidate, p: Portfolio, ctx: Context) returns (n: int, loss: real)
    requires Judgeable(c, p) && l.positionPct > 0.0
    requires d.Pass? <==> forall r :: !Objects(r, l, c, p, ctx)
    requires d.Pass? ==> (d.qty, d.loss) == SizeLong(OrderOf(l, c, p, ctx))
    requires d.Reject? ==> forall r :: r in d.reasons <==> Objects(r, l, c, p, ctx)
    ensures Judged(d, l, c, p, ctx, n, loss)
  {
    var o := OrderOf(l, c, p, ctx);
    hide Objects, Raised, SizeLong, SizeLots, LossAt, Judgeable;
    n, loss := SizeLots(o), SizeLong(o).1;
    SizedByBudgets(o, n);
    var qty := n as real / 10_000.0;
    assert SizeLong(o).0 == qty;
    forall r ensures Raised(r, l, c, p, ctx, qty, loss) <==> Objects(r, l, c, p, ctx) {
      ObjectsMeans(r, l, c, p, ctx);
    }
    if d.Reject? {
      var r :| Objects(r, l, c, p, ctx);
      assert Raised(r, l, c, p, ctx, qty, loss);
    }
  }

  /** The checks in their order. */
  method Verdict(l: Limits, c: Candidate, p: Portfolio, ctx: Context) returns (d: Decision)
    requires l.positionPct > 0.0
    ensures !Judgeable(c, p) ==> d == Reject(Unjudged(c, p)) && d.reasons != []
    ensures Judgeable(c, p) && d.Reject? ==> d.reasons != [] && forall r :: r in d.reasons <==> Objects(r, l, c, p, ctx)
    ensures d.Pass? <==> Judgeable(c, p) && forall r :: !Objects(r, l, c, p, ctx)
    ensures d.Pass? ==> (d.qty, d.loss) == SizeLong(OrderOf(l, c, p, ctx)) && d.qty > 0.0
    ensures d.Reject? ==> MaxPosition !in d.reasons
  {
    hide LossObjects, AccountObjects, EventObjects, ConcentrationObjects, SizeObjects, SizeLong;
    UnjudgedMeans(c, p);
    var early := Unjudged(c, p);
    if early != [] {
      OnlyLate(c, p);
      return Reject(early);
    }
    var losses := LossReasons(l, p);
    var account := AccountReasons(l, c, p, ctx);
    var events := EventRisk(l, ctx);
    var concentration := Concentration(l, c, ctx);
    var regime := if ctx.tradable == Some(true) then []
        else [if ctx.tradable.None? then RegimeMissing else RegimeNotTradable];
    assert forall r :: r in regime <==> RegimeObjects(r, ctx);
    var sizing, qty, loss := SizeReasons(l, c, p, ctx);
    var reasons := losses + account + events + concentration + regime + sizing;
    NeverTooLarge(l, c, p, ctx);
    ZeroObjects(l, c, p, ctx);
    if reasons != [] {
      assert reasons[0] in reasons;
      return Reject(reasons);
    }
    assert forall r :: Objects(r, l, c, p, ctx) <==> r in reasons;
    return Pass(qty, loss);
  }

  lemma OnlyLate(c: Candidate, p: Portfolio)
    ensures MaxPosition !in Unjudged(c, p)
  {
  }

  lemma ZeroObjects(l: Limits, c: Candidate, p: Portfolio, ctx: Context)
    requires Judgeable(c, p)
    ensures SizeLong(OrderOf(l, c, p, ctx)).0 <= 0.0 ==> Objects(SizeZero, l, c, p, ctx)
  {
  }

  /** A sized position never exceeds its own cap, so that objection is never raised. */
  lemma NeverTooLarge(l: Limits, c: Candidate, p: Portfolio, ctx: Context)
    requires Judgeable(c, p) && l.positionPct > 0.0
    ensures !Objects(MaxPosition, l, c, p, ctx)
  {
    hide SizeLong;
    var o := OrderOf(l, c, p, ctx);
    SizeIsNonNegative(o);
    if SizeLong(o).0 > 0.0 {
      NotionalFits(o);
    } else {
      assert SizeLong(o).0 * c.entry == 0.0;
    }
  }

  // ---- The book over a run of entries ------------------------------------------------------------

  /** Cash and exposure at entry prices; `unclassified` is exposure of no known sector. */
  datatype Book = Book(cash: real, held: set<int>, exposure: real, sectors: map<string, real>, unclassified: real)

  /** Cash is never overdrawn and no cap is passed, up to the engine's own epsilon. */
  ghost predicate WithinCaps(b: Book, l: Limits, equity: real)
    requires equity > 0.0
  {
    && b.cash >= 0.0 && |b.held| <= l.maxOpen
    && Pct(b.exposure, equity) <= l.positionPct * 5.0 + PCT_EPSILON
    && forall s | s in b.sectors :: Pct(b.sectors[s] + b.unclassified, equity) <= l.sectorPct + PCT_EPSILON
  }

  function SectorOf(b: Book, s: string): real {
    if s in b.sectors then b.sectors[s] else 0.0
  }

  function Filled(b: Book, symbol: int, sector: string, notional: real): Book {
    Book(b.cash - notional, b.held + {symbol}, b.exposure + notional,
         b.sectors[sector := SectorOf(b, sector) + notional], b.unclassified)
  }

  /** An idea with everything the desk knows about it except the book itself. */
  datatype Signal = Signal(candidate: Candidate, account: Portfolio, context: Context)

  function PortfolioOf(b: Book, equity: real, s: Signal): Portfolio {
    s.account.(equity := equity, cash := b.cash, openPositions := |b.held|, openExposure := b.exposure)
  }

  function ContextOf(b: Book, s: Signal): Context {
    s.context.(sectorExposure := b.sectors, unclassified := b.unclassified)
  }

  /** The sector lookup reports CHECKED only with a sector. */
  predicate SectorKnown(s: Signal) {
    s.context.sectorCheck == Checked ==> s.context.sector.GetOr("") != ""
  }

  lemma PassMeans(l: Limits, c: Candidate, p: Portfolio, ctx: Context)
    requires Judgeable(c, p) && l.needSector && forall r :: !Objects(r, l, c, p, ctx)
    requires ctx.sectorCheck == Checked ==> ctx.sector.GetOr("") != ""
    ensures var qty := SizeLong(OrderOf(l, c, p, ctx)).0;
            var notional := Notional(qty, c.entry);
            && qty > 0.0 && p.openPositions < l.maxOpen
            && Pct(p.openExposure + notional, p.equity) <= l.positionPct * 5.0 + PCT_EPSILON
            && ctx.sector.GetOr("") != "" && Pct(SectorNow(ctx) + notional, p.equity) <= l.sectorPct + PCT_EPSILON
            && 0.0 < notional <= p.cash
  {
    hide SizeLong, Notional, SizeObjects, EventObjects, LossObjects, AccountObjects, ConcentrationObjects;
    forall r ensures !SizeObjects(r, l, c, p, ctx) {
      assert !Objects(r, l, c, p, ctx);
    }
    assert !Objects(MaxOpenPositions, l, c, p, ctx);
    assert !Objects(SectorUnknown(ctx.sectorCheck), l, c, p, ctx);
    SizeMeans(l, c, p, ctx);
    OpeningMeans(l, c, p, ctx);
    NotionalOfPass(OrderOf(l, c, p, ctx));
  }

  lemma OpeningMeans(l: Limits, c: Candidate, p: Portfolio, ctx: Context)
    ensures !AccountObjects(MaxOpenPositions, l, c, p, ctx) ==> p.openPositions < l.maxOpen
    ensures !EventObjects(SectorUnknown(ctx.sectorCheck), l, ctx) && l.needSector ==> ctx.sectorCheck == Checked
  {
  }

  lemma SizeMeans(l: Limits, c: Candidate, p: Portfolio, ctx: Context)
    requires Judgeable(c, p) && forall r :: !SizeObjects(r, l, c, p, ctx)
    ensures var qty := SizeLong(OrderOf(l, c, p, ctx)).0;
            && qty > 0.0
            && Pct(p.openExposure + Notional(qty, c.entry), p.equity) <= l.positionPct * 5.0 + PCT_EPSILON
            && (ctx.sector.GetOr("") != "" ==>
                  Pct(SectorNow(ctx) + Notional(qty, c.entry), p.equity) <= l.sectorPct + PCT_EPSILON)
  {
    hide SizeLong, Notional, Pct, SectorNow;
    assert !SizeObjects(SizeZero, l, c, p, ctx);
    assert !SizeObjects(MaxBookExposure, l, c, p, ctx);
    assert !SizeObjects(MaxSectorExposure, l, c, p, ctx);
  }

  lemma NotionalOfPass(o: Order)
    ensures SizeLong(o).0 > 0.0 ==> 0.0 < Notional(SizeLong(o).0, o.entry) <= o.cash
  {
    hide SizeLong;
    if SizeLong(o).0 > 0.0 {
      NotionalFits(o);
    }
  }

  /** A fill of what the engine passed keeps the book within every cap. */
  lemma FillKeepsCaps(b: Book, l: Limits, equity: real, s: Signal)
    requires equity > 0.0 && WithinCaps(b, l, equity) && l.needSector && SectorKnown(s)
    requires Judgeable(s.candidate, PortfolioOf(b, equity, s))
    requires forall r :: !Objects(r, l, s.candidate, PortfolioOf(b, equity, s), ContextOf(b, s))
    ensures var qty := SizeLong(OrderOf(l, s.candidate, PortfolioOf(b, equity, s), ContextOf(b, s))).0;
            var after := Filled(b, s.candidate.symbol, s.context.sector.GetOr(""), Notional(qty, s.candidate.entry));
            WithinCaps(after, l, equity)
  {
    PassMeans(l, s.candidate, PortfolioOf(b, equity, s), ContextOf(b, s));
    hide Objects, SizeLong, Notional, Pct, OrderOf;
  }

  /** The book after the signals: each one the engine has no objection to is filled at its entry. */
  ghost function BookAfter(l: Limits, equity: real, start: Book, signals: seq<Signal>): Book {
    if |signals| == 0 then start
    else
      var (b, s) := (BookAfter(l, equity, start, signals[..|signals| - 1]), signals[|signals| - 1]);
      var (c, p, ctx) := (s.candidate, PortfolioOf(b, equity, s), ContextOf(b, s));
      if Judgeable(c, p) && forall r :: !Objects(r, l, c, p, ctx)
      then Filled(b, c.symbol, s.context.sector.GetOr(""), Notional(SizeLong(OrderOf(l, c, p, ctx)).0, c.entry))
      else b
  }

  /**
    Any sequence of signals, each passed one filled at its entry: the book never leaves its caps,
    and what the cash paid is what the exposure gained.
   */
  method RunBook(l: Limits, equity: real, start: Book, signals: seq<Signal>) returns (b: Book, fills: nat)
    requires equity > 0.0 && l.positionPct > 0.0 && l.needSector && WithinCaps(start, l, equity)
    requires forall s | s in signals :: SectorKnown(s)
    ensures WithinCaps(b, l, equity) && b == BookAfter(l, equity, start, signals)
    ensures b.cash + b.exposure == start.cash + start.exposure && b.unclassified == start.unclassified
    ensures start.held <= b.held && |b.held| <= |start.held| + fills && fills <= |signals|
  {
    hide WithinCaps, Objects, Judgeable, SizeLong, Notional, Unjudged, Judged, Bars;
    b, fills := start, 0;
    for i := 0 to |signals|
      invariant WithinCaps(b, l, equity) && b == BookAfter(l, equity, start, signals[..i]) && fills <= i
      invariant b.cash + b.exposure == start.cash + start.exposure && b.unclassified == start.unclassified
      invariant start.held <= b.held && |b.held| <= |start.held| + fills
    {
      var s := signals[i];
      assert signals[..i + 1][..i] == signals[..i];
      var d := Evaluate(l, s.candidate, PortfolioOf(b, equity, s), ContextOf(b, s));
      if d.Pass? {
        FillKeepsCaps(b, l, equity, s);
        b := Filled(b, s.candidate.symbol, s.context.sector.GetOr(""), Notional(d.qty, s.candidate.entry));
        fills := fills + 1;
      }
    }
    assert signals[..|signals|] == signals;
  }
}
