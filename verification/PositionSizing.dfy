/** Share sizing under a risk, a position and a cash budget, in exact arithmetic. */
module PositionSizing {
  import opened Basics

  /** Sizes are whole numbers of ten-thousandths of a share. */
  const LOTS: real := 10000.0

  datatype Order = Order(equity: real, entry: real, stop: real, riskPct: real, positionPct: real, cash: real,
      slippage: real)

  function Lot(n: int): real {
    n as real / LOTS
  }

  /** Four decimals, toward zero. */
  function RoundDown(x: real): (n: int)
    ensures x >= 0.0 ==> n >= 0 && Lot(n) <= x < Lot(n + 1)
    ensures x < 0.0 ==> n <= 0 && Lot(n - 1) < x <= Lot(n)
  {
    if x >= 0.0 then (x * LOTS).Floor else -((-x * LOTS).Floor)
  }

  /** c is n cents, as near to x as any number of cents, and an even number where two are as near. */
  predicate Nearest(x: real, c: real, n: int) {
    c * 100.0 == n as real && -0.005 <= x - c <= 0.005 && (x - c == 0.005 || x - c == -0.005 ==> n % 2 == 0)
  }

  ghost predicate InCents(x: real, c: real) {
    exists n :: Nearest(x, c, n)
  }

  /** Two decimals, half to even. */
  function RoundCents(x: real): (c: real)
    ensures -0.005 <= x - c <= 0.005 && InCents(x, c)
  {
    var scaled := x * 100.0;
    var below := scaled.Floor;
    var rest := scaled - below as real;
    var cents := if rest > 0.5 || (rest == 0.5 && below % 2 != 0) then below + 1 else below;
    assert Nearest(x, cents as real / 100.0, cents);
    cents as real / 100.0
  }

  predicate Sizable(o: Order) {
    o.slippage >= 0.0 && o.entry > o.stop && o.entry > 0.0 && o.equity > 0.0
  }

  function RiskPerShare(o: Order): real {
    o.entry - o.stop + o.slippage
  }

  function RiskBudget(o: Order): real {
    o.equity * (o.riskPct / 100.0)
  }

  function PositionBudget(o: Order): real {
    o.equity * (o.positionPct / 100.0)
  }

  /** The budget covers n lots at that much per share. */
  predicate Affords(budget: real, perShare: real, n: int) {
    Lot(n) * perShare <= budget
  }

  /** The lots fit all three budgets at once. */
  predicate Fits(o: Order, n: int) {
    && Affords(RiskBudget(o), RiskPerShare(o), n)
    && Affords(PositionBudget(o), o.entry, n)
    && Affords(o.cash, o.entry, n)
  }

  function LotsByBudget(budget: real, perShare: real): int
    requires perShare > 0.0
  {
    RoundDown(budget / perShare)
  }

  /** The sized number of lots, zero when nothing can be sized. */
  function SizeLots(o: Order): int {
    if o.slippage < 0.0 then 0
    else if o.entry - o.stop <= 0.0 || o.entry <= 0.0 || o.equity <= 0.0 then 0
    else
      var byRisk := LotsByBudget(RiskBudget(o), RiskPerShare(o));
      var byPosition := LotsByBudget(PositionBudget(o), o.entry);
      var byCash := LotsByBudget(o.cash, o.entry);
      var least := if byRisk <= byPosition then byRisk else byPosition;
      var lots := if least <= byCash then least else byCash;
      if lots < 1 then 0 else lots
  }

  function LossOf(o: Order, lots: int): real {
    Lot(lots) * RiskPerShare(o)
  }

  /** The quantity and the loss it risks. */
  function SizeLong(o: Order): (real, real) {
    var lots := SizeLots(o);
    if lots == 0 then (0.0, 0.0) else (Lot(lots), RoundCents(LossOf(o, lots)))
  }

  /** A budget affords exactly the lots it is rounded down to. */
  lemma BudgetAffords(budget: real, perShare: real, n: nat)
    requires perShare > 0.0 && n >= 1
    ensures Affords(budget, perShare, n) <==> n <= LotsByBudget(budget, perShare)
  {
    var share := budget / perShare;
    assert share * perShare == budget;
    Scale(Lot(n), share, perShare);
    var lots := RoundDown(share);
    if share >= 0.0 {
      assert Lot(lots) <= share < Lot(lots + 1);
      assert n <= lots ==> Lot(n) <= Lot(lots);
      assert n > lots ==> Lot(n) >= Lot(lots + 1);
    }
  }

  /** The size fits every budget, and no larger number of lots does. */
  lemma SizeIsOptimal(o: Order)
    requires Sizable(o)
    ensures SizeLots(o) >= 0
    ensures SizeLots(o) >= 1 ==> Fits(o, SizeLots(o))
    ensures forall n: nat | n >= 1 && Fits(o, n) :: n <= SizeLots(o)
  {
    assert RiskPerShare(o) > 0.0;
    hide Affords, LotsByBudget, RiskBudget, PositionBudget, RiskPerShare;
    forall n: nat | n >= 1 ensures Fits(o, n) <==> n <= SizeLots(o) {
      BudgetAffords(RiskBudget(o), RiskPerShare(o), n);
      BudgetAffords(PositionBudget(o), o.entry, n);
      BudgetAffords(o.cash, o.entry, n);
    }
  }

  /** n ten-thousandths of a share within the risk, the position and the cash budget, without a division. */
  predicate Within(o: Order, n: int) {
    && n as real * (o.entry - o.stop + o.slippage) <= o.equity * o.riskPct * 100.0
    && n as real * o.entry <= o.equity * o.positionPct * 100.0
    && n as real * o.entry <= o.cash * 10_000.0
  }

  lemma TimesLot(n: int, perShare: real)
    ensures Lot(n) * perShare * 10_000.0 == n as real * perShare
  {
    assert Lot(n) * 10_000.0 == n as real;
  }

  lemma FitsMeans(o: Order, n: int)
    ensures Fits(o, n) <==> Within(o, n)
  {
    TimesLot(n, RiskPerShare(o));
    TimesLot(n, o.entry);
    hide Lot;
  }

  /** n is the largest number of lots within the budgets, or none where nothing can be sized. */
  ghost predicate Largest(o: Order, n: int) {
    if o.slippage < 0.0 || o.entry <= o.stop || o.entry <= 0.0 || o.equity <= 0.0 then n == 0
    else n >= 0 && (n >= 1 ==> Within(o, n)) && forall m: nat | m >= 1 && Within(o, m) :: m <= n
  }

  /** What n lots lose at the stop and the expected slippage. */
  function LossAt(o: Order, n: int): real {
    n as real * (o.entry - o.stop + o.slippage) / 10_000.0
  }

  /** There is one such number of lots, and the quantity sized and its loss are those of it. */
  lemma SizedByBudgets(o: Order, n: int)
    ensures Largest(o, n) <==> n == SizeLots(o)
    ensures SizeLong(o).0 * 10_000.0 == SizeLots(o) as real
    ensures InCents(LossAt(o, SizeLots(o)), SizeLong(o).1)
  {
    LargestIsSize(o, n);
    LossIsNearest(o);
  }

  lemma LargestIsSize(o: Order, n: int)
    ensures Largest(o, n) <==> n == SizeLots(o)
  {
    hide SizeLots, Fits, Within;
    if Sizable(o) {
      SizeIsOptimal(o);
      forall m: nat ensures Fits(o, m) <==> Within(o, m) {
        FitsMeans(o, m);
      }
      if Largest(o, n) && n < SizeLots(o) {
        FitsMeans(o, SizeLots(o));
      }
    } else {
      UnsizableLots(o);
    }
  }

  lemma UnsizableLots(o: Order)
    requires !Sizable(o)
    ensures SizeLots(o) == 0
  {
  }

  lemma LossIsNearest(o: Order)
    ensures SizeLong(o).0 * 10_000.0 == SizeLots(o) as real
    ensures InCents(LossAt(o, SizeLots(o)), SizeLong(o).1)
  {
    hide SizeLots, RoundCents, InCents;
    var n := SizeLots(o);
    TimesLot(n, RiskPerShare(o));
    assert LossAt(o, n) == LossOf(o, n);
    hide LossAt, LossOf;
    if n == 0 {
      ZeroInCents();
      NothingLost(o);
    }
  }

  lemma NothingLost(o: Order)
    ensures LossAt(o, 0) == 0.0
  {
  }

  lemma ZeroInCents()
    ensures InCents(0.0, 0.0)
  {
    assert Nearest(0.0, 0.0, 0);
  }

  /** Outside the valid inputs nothing is sized. */
  lemma UnsizableIsZero(o: Order)
    requires SizeLong(o).0 > 0.0
    ensures Sizable(o) && SizeLots(o) >= 1 && SizeLong(o).0 == Lot(SizeLots(o))
  {
    hide LotsByBudget, LossOf, RoundCents;
  }

  lemma SizeIsNonNegative(o: Order)
    ensures SizeLong(o).0 >= 0.0
    ensures SizeLong(o).0 == 0.0 ==> SizeLong(o).1 == 0.0
  {
    hide LotsByBudget, RoundCents, LossOf;
  }

  lemma CheaperFits(budget: real, less: real, more: real, n: nat)
    requires less <= more && Affords(budget, more, n)
    ensures Affords(budget, less, n)
  {
    if n > 0 {
      Scale(less, more, Lot(n));
    }
  }

  lemma WiderFits(o: Order, more: real, n: nat)
    requires o.slippage <= more && Fits(o.(slippage := more), n)
    ensures Fits(o, n)
  {
    var wider := o.(slippage := more);
    assert RiskBudget(wider) == RiskBudget(o) && PositionBudget(wider) == PositionBudget(o);
    assert RiskPerShare(o) <= RiskPerShare(wider);
    hide Affords, RiskBudget, PositionBudget, RiskPerShare;
    CheaperFits(RiskBudget(o), RiskPerShare(o), RiskPerShare(wider), n);
  }

  /** More expected slippage never buys more shares. */
  lemma SizeShrinksWithSlippage(o: Order, more: real)
    requires o.slippage >= 0.0 && o.slippage <= more
    ensures SizeLots(o.(slippage := more)) <= SizeLots(o)
  {
    var wider := o.(slippage := more);
    if Sizable(o) {
      SizeIsOptimal(o);
      SizeIsOptimal(wider);
      hide Fits, SizeLots;
      if SizeLots(wider) >= 1 {
        WiderFits(o, more, SizeLots(wider));
      }
    }
  }

  /** The reported loss is within half a cent of quantity times risk per share. */
  lemma LossIsHonest(o: Order)
    requires SizeLong(o).0 > 0.0
    ensures -0.005 <= SizeLong(o).0 * RiskPerShare(o) - SizeLong(o).1 <= 0.005
  {
    hide SizeLots, RoundCents, RiskPerShare;
  }

  /** The notional of a sized order never exceeds its position budget or the cash. */
  lemma NotionalFits(o: Order)
    requires SizeLong(o).0 > 0.0
    ensures 0.0 < SizeLong(o).0 * o.entry <= o.cash
    ensures o.equity > 0.0 && SizeLong(o).0 * o.entry / o.equity * 100.0 <= o.positionPct
  {
    hide SizeLots, SizeLong, Fits, Lot;
    UnsizableIsZero(o);
    SizeIsOptimal(o);
    NotionalOf(o, SizeLots(o), SizeLong(o).0);
  }

  lemma NotionalOf(o: Order, n: nat, qty: real)
    requires o.equity > 0.0 && o.entry > 0.0 && n >= 1 && Fits(o, n) && qty == Lot(n)
    ensures 0.0 < qty * o.entry <= o.cash
    ensures qty * o.entry / o.equity * 100.0 <= o.positionPct
  {
    var notional := qty * o.entry;
    var share := notional / o.equity;
    assert share * o.equity == notional;
    Scale(share, o.positionPct / 100.0, o.equity);
  }
}
