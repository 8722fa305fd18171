/**
  Final BUY confirmation: what the strictness slider relaxes, over real-valued market facts. Five
  desk steps, from the strictest (0) to the weakest (100).
 */
module BuyConfirmation {
  import opened Wrappers

  const SETUP_FLOOR: int := 55
  const ENTRY_FLOOR: int := 50
  const MATERIAL_NEGATIVE_MOMENTUM: real := -0.40
  const HEAVY_SELL_VOLUME: real := 1.60

  datatype MomentumMode = Strong | Confirmed | Moderate | WeakFlat | MomentumOptional
  datatype VolumeMode = VolumeRequired | VolumePreferred | VolumeSoft
  datatype VwapMode = VwapRequired | UnlessStructure | VwapSoft | VwapOptional

  datatype Policy = Policy(
    setupTolerance: int, entryTolerance: int, minRr: real,
    momentum: MomentumMode, volume: VolumeMode, vwap: VwapMode, momentumMin: real,
    minArrival: real, allowFast: bool, allowSellOff: bool, minSellOff: real, minFast: real,
    vwapMin: real, anchorFraction: real, digestMax: real)

  datatype Level = L0 | L25 | L50 | L75 | L100

  function PolicyOf(level: Level): Policy {
    match level
    case L0 => Policy(0, 0, 2.00, Strong, VolumeRequired, VwapRequired, 0.0,
                      60.0, false, false, 60.0, 58.0, -0.35, 0.996, 1.05)
    case L25 => Policy(0, 0, 1.90, Confirmed, VolumeRequired, VwapRequired, 0.0,
                       56.0, false, false, 56.0, 52.0, -0.45, 0.994, 1.10)
    case L50 => Policy(0, 0, 1.75, Moderate, VolumePreferred, UnlessStructure, -0.02,
                       50.0, true, false, 50.0, 48.0, -0.55, 0.992, 1.15)
    case L75 => Policy(0, 0, 1.60, WeakFlat, VolumeSoft, VwapSoft, -0.08,
                       44.0, true, false, 22.0, 40.0, -0.62, 0.990, 1.22)
    case L100 => Policy(0, 0, 1.45, MomentumOptional, VolumeSoft, VwapOptional, -0.15,
                        35.0, true, false, 8.0, 28.0, -0.70, 0.988, 1.28)
  }

  function Step(level: Level): int {
    match level case L0 => 0 case L25 => 25 case L50 => 50 case L75 => 75 case L100 => 100
  }

  function Abs(x: int): int {
    if x < 0 then -x else x
  }

  function Nearer(a: Level, b: Level, n: int): Level {
    if Abs(Step(b) - n) < Abs(Step(a) - n) then b else a
  }

  /** Rounding to the nearest integer, halves to the even one. */
  function RoundHalfEven(x: real): (n: int)
    ensures -0.5 <= x - n as real <= 0.5
  {
    var down := x.Floor;
    var rest := x - down as real;
    if rest < 0.5 || (rest == 0.5 && down % 2 == 0) then down else down + 1
  }

  lemma RoundIsMonotone(a: real, b: real)
    requires a <= b
    ensures RoundHalfEven(a) <= RoundHalfEven(b)
  {
    assert a.Floor <= b.Floor;
  }

  /** The desk step an integer snaps to. */
  function SnapInt(value: int): Level {
    var n := if value < 0 then 0 else if value > 100 then 100 else value;
    Nearer(Nearer(Nearer(Nearer(L0, L25, n), L50, n), L75, n), L100, n)
  }

  /** The desk step a slider value snaps to. */
  function Snap(value: real): Level {
    SnapInt(RoundHalfEven(value))
  }

  function Distance(level: Level, value: real): real {
    var d := value - Step(level) as real;
    if d < 0.0 then -d else d
  }

  /** Snapping never reverses the slider, and no step is nearer. */
  lemma SnapIsMonotone(a: real, b: real)
    requires a <= b
    ensures Step(Snap(a)) <= Step(Snap(b))
    ensures forall level: Level :: Distance(Snap(a), a) <= Distance(level, a)
  {
    RoundIsMonotone(a, b);
    hide RoundHalfEven;
  }

  /** Half way between two steps the rounding to an even number decides. */
  lemma TiesSnap()
    ensures Snap(12.5) == L0 && Snap(37.5) == L50 && Snap(62.5) == L50 && Snap(87.5) == L100
  {
    assert RoundHalfEven(12.5) == 12 && RoundHalfEven(37.5) == 38 && RoundHalfEven(62.5) == 62;
    assert RoundHalfEven(87.5) == 88;
  }

  datatype ArrivalKind = Healthy | Normal | FastPullback | SellOff | Crash | GapDown | StructuralBreak | UnknownKind

  datatype Arrival = Arrival(score: real, kind: ArrivalKind)

  datatype Facts = Facts(
    setup: int, entry: int, plannedRr: Option<real>, effectiveRr: Option<real>,
    momentum: Option<real>, pullbackVolume: Option<real>, price: real,
    vwapDistance: Option<real>, anchor: Option<real>, structureValid: bool,
    arrival: Option<Arrival>, arrivalRequired: bool)

  datatype Terminal = NegativeMomentum | HeavySelling

  /** Damage no slider step waives. */
  function TerminalReason(momentum: Option<real>, volume: Option<real>): Option<Terminal> {
    if momentum.Some? && momentum.value <= MATERIAL_NEGATIVE_MOMENTUM then Some(NegativeMomentum)
    else if volume.Some? && volume.value >= HEAVY_SELL_VOLUME then Some(HeavySelling)
    else None
  }

  /** True passes, false fails, none is skipped. */
  function MomentumOk(m: Option<real>, p: Policy, structureValid: bool): (ok: Option<bool>)
    ensures ok.None? <==>
      m.None? && (p.momentum == Moderate || p.momentum == WeakFlat || p.momentum == MomentumOptional)
  {
    match p.momentum
    case Strong => if m.None? then Some(false) else Some(m.value > p.momentumMin)
    case Confirmed => if m.None? then Some(false) else Some(m.value >= p.momentumMin)
    case Moderate => if m.None? then None else Some(m.value >= p.momentumMin)
    case WeakFlat =>
      if m.None? then None
      else if m.value >= p.momentumMin && structureValid then Some(true)
      else Some(m.value >= 0.0)
    case MomentumOptional => if m.None? then None else Some(m.value > MATERIAL_NEGATIVE_MOMENTUM)
  }

  function VolumeOk(v: Option<real>, p: Policy): Option<bool> {
    if v.None? then (if p.volume != VolumeRequired then None else Some(false))
    else Some(v.value <= p.digestMax)
  }

  function VwapHolds(f: Facts, p: Policy): Option<bool> {
    if f.vwapDistance.None? && f.anchor.None? then None
    else if f.vwapDistance.Some? && f.vwapDistance.value < p.vwapMin then Some(false)
    else Some(!(f.anchor.Some? && f.price < f.anchor.value * p.anchorFraction))
  }

  datatype Reason =
    | TerminalDamage(why: Terminal) | SetupBelowFloor | EntryBelowFloor | RrTooLow | InsufficientRr
    | MomentumMissing | VolumeMissing | VwapMissing
    | ArrivalMissing | ArrivalSellOff | ArrivalQualityLow | Relaxed

  /** The codes that turn a confirmation into a refusal. */
  predicate Rejects(r: Reason) {
    !r.Relaxed? && !r.TerminalDamage?
  }

  /** Why an arrival does not confirm, if it does not. */
  function SoftArrival(a: Arrival, p: Policy): Option<Reason> {
    if a.kind == SellOff && !p.allowSellOff then Some(ArrivalSellOff)
    else
      var floor := if p.allowSellOff && a.kind == SellOff then p.minSellOff
                   else if p.allowFast && a.kind == FastPullback then p.minFast
                   else p.minArrival;
      if a.score < floor then Some(ArrivalQualityLow) else None
  }

  // ---- What passing means ------------------------------------------------------------------------

  function RrOf(f: Facts): Option<real> {
    if f.effectiveRr.Some? then f.effectiveRr else f.plannedRr
  }

  predicate RrPasses(f: Facts, p: Policy) {
    RrOf(f).Some? && RrOf(f).value >= p.minRr
  }

  predicate VolumePasses(f: Facts, p: Policy) {
    p.volume == VolumeRequired ==> VolumeOk(f.pullbackVolume, p) == Some(true)
  }

  predicate VwapPasses(f: Facts, p: Policy) {
    || VwapHolds(f, p) == Some(true)
    || p.vwap == VwapSoft || p.vwap == VwapOptional
    || (p.vwap == UnlessStructure && f.structureValid)
  }

  predicate ArrivalPasses(f: Facts, p: Policy) {
    f.arrivalRequired ==> f.arrival.Some? && SoftArrival(f.arrival.value, p).None?
  }

  /** Every soft confirm holds, or is one this step lets go. */
  predicate Passes(f: Facts, p: Policy) {
    && TerminalReason(f.momentum, f.pullbackVolume).None?
    && f.setup >= SETUP_FLOOR + p.setupTolerance && f.entry >= ENTRY_FLOOR + p.entryTolerance
    && RrPasses(f, p) && MomentumOk(f.momentum, p, f.structureValid) != Some(false)
    && VolumePasses(f, p) && VwapPasses(f, p) && ArrivalPasses(f, p)
  }

  /** A soft confirm was let go. */
  predicate LetGo(f: Facts, p: Policy) {
    || (p.setupTolerance < 0 && f.setup < SETUP_FLOOR) || (p.entryTolerance < 0 && f.entry < ENTRY_FLOOR)
    || MomentumOk(f.momentum, p, f.structureValid).None?
    || (p.volume != VolumeRequired && VolumeOk(f.pullbackVolume, p) != Some(true))
    || (p.vwap == UnlessStructure && f.structureValid && VwapHolds(f, p) != Some(true))
    || (p.vwap == VwapSoft && VwapHolds(f, p) != Some(true))
    || (p.vwap == VwapOptional && VwapHolds(f, p) == Some(false))
  }

  /** The reasons a confirmation that is not stopped by terminal damage is refused with. */
  predicate Cites(r: Reason, f: Facts, p: Policy) {
    match r
    case TerminalDamage(_) => false
    case SetupBelowFloor => f.setup < SETUP_FLOOR + p.setupTolerance
    case EntryBelowFloor => f.entry < ENTRY_FLOOR + p.entryTolerance
    case RrTooLow => !RrPasses(f, p)
    case InsufficientRr => RrOf(f).Some? && !RrPasses(f, p)
    case MomentumMissing => MomentumOk(f.momentum, p, f.structureValid) == Some(false)
    case VolumeMissing => !VolumePasses(f, p)
    case VwapMissing => !VwapPasses(f, p)
    case ArrivalMissing => !ArrivalPasses(f, p)
    case ArrivalSellOff => f.arrivalRequired && f.arrival.Some? && SoftArrival(f.arrival.value, p) == Some(r)
    case ArrivalQualityLow => f.arrivalRequired && f.arrival.Some? && SoftArrival(f.arrival.value, p) == Some(r)
    case Relaxed => false
  }

  predicate OfFloor(r: Reason) {
    r in {SetupBelowFloor, EntryBelowFloor, RrTooLow, InsufficientRr}
  }

  predicate Soft(r: Reason) {
    r in {MomentumMissing, VolumeMissing, VwapMissing, ArrivalMissing, ArrivalSellOff, ArrivalQualityLow}
  }

  // ---- The five steps by what they ask of the facts ----------------------------------------------

  /** A number for each step, from 0 to 100. */
  function At(level: Level, l0: real, l25: real, l50: real, l75: real, l100: real): real {
    if level.L0? then l0 else if level.L25? then l25 else if level.L50? then l50 else if level.L75? then l75 else l100
  }

  predicate MomentumDemand(level: Level, f: Facts) {
    match f.momentum
    case None => level.L50? || level.L75? || level.L100?
    case Some(m) =>
      if level.L0? then m > 0.0
      else if level.L75? && !f.structureValid then m >= 0.0
      else if level.L100? then m > -0.40
      else m >= At(level, 0.0, 0.0, -0.02, -0.08, 0.0)
  }

  /** The price holds the VWAP, as far as there is one to hold. */
  predicate HoldsVwap(level: Level, f: Facts) {
    && (f.vwapDistance.Some? ==> f.vwapDistance.value >= At(level, -0.35, -0.45, -0.55, -0.62, -0.70))
    && (f.anchor.Some? ==> f.price >= f.anchor.value * At(level, 0.996, 0.994, 0.992, 0.990, 0.988))
  }

  predicate Measured(f: Facts) {
    f.vwapDistance.Some? || f.anchor.Some?
  }

  predicate Digests(level: Level, f: Facts) {
    f.pullbackVolume.Some? && f.pullbackVolume.value <= At(level, 1.05, 1.10, 1.15, 1.22, 1.28)
  }

  /** No step lets a sell-off through; from step 50 on a fast pullback has a floor of its own. */
  predicate ArrivalDemand(level: Level, a: Arrival) {
    && a.kind != SellOff
    && (a.kind == FastPullback ==> a.score >= At(level, 60.0, 56.0, 48.0, 40.0, 28.0))
    && (a.kind != FastPullback ==> a.score >= At(level, 60.0, 56.0, 50.0, 44.0, 35.0))
  }

  /** What a step demands before it confirms. */
  predicate Demands(level: Level, f: Facts) {
    && f.setup >= 55 && f.entry >= 50
    && (f.momentum.Some? ==> f.momentum.value > -0.40) && (f.pullbackVolume.Some? ==> f.pullbackVolume.value < 1.60)
    && (f.effectiveRr.Some? || f.plannedRr.Some?)
    && (if f.effectiveRr.Some? then f.effectiveRr.value else f.plannedRr.value) >= At(level, 2.0, 1.9, 1.75, 1.6, 1.45)
    && MomentumDemand(level, f)
    && (level.L0? || level.L25? ==> Digests(level, f))
    && (level.L0? || level.L25? || (level.L50? && !f.structureValid) ==> Measured(f) && HoldsVwap(level, f))
    && (f.arrivalRequired ==> f.arrival.Some? && ArrivalDemand(level, f.arrival.value))
  }

  /** What a step that confirms does without. */
  predicate Forgoes(level: Level, f: Facts) {
    && (level.L50? || level.L75? || level.L100?)
    && (f.momentum.None? || !Digests(level, f) || (Measured(f) && !HoldsVwap(level, f)) ||
        (!Measured(f) && !level.L100?))
  }

  /** The table of policies confirms what the step demands, relaxed by what it does without. */
  lemma PassesByStep(f: Facts, level: Level)
    ensures Passes(f, PolicyOf(level)) <==> Demands(level, f)
    ensures Passes(f, PolicyOf(level)) ==> (LetGo(f, PolicyOf(level)) <==> Forgoes(level, f))
  {
  }

  /** The score each kind of arrival needs, were fast pullbacks and sell-offs allowed at every step. */
  lemma ArrivalFloors(level: Level, kind: ArrivalKind, score: real)
    ensures SoftArrival(Arrival(score, kind), PolicyOf(level).(allowSellOff := true, allowFast := true)) ==
            if score >= (if kind == SellOff then At(level, 60.0, 56.0, 50.0, 22.0, 8.0)
                         else if kind == FastPullback then At(level, 58.0, 52.0, 48.0, 40.0, 28.0)
                         else At(level, 60.0, 56.0, 50.0, 44.0, 35.0))
            then None else Some(ArrivalQualityLow)
    ensures SoftArrival(Arrival(score, kind), PolicyOf(level)) ==
            if kind == SellOff then Some(ArrivalSellOff)
            else if ArrivalDemand(level, Arrival(score, kind)) then None else Some(ArrivalQualityLow)
  {
  }

  /** The least momentum of each step, were it judged as at step 25, and which volume is merely preferred. */
  lemma MomentumFloors(level: Level, m: real, structureValid: bool)
    ensures MomentumOk(Some(m), PolicyOf(level).(momentum := Confirmed), structureValid) ==
            Some(m >= At(level, 0.0, 0.0, -0.02, -0.08, -0.15))
    ensures PolicyOf(level).volume == VolumePreferred <==> Step(level) == 50
  {
  }

  datatype Confirmation = Confirmation(passed: bool, relaxed: bool, reasons: seq<Reason>)

  /** The confirmation as the desk computes it, reason by reason. */
  method Confirm(p: Policy, f: Facts) returns (c: Confirmation)
    ensures c.passed <==> Passes(f, p)
    ensures c.relaxed <==> Passes(f, p) && LetGo(f, p)
    ensures c.passed ==> c.reasons == if c.relaxed then [Relaxed] else []
    ensures !c.passed ==> exists r :: r in c.reasons && !r.Relaxed?
    ensures var damage := TerminalReason(f.momentum, f.pullbackVolume);
            if damage.Some? then c.reasons == [TerminalDamage(damage.value)]
            else !c.passed ==> forall r :: r in c.reasons <==> Cites(r, f, p)
    ensures TerminalDamage(NegativeMomentum) in c.reasons <==> f.momentum.Some? && f.momentum.value <= -0.40
    ensures TerminalDamage(HeavySelling) in c.reasons <==>
      && f.pullbackVolume.Some? && f.pullbackVolume.value >= 1.60
      && (f.momentum.None? || f.momentum.value > -0.40)
    // At each step, without a name of the above.
    ensures forall level | p == PolicyOf(level) ::
      (c.passed <==> Demands(level, f)) && (c.relaxed <==> Demands(level, f) && Forgoes(level, f))
  {
    hide PolicyOf, Passes, LetGo, Demands, Forgoes;
    c := Judge(p, f);
    assert c.passed ==> c.reasons == [] || c.reasons == [Relaxed];
    forall level | p == PolicyOf(level)
      ensures (c.passed <==> Demands(level, f)) && (c.relaxed <==> Demands(level, f) && Forgoes(level, f))
    {
      PassesByStep(f, level);
    }
  }

  method Judge(p: Policy, f: Facts) returns (c: Confirmation)
    ensures c.passed <==> Passes(f, p)
    ensures c.relaxed <==> Passes(f, p) && LetGo(f, p)
    ensures c.passed ==> c.reasons == if c.relaxed then [Relaxed] else []
    ensures !c.passed ==> exists r :: r in c.reasons && !r.Relaxed?
    ensures var damage := TerminalReason(f.momentum, f.pullbackVolume);
            if damage.Some? then c.reasons == [TerminalDamage(damage.value)]
            else !c.passed ==> forall r :: r in c.reasons <==> Cites(r, f, p)
  {
    hide MomentumOk, VolumeOk, VwapHolds, SoftArrival, TerminalReason;
    var reasons: seq<Reason> := [];
    var relaxed := false;
    var terminal := TerminalReason(f.momentum, f.pullbackVolume);
    if terminal.Some? {
      reasons := [TerminalDamage(terminal.value)];
      assert reasons[0] in reasons;
      return Confirmation(false, false, reasons);
    }
    reasons, relaxed := FloorConfirms(p, f);
    var soft, letGo := SoftConfirms(p, f);
    reasons, relaxed := reasons + soft, relaxed || letGo;
    assert reasons != [] ==> reasons[0] in reasons && Rejects(reasons[0]);
    if exists r :: r in reasons && Rejects(r) {
      return Confirmation(false, false, reasons);
    }
    if relaxed {
      reasons := reasons + [Relaxed];
    }
    return Confirmation(true, relaxed, reasons);
  }

  /** Setup, entry and the ratio of reward to risk. */
  method FloorConfirms(p: Policy, f: Facts) returns (reasons: seq<Reason>, relaxed: bool)
    ensures forall r :: r in reasons <==> OfFloor(r) && Cites(r, f, p)
    ensures reasons == [] <==>
      f.setup >= SETUP_FLOOR + p.setupTolerance && f.entry >= ENTRY_FLOOR + p.entryTolerance && RrPasses(f, p)
    ensures reasons == [] ==>
      (relaxed <==> (p.setupTolerance < 0 && f.setup < SETUP_FLOOR) || (p.entryTolerance < 0 && f.entry < ENTRY_FLOOR))
  {
    reasons, relaxed := [], false;
    if f.setup < SETUP_FLOOR + p.setupTolerance {
      reasons := reasons + [SetupBelowFloor];
    } else if f.setup < SETUP_FLOOR && p.setupTolerance < 0 {
      relaxed := true;
    }
    if f.entry < ENTRY_FLOOR + p.entryTolerance {
      reasons := reasons + [EntryBelowFloor];
    } else if f.entry < ENTRY_FLOOR && p.entryTolerance < 0 {
      relaxed := true;
    }
    var rr := RrOf(f);
    if rr.None? || rr.value < p.minRr {
      reasons := reasons + [RrTooLow] + (if rr.Some? then [InsufficientRr] else []);
    }
  }

  /** Momentum, volume, VWAP and arrival. */
  method SoftConfirms(p: Policy, f: Facts) returns (reasons: seq<Reason>, relaxed: bool)
    ensures forall r | r in reasons :: Rejects(r)
    ensures forall r :: r in reasons <==> Soft(r) && Cites(r, f, p)
    ensures reasons == [] <==>
      MomentumOk(f.momentum, p, f.structureValid) != Some(false) && VolumePasses(f, p) && VwapPasses(f, p)
          && ArrivalPasses(f, p)
    ensures relaxed <==>
      || (MomentumOk(f.momentum, p, f.structureValid).None?
          && (p.momentum == Moderate || p.momentum == WeakFlat || p.momentum == MomentumOptional))
      || (p.volume != VolumeRequired && VolumeOk(f.pullbackVolume, p) != Some(true))
      || (p.vwap == UnlessStructure && f.structureValid && VwapHolds(f, p) != Some(true))
      || (p.vwap == VwapSoft && VwapHolds(f, p) != Some(true))
      || (p.vwap == VwapOptional && VwapHolds(f, p) == Some(false))
  {
    reasons, relaxed := [], false;
    var momentum := MomentumOk(f.momentum, p, f.structureValid);
    if momentum == Some(false) {
      reasons := reasons + [MomentumMissing];
    } else if momentum.None? && (p.momentum == Moderate || p.momentum == WeakFlat || p.momentum == MomentumOptional) {
      relaxed := true;
    }
    var volume := VolumeOk(f.pullbackVolume, p);
    if volume == Some(false) && p.volume == VolumeRequired {
      reasons := reasons + [VolumeMissing];
    } else if volume != Some(true) && (p.volume == VolumePreferred || p.volume == VolumeSoft) {
      relaxed := true;
    }
    var vwap := VwapHolds(f, p);
    match p.vwap {
      case VwapRequired =>
        if vwap != Some(true) {
          reasons := reasons + [VwapMissing];
        }
      case UnlessStructure =>
        if vwap != Some(true) {
          if f.structureValid {
            relaxed := true;
          } else {
            reasons := reasons + [VwapMissing];
          }
        }
      case VwapSoft =>
        if vwap != Some(true) {
          relaxed := true;
        }
      case VwapOptional =>
        if vwap == Some(false) {
          relaxed := true;
        }
    }
    if f.arrivalRequired {
      if f.arrival.None? {
        reasons := reasons + [ArrivalMissing];
      } else {
        var soft := SoftArrival(f.arrival.value, p);
        if soft.Some? {
          reasons := reasons + [soft.value, ArrivalMissing];
        }
      }
    }
  }

  // ---- The slider --------------------------------------------------------------------------------

  /** Prices are not negative, where it could matter. */
  predicate SanePrices(f: Facts) {
    f.anchor.None? || f.anchor.value >= 0.0 || f.price >= 0.0
  }

  /** A small negative momentum on a broken structure: the one case WEAK_FLAT judges harder. */
  predicate Dips(f: Facts) {
    !f.structureValid && f.momentum.Some? && f.momentum.value < 0.0
  }

  lemma AnchorRelaxes(f: Facts, strict: real, weak: real)
    requires SanePrices(f) && f.anchor.Some? && 0.0 < weak <= strict && f.price >= f.anchor.value * strict
    ensures f.price >= f.anchor.value * weak
  {
    if f.anchor.value >= 0.0 {
      assert f.anchor.value * (strict - weak) >= 0.0;
    } else {
      assert f.anchor.value * weak <= 0.0;
    }
  }

  lemma VwapRelaxes(f: Facts, a: Level, b: Level)
    requires SanePrices(f) && Step(a) <= Step(b) && VwapPasses(f, PolicyOf(a))
    ensures VwapPasses(f, PolicyOf(b))
  {
    if VwapHolds(f, PolicyOf(a)) == Some(true) && f.anchor.Some? {
      AnchorRelaxes(f, PolicyOf(a).anchorFraction, PolicyOf(b).anchorFraction);
    }
  }

  /**
    Moving the slider to a weaker step never turns a passing confirmation into a failing one, with
    one exception: step 75 refuses exactly those passing facts whose structure is broken and whose
    momentum is negative.
   */
  lemma WeakerStepsPass(f: Facts, a: Level, b: Level)
    requires SanePrices(f) && Step(a) < Step(b) && Passes(f, PolicyOf(a))
    ensures Passes(f, PolicyOf(b)) <==> !(b == L75 && Dips(f))
  {
    VwapRelaxes(f, a, b);
    hide VwapPasses;
  }

  /** With a valid structure the slider is monotone, step by step and value by value. */
  lemma SliderIsMonotone(f: Facts, a: real, b: real)
    requires SanePrices(f) && f.structureValid && a <= b && Passes(f, PolicyOf(Snap(a)))
    ensures Passes(f, PolicyOf(Snap(b)))
  {
    hide Passes, Snap, PolicyOf;
    SnapIsMonotone(a, b);
    if Step(Snap(a)) < Step(Snap(b)) {
      WeakerStepsPass(f, Snap(a), Snap(b));
    }
  }

  /** The exception is real: these facts pass at 50, fail at 75 and pass again at 100. */
  lemma SoftenedStepRefuses() returns (f: Facts)
    ensures SanePrices(f) && Passes(f, PolicyOf(L50)) && !Passes(f, PolicyOf(L75)) && Passes(f, PolicyOf(L100))
  {
    f := Facts(60, 60, Some(2.0), None, Some(-0.01), None, 10.0, Some(0.0), None, false, None, false);
  }

  /** No step passes terminal damage or a candidate below the floors. */
  lemma FloorsHoldEverywhere(f: Facts, level: Level)
    requires Passes(f, PolicyOf(level))
    ensures f.setup >= SETUP_FLOOR && f.entry >= ENTRY_FLOOR && RrOf(f).Some? && RrOf(f).value >= 1.45
    ensures f.momentum.Some? ==> f.momentum.value > MATERIAL_NEGATIVE_MOMENTUM
    ensures f.pullbackVolume.Some? ==> f.pullbackVolume.value < HEAVY_SELL_VOLUME
    ensures f.arrivalRequired ==> f.arrival.Some? && f.arrival.value.kind != SellOff && f.arrival.value.score >= 28.0
  {
  }
}
