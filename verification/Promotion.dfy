/**
  The strategy promotion ladder: evidence earns research stages, a human opens the last two. Each
  call is one atomic step on one strategy version.
 */
module Promotion {
  import opened Wrappers

  datatype Stage =
    | Proposed | BacktestPassed | OosPassed | WalkForwardPassed | PaperPassed
    | HumanApproved | Production | Rejected

  function Index(s: Stage): int {
    match s
    case Proposed => 0
    case BacktestPassed => 1
    case OosPassed => 2
    case WalkForwardPassed => 3
    case PaperPassed => 4
    case HumanApproved => 5
    case Production => 6
    case Rejected => -1
  }

  /** The ladder from the bottom rung up; a rejected version stands below it. */
  lemma LadderIsOrdered(s: Stage)
    ensures var ladder :=
              [Proposed, BacktestPassed, OosPassed, WalkForwardPassed, PaperPassed, HumanApproved, Production];
            if s == Rejected then Index(s) == -1 else 0 <= Index(s) < |ladder| && ladder[Index(s)] == s
  {
  }

  predicate Research(s: Stage) {
    0 <= Index(s) <= 4
  }

  datatype Thresholds = Thresholds(
    backtestTrades: nat, backtestReturn: real, oosTrades: nat, oosReturn: real, profitFactor: real,
    efficiency: real, paperTrades: nat, paperExpectancy: real, paperProfitFactor: real, regimes: nat)

  /** Aggregated evidence; `paperRegimes` counts the tagged regimes other than unknown. */
  datatype Evidence = Evidence(
    backtestTrades: nat, backtestReturn: Option<real>,
    oosTrades: nat, oosReturn: Option<real>, oosProfitFactor: Option<real>, oosRegimes: nat, efficiency: Option<real>,
    paperTrades: nat, paperExpectancy: Option<real>, paperProfitFactor: Option<real>, paperRegimes: nat)

  predicate BacktestPasses(e: Evidence, t: Thresholds) {
    && e.backtestTrades >= t.backtestTrades && e.backtestTrades > 0
    && e.backtestReturn.Some? && e.backtestReturn.value > t.backtestReturn
  }

  predicate OosPasses(e: Evidence, t: Thresholds) {
    && e.oosTrades >= t.oosTrades && e.oosTrades > 0
    && e.oosReturn.Some? && e.oosReturn.value > t.oosReturn
    && e.oosProfitFactor.Some? && e.oosProfitFactor.value >= t.profitFactor
    && (e.oosRegimes == 0 || e.oosRegimes >= t.regimes)
  }

  predicate EfficiencyPasses(e: Evidence, t: Thresholds) {
    e.efficiency.Some? && e.efficiency.value >= t.efficiency
  }

  predicate PaperPasses(e: Evidence, t: Thresholds) {
    && e.paperTrades >= t.paperTrades && e.paperTrades > 0
    && e.paperExpectancy.Some? && e.paperExpectancy.value > t.paperExpectancy
    && (e.paperProfitFactor.None? || e.paperProfitFactor.value >= t.paperProfitFactor)
    && (e.paperRegimes < 1 || e.paperRegimes >= t.regimes)
  }

  datatype Shortfall = MinTrades | MinReturn | MinProfitFactor | MinRegimes | MinExpectancy

  method JudgeBacktest(e: Evidence, t: Thresholds) returns (pass: bool, reasons: seq<Shortfall>)
    ensures pass <==> BacktestPasses(e, t)
    ensures forall r :: r in reasons <==>
      || (r == MinTrades && e.backtestTrades < t.backtestTrades)
      || (r == MinReturn && (e.backtestReturn.None? || e.backtestReturn.value <= t.backtestReturn))
  {
    reasons := [];
    if e.backtestTrades < t.backtestTrades { reasons := reasons + [MinTrades]; }
    if e.backtestReturn.None? || e.backtestReturn.value <= t.backtestReturn { reasons := reasons + [MinReturn]; }
    pass := reasons == [] && e.backtestTrades > 0;
  }

  method JudgeOos(e: Evidence, t: Thresholds) returns (pass: bool, reasons: seq<Shortfall>)
    ensures pass <==> OosPasses(e, t)
    ensures forall r :: r in reasons <==>
      || (r == MinTrades && e.oosTrades < t.oosTrades)
      || (r == MinReturn && (e.oosReturn.None? || e.oosReturn.value <= t.oosReturn))
      || (r == MinProfitFactor && (e.oosProfitFactor.None? || e.oosProfitFactor.value < t.profitFactor))
      || (r == MinRegimes && 0 < e.oosRegimes < t.regimes)
  {
    reasons := [];
    if e.oosTrades < t.oosTrades { reasons := reasons + [MinTrades]; }
    if e.oosReturn.None? || e.oosReturn.value <= t.oosReturn { reasons := reasons + [MinReturn]; }
    if e.oosProfitFactor.None? || e.oosProfitFactor.value < t.profitFactor { reasons := reasons + [MinProfitFactor]; }
    if e.oosRegimes != 0 && e.oosRegimes < t.regimes { reasons := reasons + [MinRegimes]; }
    pass := reasons == [] && e.oosTrades > 0;
  }

  method JudgePaper(e: Evidence, t: Thresholds) returns (pass: bool, reasons: seq<Shortfall>)
    ensures pass <==> PaperPasses(e, t)
    ensures forall r :: r in reasons <==>
      || (r == MinTrades && e.paperTrades < t.paperTrades)
      || (r == MinExpectancy && (e.paperExpectancy.None? || e.paperExpectancy.value <= t.paperExpectancy))
      || (r == MinProfitFactor && e.paperProfitFactor.Some? && e.paperProfitFactor.value < t.paperProfitFactor)
      || (r == MinRegimes && 1 <= e.paperRegimes < t.regimes)
  {
    reasons := [];
    if e.paperTrades < t.paperTrades { reasons := reasons + [MinTrades]; }
    if e.paperExpectancy.None? || e.paperExpectancy.value <= t.paperExpectancy { reasons := reasons + [MinExpectancy]; }
    if e.paperProfitFactor.Some? && e.paperProfitFactor.value < t.paperProfitFactor {
      reasons := reasons + [MinProfitFactor];
    }
    if e.paperRegimes >= 1 && e.paperRegimes < t.regimes { reasons := reasons + [MinRegimes]; }
    pass := reasons == [] && e.paperTrades > 0;
  }

  function Earned(e: Evidence, t: Thresholds): (s: Stage)
    ensures Research(s)
  {
    if !BacktestPasses(e, t) then Proposed
    else if !OosPasses(e, t) then BacktestPassed
    else if !EfficiencyPasses(e, t) then OosPassed
    else if !PaperPasses(e, t) then WalkForwardPassed
    else PaperPassed
  }

  /** A stage is earned exactly when every gate up to it passes: no gate can be skipped. */
  lemma EarnedNeedsEveryGate(e: Evidence, t: Thresholds)
    ensures Index(Earned(e, t)) >= 1 <==> BacktestPasses(e, t)
    ensures Index(Earned(e, t)) >= 2 <==> BacktestPasses(e, t) && OosPasses(e, t)
    ensures Index(Earned(e, t)) >= 3 <==> BacktestPasses(e, t) && OosPasses(e, t) && EfficiencyPasses(e, t)
    ensures Earned(e, t) == PaperPassed <==>
            BacktestPasses(e, t) && OosPasses(e, t) && EfficiencyPasses(e, t) && PaperPasses(e, t)
  {
  }

  datatype Error = NotFound | RejectedVersion | PaperGateNotPassed | NotApproved | InProduction

  datatype Version = Version(stage: Stage, approvedBy: Option<string>, promotedBy: Option<string>,
      rejectedReason: Option<string>)

  /** One thing that happened to a version, with the evidence it was judged on. */
  datatype Event =
    | Recomputed(evidence: Evidence)
    | Approved(evidence: Evidence, actor: string)
    | Promoted(promoter: string)
    | Dismissed

  class Registry {
    const thresholds: Thresholds
    var versions: map<int, Version>
    /** Every successful state-changing call, oldest first. */
    ghost var history: map<int, seq<Event>>

    ghost predicate Valid()
      reads this
    {
      && history.Keys == versions.Keys
      && forall id | id in versions :: Justified(versions[id].stage, history[id], thresholds)
    }

    constructor (thresholds: Thresholds)
      ensures Valid() && versions == map[] && this.thresholds == thresholds
    {
      this.thresholds, versions, history := thresholds, map[], map[];
    }

    method Register(id: int)
      requires Valid() && id !in versions
      modifies this
      ensures Valid() && versions == old(versions)[id := Version(Proposed, None, None, None)]
      ensures history == old(history)[id := []]
    {
      versions := versions[id := Version(Proposed, None, None, None)];
      history := history[id := []];
    }

    /** Refreshes the evidence: a research stage becomes exactly what was earned. */
    method Recompute(id: int, e: Evidence) returns (r: Result<Stage, Error>)
      requires Valid()
      modifies this
      ensures Valid() && versions.Keys == old(versions.Keys)
      ensures r == (if id !in old(versions) then Err(NotFound)
                    else if old(versions)[id].stage == Rejected then Err(RejectedVersion)
                    else Ok(versions[id].stage))
      ensures r.Err? ==> versions == old(versions) && history == old(history)
      ensures r.Ok? ==>
        && versions == old(versions)[id := old(versions)[id].(stage := r.value)]
        && history == old(history)[id := old(history)[id] + [Recomputed(e)]]
        && r.value == (if Research(old(versions)[id].stage) then Earned(e, thresholds) else old(versions)[id].stage)
    {
      hide BacktestPasses, OosPasses, PaperPasses, Justified;
      if id !in versions {
        return Err(NotFound);
      }
      var current := versions[id].stage;
      if current == Rejected {
        return Err(RejectedVersion);
      }
      var backtest, _ := JudgeBacktest(e, thresholds);
      var oos, _ := JudgeOos(e, thresholds);
      var efficiency := e.efficiency.Some? && e.efficiency.value >= thresholds.efficiency;
      var paper, _ := JudgePaper(e, thresholds);
      var earned := if !backtest then Proposed else if !oos then BacktestPassed
                    else if !efficiency then OosPassed else if !paper then WalkForwardPassed else PaperPassed;
      var next: Stage;
      if current == HumanApproved || current == Production {
        next := current;
      } else if Index(earned) > Index(current) {
        next := earned;
      } else if Index(earned) < Index(current) {
        next := earned;
      } else {
        next := current;
      }
      if Index(next) > Index(PaperPassed) {
        next := PaperPassed;
        if current == HumanApproved || current == Production {
          next := current;
        }
      }
      RecomputeJustified(current, history[id], thresholds, e);
      versions := versions[id := versions[id].(stage := next)];
      history := history[id := history[id] + [Recomputed(e)]];
      return Ok(next);
    }

    /** The human gate: it refreshes the evidence itself, and approves only what that earned. */
    method HumanApprove(id: int, e: Evidence, actor: string) returns (r: Result<Stage, Error>)
      requires Valid()
      modifies this
      ensures Valid()
      ensures r.Ok? <==>
        && id in old(versions) && old(versions)[id].stage != Rejected
        && (Research(old(versions)[id].stage) ==> Earned(e, thresholds) == PaperPassed)
      ensures r.Ok? ==> versions.Keys == old(versions.Keys) && r.value == versions[id].stage
      ensures r.Ok? && Research(old(versions)[id].stage) ==>
        && versions[id].stage == HumanApproved && versions[id].approvedBy == Some(actor)
        && history[id] == old(history)[id] + [Recomputed(e), Approved(e, actor)]
      ensures r.Ok? && !Research(old(versions)[id].stage) ==> versions[id] == old(versions)[id]
      ensures r == Err(PaperGateNotPassed) ==>
        && id in old(versions) && Research(old(versions)[id].stage)
        && versions == old(versions)[id := old(versions)[id].(stage := Earned(e, thresholds))]
      ensures r.Err? && r.error != PaperGateNotPassed ==> versions == old(versions)
      ensures forall j | j in old(versions) && j != id ::
        j in versions && versions[j] == old(versions)[j] && history[j] == old(history)[j]
      ensures versions.Keys == old(versions.Keys)
    {
      var refreshed := Recompute(id, e);
      if refreshed.Err? {
        return refreshed;
      }
      var stage := refreshed.value;
      if Index(stage) < Index(PaperPassed) {
        return Err(PaperGateNotPassed);
      }
      if stage == HumanApproved || stage == Production {
        return Ok(stage);
      }
      ApproveJustified(history[id], thresholds, e, actor);
      versions := versions[id := versions[id].(stage := HumanApproved, approvedBy := Some(actor))];
      history := history[id := history[id] + [Approved(e, actor)]];
      assert history[id] == old(history)[id] + [Recomputed(e), Approved(e, actor)];
      return Ok(HumanApproved);
    }

    method PromoteToProduction(id: int, actor: string) returns (r: Result<Stage, Error>)
      requires Valid()
      modifies this
      ensures Valid()
      ensures r == (if id !in old(versions) then Err(NotFound)
                    else if old(versions)[id].stage in {HumanApproved, Production} then Ok(Production)
                        else Err(NotApproved))
      ensures r.Err? || old(versions)[id].stage == Production ==> versions == old(versions) && history == old(history)
      ensures r.Ok? && old(versions)[id].stage == HumanApproved ==>
        && versions == old(versions)[id := old(versions)[id].(stage := Production, promotedBy := Some(actor))]
        && history == old(history)[id := old(history)[id] + [Promoted(actor)]]
    {
      if id !in versions {
        return Err(NotFound);
      }
      if versions[id].stage == Production {
        return Ok(Production);
      }
      if versions[id].stage != HumanApproved {
        return Err(NotApproved);
      }
      PromoteJustified(history[id], thresholds, actor);
      versions := versions[id := versions[id].(stage := Production, promotedBy := Some(actor))];
      history := history[id := history[id] + [Promoted(actor)]];
      return Ok(Production);
    }

    method RejectVersion(id: int, reason: string) returns (r: Result<Stage, Error>)
      requires Valid()
      modifies this
      ensures Valid()
      ensures r == (if id !in old(versions) then Err(NotFound)
                    else if old(versions)[id].stage == Production then Err(InProduction) else Ok(Rejected))
      ensures r.Err? ==> versions == old(versions) && history == old(history)
      ensures r.Ok? ==>
        && versions == old(versions)[id := old(versions)[id].(stage := Rejected, rejectedReason := Some(reason))]
        && history == old(history)[id := old(history)[id] + [Dismissed]]
    {
      if id !in versions {
        return Err(NotFound);
      }
      if versions[id].stage == Production {
        return Err(InProduction);
      }
      versions := versions[id := versions[id].(stage := Rejected, rejectedReason := Some(reason))];
      history := history[id := history[id] + [Dismissed]];
      return Ok(Rejected);
    }
  }

  // ---- What the stages mean ----------------------------------------------------------------------

  ghost predicate UndismissedSince(h: seq<Event>, k: nat) {
    forall j | k < j < |h| :: !h[j].Dismissed?
  }

  /** The evidence of some approval in the history earned PAPER_PASSED, and nothing was dismissed since. */
  ghost predicate ApprovedOnEvidence(h: seq<Event>, t: Thresholds) {
    exists k :: 0 <= k < |h| && h[k].Approved? && Earned(h[k].evidence, t) == PaperPassed && UndismissedSince(h, k)
  }

  /** The stage is one the history of the version can justify. */
  ghost predicate Justified(s: Stage, h: seq<Event>, t: Thresholds) {
    match s
    case Rejected => true
    case HumanApproved => ApprovedOnEvidence(h, t)
    case Production => ApprovedOnEvidence(h, t) && exists k :: 0 <= k < |h| && h[k].Promoted?
    case _ => h == [] || (h[|h| - 1].Recomputed? && s == Earned(h[|h| - 1].evidence, t))
  }

  lemma StillApproved(h: seq<Event>, t: Thresholds, e: Event)
    requires ApprovedOnEvidence(h, t) && !e.Dismissed?
    ensures ApprovedOnEvidence(h + [e], t)
  {
    var k :| 0 <= k < |h| && h[k].Approved? && Earned(h[k].evidence, t) == PaperPassed && UndismissedSince(h, k);
    assert (h + [e])[k] == h[k] && UndismissedSince(h + [e], k);
  }

  lemma RecomputeJustified(s: Stage, h: seq<Event>, t: Thresholds, e: Evidence)
    requires Justified(s, h, t) && s != Rejected
    ensures Justified(if Research(s) then Earned(e, t) else s, h + [Recomputed(e)], t)
  {
    if !Research(s) {
      StillApproved(h, t, Recomputed(e));
      if s == Production {
        var k :| 0 <= k < |h| && h[k].Promoted?;
        assert (h + [Recomputed(e)])[k].Promoted?;
      }
    }
  }

  lemma ApproveJustified(h: seq<Event>, t: Thresholds, e: Evidence, actor: string)
    requires Earned(e, t) == PaperPassed
    ensures Justified(HumanApproved, h + [Approved(e, actor)], t)
  {
    var h' := h + [Approved(e, actor)];
    assert h'[|h|].Approved? && UndismissedSince(h', |h|);
  }

  lemma PromoteJustified(h: seq<Event>, t: Thresholds, actor: string)
    requires Justified(HumanApproved, h, t)
    ensures Justified(Production, h + [Promoted(actor)], t)
  {
    StillApproved(h, t, Promoted(actor));
    assert (h + [Promoted(actor)])[|h|].Promoted?;
  }

  datatype Op =
    | RegisterOp(id: int)
    | RecomputeOp(id: int, evidence: Evidence)
    | ApproveOp(id: int, evidence: Evidence, actor: string)
    | PromoteOp(id: int, actor: string)
    | RejectOp(id: int, reason: string)

  /** What no call undoes: PRODUCTION and REJECTED are final, and versions are never removed. */
  ghost predicate Final(before: map<int, Version>, after: map<int, Version>) {
    forall id | id in before ::
      && id in after
      && (before[id].stage in {Production, Rejected} ==> after[id].stage == before[id].stage)
  }

  /** Any calls in any order, with any evidence at each of them. */
  method Run(r: Registry, ops: seq<Op>)
    requires r.Valid()
    modifies r
    ensures r.Valid() && Final(old(r.versions), r.versions)
    ensures forall id | id in r.versions && r.versions[id].stage == Production ::
      id in r.history && ApprovedOnEvidence(r.history[id], r.thresholds)
  {
    hide ApprovedOnEvidence, Earned, BacktestPasses, OosPasses, EfficiencyPasses, PaperPasses;
    for i := 0 to |ops|
      invariant r.Valid() && Final(old(r.versions), r.versions)
    {
      match ops[i]
      case RegisterOp(id) =>
        if id !in r.versions {
          r.Register(id);
        }
      case RecomputeOp(id, e) =>
        var _ := r.Recompute(id, e);
      case ApproveOp(id, e, actor) =>
        var _ := r.HumanApprove(id, e, actor);
      case PromoteOp(id, actor) =>
        var _ := r.PromoteToProduction(id, actor);
      case RejectOp(id, reason) =>
        var _ := r.RejectVersion(id, reason);
    }
  }
}
