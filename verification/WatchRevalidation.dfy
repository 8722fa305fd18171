/**
  Price observation and revalidation of one watch. What the market evaluation concludes is a
  parameter: the methods model the status writes it leads to, under any compare-and-swap answers.
 */
module WatchRevalidation {
  import opened Wrappers
  import opened WatchLifecycle
  import opened WatchLedger
  import opened EntryWatchStore

  const RETRY_DELAY: int := 30_000_000

  /** Every table-legal mark is accepted. */
  ghost predicate AllCas(s: Store) {
    forall n :: s.cas(n)
  }

  /** What a price says about a WAITING watch. */
  datatype Look = Look(structureLost: bool, inZone: bool, exhausted: bool, reclaimed: bool)

  /** The status a WAITING watch takes after one observation. */
  function Observed(w: Watch, look: Look, now: int): Status {
    if w.validUntil < now then Expired
    else if look.structureLost then Invalidated
    else if look.inZone && look.exhausted then Invalidated
    else if look.inZone && look.reclaimed then Triggered
    else Waiting
  }

  method ObservePrice(s: Store, id: int, look: Look, now: int)
    requires s.Valid() && id in s.rows
    modifies s`rows, s`trails, s`order, s`attempts
    ensures s.Valid() && id in s.rows && Step(old(s.Now()), s.Now(), id)
    ensures s.rows[id].status in {old(s.rows)[id].status, Observed(old(s.rows)[id], look, now)}
    ensures old(s.rows)[id].status != Waiting ==> s.Now() == old(s.Now())
    ensures AllCas(s) && old(s.rows)[id].status == Waiting ==>
      s.rows[id].status == Observed(old(s.rows)[id], look, now)
  {
    hide Step, Safe, Transitioned;
    StepStay(s.Now(), id);
    var w := s.rows[id];
    if w.status != Waiting {
      return;
    }
    if now > w.validUntil {
      var _ := s.Mark(id, Expired, now);
      return;
    }
    if look.structureLost {
      var _ := s.Mark(id, Invalidated, now);
      return;
    }
    if look.inZone {
      if look.exhausted {
        var _ := s.Mark(id, Invalidated, now);
        return;
      }
      if look.reclaimed {
        var _ := s.Mark(id, Triggered, now);
      }
    }
  }

  /** What a fresh evaluation under the REVALIDATING lease concludes. */
  datatype Verdict =
    | SupportBreak
    | Pending(transient: bool)
    | DataBlocked(operational: bool)
    | GeometryMismatch
    | BuyAllowed(record: int, built: bool)
    | NoTrade
    | SoftWait

  function VerdictTarget(v: Verdict): (to: Status)
    ensures to in Allowed(Revalidating) && !Leased(to)
  {
    match v
    case SupportBreak => Invalidated
    case Pending(transient) => if transient then Triggered else Waiting
    case DataBlocked(operational) => if operational then BlockedOperational else BlockedData
    case GeometryMismatch => Invalidated
    case BuyAllowed(_, _) => Admitted
    case NoTrade => Invalidated
    case SoftWait => Triggered
  }

  /** The verdicts that lead to a status. */
  predicate LeadsTo(v: Verdict, to: Status) {
    match to
    case Admitted => v.BuyAllowed?
    case Waiting => v == Pending(false)
    case Triggered => v == Pending(true) || v.SoftWait?
    case Invalidated => v.SupportBreak? || v.GeometryMismatch? || v.NoTrade?
    case BlockedData => v == DataBlocked(false)
    case BlockedOperational => v == DataBlocked(true)
    case _ => false
  }

  /** The verdicts a caller is answered so for. */
  predicate Answered(v: Verdict, outcome: Outcome) {
    match outcome
    case BuyNow => v.BuyAllowed? && v.built
    case WaitNow => v.SoftWait?
    case NoTradeNow => v.NoTrade? || v.DataBlocked?
    case Stopped => v.SupportBreak? || v.GeometryMismatch? || v.Pending? || (v.BuyAllowed? && !v.built)
    case Raised => false
  }

  /** The tables read from the other end: each verdict has one status and one answer. */
  lemma VerdictBothWays(v: Verdict, to: Status, outcome: Outcome)
    ensures LeadsTo(v, to) <==> to == VerdictTarget(v)
    ensures Answered(v, outcome) <==> outcome == OutcomeOf(v)
  {
  }

  /** Where the evaluation raises, if it does. */
  datatype Crash = Never | BeforeWrites | AfterWrites

  datatype Outcome = Raised | Stopped | NoTradeNow | WaitNow | BuyNow

  function OutcomeOf(v: Verdict): Outcome {
    match v
    case SupportBreak => Stopped
    case Pending(_) => Stopped
    case DataBlocked(_) => NoTradeNow
    case GeometryMismatch => Stopped
    case BuyAllowed(_, built) => if built then BuyNow else Stopped
    case NoTrade => NoTradeNow
    case SoftWait => WaitNow
  }

  /** Gives the lease back: TRIGGERED by mark, or by a plain write when the mark is refused. */
  method ReleaseRevalidating(s: Store, id: int, now: int)
    requires s.Valid() && id in s.rows
    modifies s`rows, s`trails, s`order, s`attempts
    ensures s.Valid() && id in s.rows && Step(old(s.Now()), s.Now(), id)
    ensures s.rows[id].status != Revalidating
    ensures old(s.rows)[id].status == Revalidating ==> s.rows[id].status == Triggered
    ensures s.rows[id].status == Triggered || s.Now() == old(s.Now())
    ensures Triggered !in Allowed(old(s.rows)[id].status) ==> s.Now() == old(s.Now())
    ensures AllCas(s) && Triggered in Allowed(old(s.rows)[id].status) ==> s.rows[id].status == Triggered
    ensures old(s.rows)[id].status == Revalidating && !s.cas(old(s.attempts)) ==>
      Restated(old(s.rows)[id], s.rows[id], Triggered)
  {
    hide Step, Safe, Transitioned, Forced;
    StepStay(s.Now(), id);
    ForcedMeans(s.rows[id], Triggered);
    var updated := s.Mark(id, Triggered, now);
    if updated.Some? {
      return;
    }
    var current := s.rows[id];
    if current.status != Revalidating {
      return;
    }
    s.Force(id, Triggered, false);
  }

  /** A mark to `to`, or the plain write of `to` when it is refused. */
  method MarkOrForce(s: Store, id: int, to: Status, now: int)
    requires s.Valid() && id in s.rows && to in Allowed(s.rows[id].status) && !Leased(to)
    requires Quiet(s.rows[id], to, None)
    modifies s`rows, s`trails, s`order, s`attempts
    ensures s.Valid() && id in s.rows && Step(old(s.Now()), s.Now(), id) && s.claims == old(s.claims)
    ensures s.attempts >= old(s.attempts)
    ensures s.rows[id].status == to && s.rows[id].opportunity == old(s.rows)[id].opportunity
    ensures s.rows[id].triggerVersion == old(s.rows)[id].triggerVersion || old(s.rows)[id].status == Waiting
    ensures s.rows[id].retryAt == old(s.rows)[id].retryAt
    ensures !s.cas(old(s.attempts)) ==> Restated(old(s.rows)[id], s.rows[id], to)
  {
    hide Step, Transitioned, Restated;
    ForcedMeans(s.rows[id], to);
    var updated := s.Mark(id, to, now);
    if updated.None? {
      s.Force(id, to, false);
    }
  }

  /** The status writes of one evaluation, while the lease is held. */
  method RevalidateAfterClaim(s: Store, id: int, verdict: Verdict, now: int) returns (outcome: Outcome)
    requires s.Valid() && id in s.rows && s.rows[id].status == Revalidating
    modifies s`rows, s`trails, s`order, s`attempts
    ensures s.Valid() && id in s.rows && Step(old(s.Now()), s.Now(), id)
    ensures outcome == OutcomeOf(verdict) && Answered(verdict, outcome)
    ensures s.rows[id].status == Revalidating || LeadsTo(verdict, s.rows[id].status)
    // Refused marks never lose a Pending or SoftWait verdict.
    ensures AllCas(s) || verdict.Pending? || verdict.SoftWait? ==> LeadsTo(verdict, s.rows[id].status)
    ensures s.rows[id].retryAt ==
            if s.rows[id].status == BlockedOperational then Some(now + 30_000_000) else old(s.rows)[id].retryAt
    ensures !s.cas(old(s.attempts)) && (verdict.Pending? || verdict.SoftWait?) ==>
      Restated(old(s.rows)[id], s.rows[id], s.rows[id].status)
    ensures s.rows[id].status == Admitted ==> verdict.BuyAllowed? && s.rows[id].admissionRecord == Some(verdict.record)
  {
    hide Step, Safe, Transitioned, Restated;
    StepStay(s.Now(), id);
    outcome := OutcomeOf(verdict);
    VerdictBothWays(verdict, VerdictTarget(verdict), outcome);
    match verdict
    case SupportBreak =>
      var _ := s.Mark(id, Invalidated, now);
    case Pending(transient) =>
      MarkOrForce(s, id, if transient then Triggered else Waiting, now);
    case DataBlocked(operational) =>
      var blocked := s.Mark(id, if operational then BlockedOperational else BlockedData, now);
      if blocked.Some? && operational {
        ScheduleRetry(s, id, now);
      }
    case GeometryMismatch =>
      var _ := s.Mark(id, Invalidated, now);
    case BuyAllowed(record, built) =>
      var _ := s.Mark(id, Admitted, now, Some(record));
    case NoTrade =>
      var _ := s.Mark(id, Invalidated, now);
    case SoftWait =>
      MarkOrForce(s, id, Triggered, now);
  }

  method ScheduleRetry(s: Store, id: int, now: int)
    requires s.Valid() && id in s.rows && id in s.trails
    modifies s`rows, s`trails, s`order, s`attempts
    ensures s.Valid() && s.rows == old(s.rows)[id := old(s.rows)[id].(retryAt := Some(now + RETRY_DELAY))]
    ensures forall d | Step(d, old(s.Now()), id) :: Step(d, s.Now(), id)
  {
    ghost var before := s.Now();
    var w := s.rows[id].(retryAt := Some(now + RETRY_DELAY));
    PutStep(before, w);
    s.Update(w);
    forall d | Step(d, before, id) ensures Step(d, s.Now(), id) {
      StepTrans(d, before, s.Now(), id);
    }
  }

  /** The evaluation with its `except` and its last resort: the lease is always given back. */
  method RevalidateGuarded(s: Store, id: int, verdict: Verdict, crash: Crash, now: int) returns (outcome: Outcome)
    requires s.Valid() && id in s.rows && s.rows[id].status == Revalidating
    modifies s`rows, s`trails, s`order, s`attempts
    ensures s.Valid() && id in s.rows && Step(old(s.Now()), s.Now(), id)
    ensures outcome == if crash == Never then OutcomeOf(verdict) else Raised
    ensures s.rows[id].status != Revalidating
    ensures AllCas(s) ==> s.rows[id].status == Settled(verdict, crash)
    ensures s.rows[id].status == Admitted ==> verdict.BuyAllowed? && s.rows[id].admissionRecord == Some(verdict.record)
  {
    hide Step, OutcomeOf, Leased, Restated, LeadsTo, Answered;
    ghost var start := s.Now();
    if crash == BeforeWrites {
      ReleaseRevalidating(s, id, now);
      return Raised;
    }
    outcome := RevalidateAfterClaim(s, id, verdict, now);
    VerdictBothWays(verdict, s.rows[id].status, outcome);
    ghost var written := s.Now();
    if crash == AfterWrites || s.rows[id].status == Revalidating {
      ReleaseRevalidating(s, id, now);
      StepTrans(start, written, s.Now(), id);
    }
    if crash == AfterWrites {
      return Raised;
    }
  }

  lemma SettledIsFree(verdict: Verdict, crash: Crash)
    ensures !Leased(Settled(verdict, crash))
  {
  }

  lemma OnlyTriggered(from: Status)
    ensures Revalidating in Allowed(from) <==> from == Triggered
  {
  }

  /** The claim of the lease, then the evaluation under it. */
  method RevalidateQuoted(s: Store, id: int, verdict: Verdict, crash: Crash, now: int) returns (outcome: Outcome)
    requires s.Valid() && id in s.rows
    modifies s`rows, s`trails, s`order, s`attempts
    ensures s.Valid() && id in s.rows && Step(old(s.Now()), s.Now(), id)
    ensures old(s.rows)[id].status != Triggered ==> outcome == Stopped && s.Now() == old(s.Now())
    ensures old(s.rows)[id].status == Triggered ==> s.rows[id].status != Revalidating
    ensures AllCas(s) && old(s.rows)[id].status == Triggered ==>
      && outcome == (if crash == Never then OutcomeOf(verdict) else Raised)
      && s.rows[id].status == Settled(verdict, crash) && !Leased(s.rows[id].status)
    ensures s.rows[id].status == Admitted && old(s.rows)[id].status == Triggered ==>
      verdict.BuyAllowed? && s.rows[id].admissionRecord == Some(verdict.record)
  {
    hide Step, Safe, Transitioned, OutcomeOf, Settled, Leased, Allowed, BoardOk;
    ghost var start := s.Now();
    StepStay(start, id);
    OnlyTriggered(s.rows[id].status);
    var marked := s.Mark(id, Revalidating, now);
    if marked.None? {
      return Stopped;
    }
    ghost var claimed := s.Now();
    SettledIsFree(verdict, crash);
    outcome := RevalidateGuarded(s, id, verdict, crash, now);
    StepTrans(start, claimed, s.Now(), id);
  }

  /**
    Full revalidation of a watch from a copy of its row read before an await. Whatever the
    evaluation does, including raising, and whatever the compare-and-swap answers, the watch is not
    left REVALIDATING, and a row that is no longer TRIGGERED is left alone.
   */
  method Revalidate(s: Store, id: int, copied: Status, quoted: bool, verdict: Verdict, crash: Crash, now: int)
    returns (outcome: Outcome)
    requires s.Valid() && id in s.rows
    modifies s`rows, s`trails, s`order, s`attempts
    ensures s.Valid() && id in s.rows && Step(old(s.Now()), s.Now(), id)
    ensures copied != Triggered ==> outcome == Raised && s.Now() == old(s.Now())
    ensures copied == Triggered && (!quoted || old(s.rows)[id].status != Triggered) ==>
      outcome == Stopped && s.Now() == old(s.Now())
    ensures old(s.rows)[id].status == Triggered ==> s.rows[id].status != Revalidating
    ensures copied == old(s.rows)[id].status == Triggered && quoted && AllCas(s) ==>
      && outcome == (if crash == Never then OutcomeOf(verdict) else Raised)
      && s.rows[id].status == Settled(verdict, crash)
    ensures s.rows[id].status == Admitted && old(s.rows)[id].status == Triggered ==>
      verdict.BuyAllowed? && s.rows[id].admissionRecord == Some(verdict.record)
    ensures AllCas(s) && old(s.rows)[id].status == Triggered ==> !Leased(s.rows[id].status)
  {
    hide Step, Safe, Transitioned, OutcomeOf, Settled;
    ghost var start := s.Now();
    StepStay(start, id);
    if copied != Triggered {
      return Raised;
    }
    if !quoted {
      return Stopped;
    }
    outcome := RevalidateQuoted(s, id, verdict, crash, now);
  }

  /** A raise before the writes leaves the watch TRIGGERED; one after them also takes back all but a final refusal. */
  lemma RaiseKeepsTriggered(verdict: Verdict)
    ensures Settled(verdict, BeforeWrites) == Triggered
    ensures Settled(verdict, AfterWrites) ==
            if verdict.SupportBreak? || verdict.GeometryMismatch? || verdict.NoTrade? then Invalidated else Triggered
    ensures LeadsTo(verdict, Settled(verdict, Never))
  {
    hide Answered;
  }

  /** Where a revalidation leaves a watch when no mark is refused. */
  function Settled(verdict: Verdict, crash: Crash): Status {
    match crash
    case Never => VerdictTarget(verdict)
    case BeforeWrites => Triggered
    case AfterWrites =>
      if Triggered in Allowed(VerdictTarget(verdict)) then Triggered else VerdictTarget(verdict)
  }
}
