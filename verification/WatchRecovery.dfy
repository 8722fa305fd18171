/**
  Recovery in the watch loop: expired leases, interrupted conversions and watches whose data is
  missing are put back on a safe status, whatever the compare-and-swap answers.
 */
module WatchRecovery {
  import opened Wrappers
  import opened WatchLifecycle
  import opened WatchLedger
  import opened EntryWatchStore
  import opened WatchRevalidation

  // ---- Recovery of stale leases ----------------------------------------------------------------

  /** Where an expired lease sends its watch. */
  function SafeTarget(w: Watch): Status {
    if w.status == Revalidating then Triggered
    else if w.opportunity.Some? then Converted
    else Admitted
  }

  function Recovering(w: Watch, now: int): Watch {
    if LeaseExpired(w, now) then Forced(w, SafeTarget(w), true) else w
  }

  /** Lease recovery, partway: the watches in `done` have been looked at. */
  ghost predicate PartlyRecovered(start: map<int, Watch>, rows: map<int, Watch>, done: set<int>, now: int) {
    rows.Keys == start.Keys && forall id | id in rows ::
        rows[id] == if id in done then Recovering(start[id], now) else start[id]
  }

  /** The rows after lease recovery. */
  function Recovered(rows: map<int, Watch>, now: int): map<int, Watch> {
    map id | id in rows :: Recovering(rows[id], now)
  }

  /** No watch is left with an expired lease; what moved is on its safe target with no lease. */
  lemma RecoveredIsFresh(rows: map<int, Watch>, now: int)
    ensures forall id | id in rows ::
      && !LeaseExpired(Recovered(rows, now)[id], now)
      && (LeaseExpired(rows[id], now) ==>
            && Recovered(rows, now)[id].status == SafeTarget(rows[id])
            && Recovered(rows, now)[id].status in Allowed(rows[id].status)
            && LeaseOk(Recovered(rows, now)[id]))
  {
  }

  lemma PartlyRecoveredStart(start: map<int, Watch>, now: int)
    ensures PartlyRecovered(start, start, {}, now)
  {
  }

  lemma PartlyRecoveredStep(start: map<int, Watch>, rows: map<int, Watch>, done: set<int>, now: int, id: int)
    requires PartlyRecovered(start, rows, done, now) && id in start
    ensures id in rows
    ensures !LeaseExpired(rows[id], now) ==> PartlyRecovered(start, rows, done + {id}, now)
    ensures LeaseExpired(rows[id], now) ==>
      PartlyRecovered(start, rows[id := Forced(rows[id], SafeTarget(rows[id]), true)], done + {id}, now)
  {
  }

  lemma PartlyRecoveredMeans(start: map<int, Watch>, rows: map<int, Watch>, done: set<int>, now: int)
    requires PartlyRecovered(start, rows, done, now)
    requires forall id | id in start :: id in done || !Actionable(start[id].status)
    ensures rows == Recovered(start, now)
  {
    assert rows.Keys == Recovered(start, now).Keys;
    forall id | id in rows ensures rows[id] == Recovered(start, now)[id] {}
  }

  /** A mark onto the safe target and the forced write are the same row. */
  lemma MarkedIsForced(w: Watch, c: Change)
    requires Leased(w.status) && c.to == SafeTarget(w) && c.admissionRecord.None? && c.opportunity.None?
    ensures Transitioned(w, c) == Forced(w, SafeTarget(w), true)
    ensures c.to in Allowed(w.status) && !Leased(c.to) && Quiet(w, c.to, None)
  {
  }

  /** One expired lease: the same safe target whether or not the mark is accepted. */
  method RecoverOne(s: Store, id: int, now: int)
    requires s.Valid() && id in s.rows && LeaseExpired(s.rows[id], now)
    modifies s`rows, s`trails, s`order, s`attempts, s`claims
    ensures s.Valid() && id in s.rows && s.order == old(s.order) && Step(old(s.Now()), s.Now(), id)
    ensures s.rows == old(s.rows)[id := Forced(old(s.rows)[id], SafeTarget(old(s.rows)[id]), true)]
    ensures s.claims == if SafeTarget(old(s.rows)[id]) == Admitted
                        then old(s.claims) - {ClaimOf(old(s.rows)[id])} else old(s.claims)
  {
    hide Step, Safe, Transitioned, Allowed, Quiet;
    ghost var start := s.Now();
    var w := s.rows[id];
    var target := SafeTarget(w);
    ghost var change := s.ChangeFor(target, now, s.attempts, None, None);
    MarkedIsForced(w, change);
    var updated := s.Mark(id, target, now);
    if updated.None? {
      s.Force(id, target, true);
    }
    if target == Admitted {
      ghost var moved := s.Now();
      ReleaseKeeps(moved, id);
      var _ := s.ReleaseIfUnpublished(s.rows[id]);
      StepTrans(start, moved, s.Now(), id);
    }
  }

  method RecoverStaleLeases(s: Store, now: int)
    requires s.Valid()
    modifies s`rows, s`trails, s`order, s`attempts, s`claims
    ensures s.Valid() && s.order == old(s.order)
    ensures s.rows == Recovered(Lapsed(Collapsed(old(s.rows), old(s.order)), now), now)
    ensures forall id | id in s.rows :: !LeaseExpired(s.rows[id], now)
    ensures Kept(old(s.Now()), s.Now())
  {
    hide Safe, Kept, OnePerSymbol, Collapsed, Lapsed, Recovered, LeaseExpired;
    var ids := s.ListActionable(now);
    ghost var tidy := s.Now();
    SafeMeans(old(s.Now()), tidy);
    RecoverListed(s, ids, now);
    KeptTrans(old(s.Now()), tidy, s.Now());
    RecoveredIsFresh(tidy.rows, now);
  }

  method RecoverListed(s: Store, ids: seq<int>, now: int)
    requires s.Valid() && forall id :: id in ids <==> id in s.rows && Actionable(s.rows[id].status)
    modifies s`rows, s`trails, s`order, s`attempts, s`claims
    ensures s.Valid() && s.order == old(s.order)
    ensures s.rows == Recovered(old(s.rows), now)
    ensures Kept(old(s.Now()), s.Now())
  {
    hide NoDuplicates, Step, Safe, Kept, Forced, Recovered, PartlyRecovered, LeaseExpired, SafeTarget, Actionable,
        BoardOk;
    ghost var start := s.Now();
    ghost var done: set<int> := {};
    PartlyRecoveredStart(start.rows, now);
    KeptStay(start);
    for i := 0 to |ids|
      invariant s.Valid() && s.order == old(s.order)
      invariant forall j | 0 <= j < i :: ids[j] in done
      invariant PartlyRecovered(start.rows, s.rows, done, now)
      invariant Kept(start, s.Now())
    {
      var id := ids[i];
      assert id in ids;
      PartlyRecoveredStep(start.rows, s.rows, done, now, id);
      if LeaseExpired(s.rows[id], now) {
        ghost var before := s.Now();
        RecoverOne(s, id, now);
        StepIsKept(before, s.Now(), id);
        KeptTrans(start, before, s.Now());
      }
      done := done + {id};
    }
    PartlyRecoveredMeans(start.rows, s.rows, done, now);
  }

  // ---- Deferral and blocking -------------------------------------------------------------------

  /** The status after deferring to a fresh revalidation. */
  function Deferred(w: Watch): Status {
    if w.opportunity.Some? then (if w.status == Converting then Converted else w.status)
    else if w.status == Converting || w.status == Admitted then Triggered
    else w.status
  }

  /**
    An interrupted conversion goes back to TRIGGERED, or on to CONVERTED when it did publish;
    refused marks change nothing about that. The claim is dropped unless it published.
   */
  method DeferToRecovery(s: Store, id: int, now: int)
    requires s.Valid() && id in s.rows
    modifies s`rows, s`trails, s`order, s`attempts, s`claims
    ensures s.Valid() && id in s.rows && Step(old(s.Now()), s.Now(), id)
    ensures s.attempts >= old(s.attempts)
    ensures s.rows[id].status == Deferred(old(s.rows)[id])
    ensures s.rows[id].opportunity == old(s.rows)[id].opportunity && ClaimOf(s.rows[id]) == ClaimOf(old(s.rows)[id])
    ensures s.claims == if old(s.rows)[id].opportunity.Some? then old(s.claims)
      else old(s.claims) - {ClaimOf(old(s.rows)[id])}
  {
    hide Step;
    ghost var start := s.Now();
    StepStay(start, id);
    var current := s.rows[id];
    if current.opportunity.Some? {
      if current.status == Converting {
        MarkOrForce(s, id, Converted, now);
      }
      return;
    }
    ReleaseKeeps(start, id);
    var _ := s.ReleaseIfUnpublished(current);
    if current.status == Converting {
      ghost var before := s.Now();
      MarkOrForce(s, id, Admitted, now);
      StepTrans(start, before, s.Now(), id);
    }
    if s.rows[id].status != Admitted {
      return;
    }
    ghost var before := s.Now();
    MarkOrForce(s, id, Triggered, now);
    StepTrans(start, before, s.Now(), id);
  }

  /** A mark that neither publishes nor counts a trigger. */
  method TryMark(s: Store, id: int, to: Status, now: int) returns (done: bool)
    requires s.Valid() && id in s.rows && to != Converted && (s.rows[id].status != Waiting || to != Triggered)
    modifies s`rows, s`trails, s`order, s`attempts
    ensures s.Valid() && id in s.rows && Step(old(s.Now()), s.Now(), id) && s.claims == old(s.claims)
    ensures s.rows[id].opportunity == old(s.rows)[id].opportunity && ClaimOf(s.rows[id]) == ClaimOf(old(s.rows)[id])
    ensures done <==> to in Allowed(old(s.rows)[id].status) && s.cas(old(s.attempts))
    ensures s.attempts >= old(s.attempts)
      && (to in Allowed(old(s.rows)[id].status) ==> s.attempts == old(s.attempts) + 1)
    ensures s.rows[id].status == if done then to else old(s.rows)[id].status
  {
    hide Step, Transitioned, Allowed;
    var updated := s.Mark(id, to, now);
    done := updated.Some?;
  }

  function BlockedFrom(s: Status): Status {
    if s in {Waiting, Triggered, Revalidating, BlockedOperational} then BlockedData else s
  }

  /** BLOCKED_DATA, by way of TRIGGERED from an operational block. */
  method Block(s: Store, id: int, now: int)
    requires s.Valid() && id in s.rows
    modifies s`rows, s`trails, s`order, s`attempts
    ensures s.Valid() && id in s.rows && Step(old(s.Now()), s.Now(), id)
    ensures s.rows[id].opportunity == old(s.rows)[id].opportunity && ClaimOf(s.rows[id]) == ClaimOf(old(s.rows)[id])
    ensures s.rows[id].status == Revalidating ==> old(s.rows)[id].status == Revalidating
    ensures AllCas(s) ==> s.rows[id].status == BlockedFrom(old(s.rows)[id].status)
  {
    hide Step, Transitioned;
    ghost var start := s.Now();
    StepStay(start, id);
    if s.rows[id].status == BlockedOperational {
      ghost var before := s.Now();
      var _ := TryMark(s, id, Triggered, now);
      StepTrans(start, before, s.Now(), id);
    }
    if s.rows[id].status != BlockedData {
      ghost var before := s.Now();
      var _ := TryMark(s, id, BlockedData, now);
      StepTrans(start, before, s.Now(), id);
    }
  }

  /** Where missing data leaves a watch when no mark is refused. */
  function BlockTarget(w: Watch): Status {
    BlockedFrom(if w.status == Admitted || w.status == Converting then Deferred(w) else w.status)
  }

  method BlockOnMissingData(s: Store, id: int, now: int)
    requires s.Valid() && id in s.rows
    modifies s`rows, s`trails, s`order, s`attempts, s`claims
    ensures s.Valid() && id in s.rows && Step(old(s.Now()), s.Now(), id)
    ensures s.rows[id].opportunity == old(s.rows)[id].opportunity && ClaimOf(s.rows[id]) == ClaimOf(old(s.rows)[id])
    ensures s.claims in {old(s.claims), old(s.claims) - {ClaimOf(old(s.rows)[id])}}
    ensures s.rows[id].status == Revalidating ==> old(s.rows)[id].status == Revalidating
    ensures AllCas(s) ==> s.rows[id].status == BlockTarget(old(s.rows)[id])
  {
    hide Step, Transitioned;
    ghost var start := s.Now();
    if s.rows[id].status == Admitted || s.rows[id].status == Converting {
      DeferToRecovery(s, id, now);
    } else {
      StepStay(start, id);
    }
    ghost var deferred := s.Now();
    Block(s, id, now);
    StepTrans(start, deferred, s.Now(), id);
  }
}
