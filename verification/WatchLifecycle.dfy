/**
  The EntryWatch state machine: its transition table, the lease a transition takes or drops, and
  what every legal sequence of statuses guarantees. Times are microseconds since the epoch.
 */
module WatchLifecycle {
  import opened Wrappers

  const LEASE: int := 45_000_000

  datatype Status =
    | Waiting | Triggered | Revalidating | Admitted | Converting
    | Expired | Invalidated | Converted | Cancelled
    | BlockedData | BlockedOperational

  function Allowed(from: Status): set<Status> {
    match from
    case Waiting => {Triggered, Expired, Invalidated, Cancelled, BlockedData, BlockedOperational}
    case Triggered => {Revalidating, Waiting, Invalidated, Expired, Cancelled, BlockedData, BlockedOperational}
    case Revalidating => {Waiting, Triggered, Admitted, Invalidated, Expired, BlockedData, BlockedOperational}
    case Admitted => {Converting, Invalidated, Triggered}
    case Converting => {Converted, Admitted, Invalidated}
    case BlockedData => {Waiting, Triggered, Invalidated, Expired, Cancelled}
    case BlockedOperational => {Waiting, Triggered, Invalidated, Expired, Cancelled}
    case _ => {}
  }

  /** The table read from the other end: the statuses a status can be entered from. */
  function EnteredFrom(to: Status): set<Status> {
    match to
    case Waiting => {Triggered, Revalidating, BlockedData, BlockedOperational}
    case Triggered => {Waiting, Revalidating, Admitted, BlockedData, BlockedOperational}
    case Revalidating => {Triggered}
    case Admitted => {Revalidating, Converting}
    case Converting => {Admitted}
    case Converted => {Converting}
    case Expired => {Waiting, Triggered, Revalidating, BlockedData, BlockedOperational}
    case Invalidated => {Waiting, Triggered, Revalidating, Admitted, Converting, BlockedData, BlockedOperational}
    case Cancelled => {Waiting, Triggered, BlockedData, BlockedOperational}
    case BlockedData => {Waiting, Triggered, Revalidating}
    case BlockedOperational => {Waiting, Triggered, Revalidating}
  }

  /** Both readings name the same edges. */
  lemma EdgesBothWays(from: Status, to: Status)
    ensures to in Allowed(from) <==> from in EnteredFrom(to)
  {
  }

  predicate Leased(s: Status) {
    s == Revalidating || s == Converting
  }

  predicate Terminal(s: Status) {
    s == Expired || s == Invalidated || s == Converted || s == Cancelled
  }

  /** The terminal statuses are those with no way out. */
  lemma TerminalHasNoExit(s: Status)
    ensures Terminal(s) <==> forall to: Status :: to !in Allowed(s)
  {
    if !Terminal(s) {
      assert Invalidated in Allowed(s);
    }
  }

  datatype Watch = Watch(
    id: int, symbol: string, createdAt: int, validUntil: int,
    status: Status, stateVersion: nat, triggerVersion: nat,
    claimedAt: Option<int>, claimToken: Option<string>, claimOwner: Option<string>, leaseExpiresAt: Option<int>,
    triggeredAt: Option<int>, admissionRecord: Option<int>, opportunity: Option<int>,
    retryAt: Option<int>, lastPrice: Option<real>)

  /** One requested transition; `random` is the token drawn when the caller supplies none. */
  datatype Change = Change(
    to: Status, now: int, random: string,
    claimToken: Option<string>, claimOwner: Option<string>,
    admissionRecord: Option<int>, opportunity: Option<int>)

  function Unleased(w: Watch): Watch {
    w.(claimedAt := None, claimToken := None, claimOwner := None, leaseExpiresAt := None)
  }

  /** The row a committed transition writes. */
  function Transitioned(w: Watch, c: Change): Watch {
    var token := c.claimToken.GetOr(c.random);
    var owner := c.claimOwner.GetOr(token);
    var moved := w.(status := c.to, stateVersion := w.stateVersion + 1);
    var stamped :=
      if c.to == Triggered && w.status == Waiting
      then moved.(triggerVersion := w.triggerVersion + 1, triggeredAt := Some(c.now)) else moved;
    var leased :=
      if Leased(c.to)
      then stamped.(claimedAt := Some(c.now), claimToken := Some(token), claimOwner := Some(owner),
                    leaseExpiresAt := Some(c.now + LEASE))
      else if Leased(w.status) then Unleased(stamped)
      else stamped;
    leased.(admissionRecord := if c.admissionRecord.Some? then c.admissionRecord else w.admissionRecord,
            opportunity := if c.opportunity.Some? then c.opportunity else w.opportunity)
  }

  function LeaseExpired(w: Watch, now: int): bool {
    if !Leased(w.status) then false
    else if w.leaseExpiresAt.Some? then w.leaseExpiresAt.value <= now
    else if w.claimedAt.Some? then w.claimedAt.value + LEASE <= now
    else true
  }

  /** Lease fields are set exactly in the leased statuses, expiring 45 seconds after the claim. */
  predicate LeaseOk(w: Watch) {
    if Leased(w.status)
    then w.claimedAt.Some? && w.claimToken.Some? && w.claimOwner.Some?
        && w.leaseExpiresAt == Some(w.claimedAt.value + LEASE)
    else w.claimedAt.None? && w.claimToken.None? && w.claimOwner.None? && w.leaseExpiresAt.None?
  }

  lemma TransitionKeepsLease(w: Watch, c: Change)
    requires LeaseOk(w) && c.to in Allowed(w.status)
    ensures LeaseOk(Transitioned(w, c))
    ensures Leased(c.to) ==> !LeaseExpired(Transitioned(w, c), c.now)
  {
  }

  /** The lease fields after a transition: taken on entering a leased status, dropped on leaving one. */
  predicate LeaseMoves(w: Watch, c: Change, r: Watch) {
    if c.to == Revalidating || c.to == Converting then
      && r.claimedAt == Some(c.now) && r.leaseExpiresAt == Some(c.now + 45_000_000)
      && r.claimToken == (if c.claimToken.Some? then c.claimToken else Some(c.random))
      && r.claimOwner == (if c.claimOwner.Some? then c.claimOwner else r.claimToken)
    else if w.status == Revalidating || w.status == Converting then
      r.claimedAt.None? && r.claimToken.None? && r.claimOwner.None? && r.leaseExpiresAt.None?
    else
      && r.claimedAt == w.claimedAt && r.claimToken == w.claimToken && r.claimOwner == w.claimOwner
      && r.leaseExpiresAt == w.leaseExpiresAt
  }

  /** A new trigger is numbered and dated; a watch that is triggered again keeps its trigger. */
  predicate TriggerMoves(w: Watch, c: Change, r: Watch) {
    if w.status == Waiting && c.to == Triggered
    then r.triggerVersion == w.triggerVersion + 1 && r.triggeredAt == Some(c.now)
    else r.triggerVersion == w.triggerVersion && r.triggeredAt == w.triggeredAt
  }

  /** One committed transition field by field. */
  predicate Moves(w: Watch, c: Change, r: Watch) {
    && r.status == c.to && r.stateVersion == w.stateVersion + 1 && TriggerMoves(w, c, r) && LeaseMoves(w, c, r)
    && r.admissionRecord == (if c.admissionRecord.Some? then c.admissionRecord else w.admissionRecord)
    && r.opportunity == (if c.opportunity.Some? then c.opportunity else w.opportunity)
    && r.id == w.id && r.symbol == w.symbol && r.createdAt == w.createdAt && r.validUntil == w.validUntil
    && r.retryAt == w.retryAt && r.lastPrice == w.lastPrice
  }

  /** There is exactly one such row. */
  lemma TransitionFieldByField(w: Watch, c: Change, r: Watch)
    ensures Moves(w, c, r) <==> r == Transitioned(w, c)
  {
  }

  /** A lease taken now runs out 45 seconds later; a leased row without any times has run out already. */
  lemma LeaseLasts(w: Watch, c: Change, at: int)
    requires c.to == Revalidating || c.to == Converting
    ensures LeaseExpired(Transitioned(w, c), at) <==> at >= c.now + 45_000_000
    ensures LeaseExpired(Transitioned(w, c).(leaseExpiresAt := None), at) <==> at >= c.now + 45_000_000
    ensures LeaseExpired(Unleased(w).(status := c.to), at)
  {
  }

  // ---- Legal histories -----------------------------------------------------------------------

  /** Every step of a status history is an edge of the transition table. */
  ghost predicate Legal(trail: seq<Status>) {
    forall i | 0 <= i < |trail| - 1 :: trail[i + 1] in Allowed(trail[i])
  }

  lemma LegalAppend(trail: seq<Status>, s: Status)
    requires Legal(trail) && |trail| > 0 && s in Allowed(trail[|trail| - 1])
    ensures Legal(trail + [s])
  {
    var t := trail + [s];
    forall i | 0 <= i < |t| - 1 ensures t[i + 1] in Allowed(t[i]) {
      if i < |trail| - 1 {
        assert trail[i + 1] in Allowed(trail[i]);
      }
    }
  }

  /** Terminal statuses are absorbing: a status that is left is not terminal. */
  lemma TerminalAbsorbs(trail: seq<Status>, i: nat)
    requires Legal(trail) && i < |trail|
    ensures i < |trail| - 1 ==> !Terminal(trail[i])
  {
    if i < |trail| - 1 {
      var next := trail[i + 1];
      assert next in Allowed(trail[i]);
    }
  }

  predicate PastAdmission(s: Status) {
    s == Admitted || s == Converting || s == Converted
  }

  /**
    A watch can only become CONVERTED through its own revalidation: there is a
    REVALIDATING -> ADMITTED step, TRIGGERED came before it and never after it.
   */
  lemma {:induction false} ConvertedWasRevalidated(trail: seq<Status>) returns (k: nat)
    requires |trail| > 0 && Legal(trail) && trail[0] == Waiting && PastAdmission(trail[|trail| - 1])
    ensures 0 < k && k + 1 < |trail| && trail[k - 1] == Triggered && trail[k] == Revalidating
      && trail[k + 1] == Admitted
    ensures forall j | k < j < |trail| :: PastAdmission(trail[j])
  {
    var n := |trail|;
    assert trail[n - 1] in Allowed(trail[n - 2]);
    var pre := trail[..n - 1];
    forall i | 0 <= i < |pre| - 1 ensures pre[i + 1] in Allowed(pre[i]) {
      assert trail[i + 1] in Allowed(trail[i]);
    }
    if PastAdmission(trail[n - 2]) {
      k := ConvertedWasRevalidated(pre);
    } else {
      k := n - 2;
      assert trail[n - 2] == Revalidating;
      assert trail[n - 2] in Allowed(trail[n - 3]);
    }
  }
}
