/**
  The durable watch rows under compare-and-swap. Workers read a row, keep the copy as long as they
  like, and later attempt a transition from it. Commits form one chain per watch, and no commit is
  ever computed from anything but the current row.
 */
module WatchTable {
  import opened Wrappers
  import opened WatchLifecycle

  /** `b` was written over `a` by one committed transition. */
  ghost predicate Commit(a: Watch, b: Watch) {
    exists c: Change :: c.to in Allowed(a.status) && b == Transitioned(a, c)
  }

  /** All rows ever stored for one watch, oldest first. */
  ghost predicate Chain(h: seq<Watch>) {
    && |h| > 0
    && forall i | 0 <= i < |h| - 1 :: Commit(h[i], h[i + 1])
  }

  lemma CommitVersion(a: Watch, b: Watch)
    requires Commit(a, b)
    ensures b.stateVersion == a.stateVersion + 1 && b.id == a.id
  {
    hide Allowed;
    var c: Change :| c.to in Allowed(a.status) && b == Transitioned(a, c);
  }

  lemma {:induction false} ChainVersions(h: seq<Watch>, i: nat, j: nat)
    requires Chain(h) && i <= j < |h|
    ensures h[j].stateVersion == h[i].stateVersion + (j - i) && h[j].id == h[i].id
    decreases j - i
  {
    hide Commit;
    if i < j {
      CommitVersion(h[j - 1], h[j]);
      ChainVersions(h, i, j - 1);
    }
  }

  /** At most one commit per version read: a version number names one row of the chain. */
  lemma OneCommitPerVersion(h: seq<Watch>, i: nat, j: nat)
    requires Chain(h) && i < |h| && j < |h| && h[i].stateVersion == h[j].stateVersion
    ensures i == j
  {
    if i <= j { ChainVersions(h, i, j); } else { ChainVersions(h, j, i); }
  }

  function Statuses(h: seq<Watch>): (t: seq<Status>)
    ensures |t| == |h|
    ensures forall i | 0 <= i < |h| :: t[i] == h[i].status
  {
    seq(|h|, i requires 0 <= i < |h| => h[i].status)
  }

  /** Every committed status change is an edge of the table, so the lifecycle lemmas apply. */
  lemma ChainIsLegal(h: seq<Watch>)
    requires Chain(h)
    ensures Legal(Statuses(h))
  {
    forall i | 0 <= i < |h| - 1 ensures Statuses(h)[i + 1] in Allowed(Statuses(h)[i]) {
      assert Commit(h[i], h[i + 1]);
    }
  }

  lemma {:induction false} ChainLeases(h: seq<Watch>, i: nat)
    requires Chain(h) && LeaseOk(h[0]) && i < |h|
    ensures LeaseOk(h[i])
  {
    if i > 0 {
      ChainLeases(h, i - 1);
      assert Commit(h[i - 1], h[i]);
      var c: Change :| c.to in Allowed(h[i - 1].status) && h[i] == Transitioned(h[i - 1], c);
      TransitionKeepsLease(h[i - 1], c);
    }
  }

  lemma ChainAppend(h: seq<Watch>, c: Change)
    requires Chain(h) && c.to in Allowed(h[|h| - 1].status)
    ensures Chain(h + [Transitioned(h[|h| - 1], c)])
  {
    var after := h + [Transitioned(h[|h| - 1], c)];
    forall i | 0 <= i < |after| - 1 ensures Commit(after[i], after[i + 1]) {
      if i < |h| - 1 {
        assert Commit(h[i], h[i + 1]);
      }
    }
  }

  class Table {
    var rows: map<int, Watch>
    ghost var history: map<int, seq<Watch>>

    ghost predicate Valid()
      reads this
    {
      && history.Keys == rows.Keys
      && forall id | id in rows ::
           rows[id].id == id && Chain(history[id]) && rows[id] == history[id][|history[id]| - 1]
    }

    /** The copy was read from this table, now or at any earlier time. */
    ghost predicate Genuine(copy: Watch)
      reads this
    {
      copy.id in history && copy in history[copy.id]
    }

    constructor ()
      ensures Valid() && rows == map[]
    {
      rows, history := map[], map[];
    }

    method Read(id: int) returns (copy: Option<Watch>)
      requires Valid()
      ensures copy.Some? <==> id in rows
      ensures copy.Some? ==> copy.value == rows[id] && Genuine(copy.value)
    {
      copy := if id in rows then Some(rows[id]) else None;
    }

    /** `UPDATE .. WHERE id AND status AND state_version`, from a possibly stale copy. */
    method TryTransition(copy: Watch, c: Change) returns (updated: Option<Watch>)
      requires Valid() && Genuine(copy)
      modifies this
      ensures Valid()
      // Success is exactly: the edge is legal and the copy is still current.
      ensures updated.Some? <==> c.to in Allowed(copy.status) && copy == old(rows)[copy.id]
      ensures updated.Some? ==> updated.value == Transitioned(old(rows)[copy.id], c)
      ensures updated.Some? ==> updated.value.id == copy.id && updated.value.stateVersion == copy.stateVersion + 1
      ensures updated.Some? ==> rows == old(rows)[copy.id := updated.value]
      ensures updated.Some? ==> history == old(history)[copy.id := old(history)[copy.id] + [updated.value]]
      ensures updated.None? ==> rows == old(rows) && history == old(history)
    {
      hide Transitioned, Allowed, Chain;
      TransitionedNext(copy, c);
      if c.to !in Allowed(copy.status) {
        return None;
      }
      var row := rows[copy.id];
      if row.status != copy.status || row.stateVersion != copy.stateVersion {
        return None;
      }
      ghost var h := history[copy.id];
      CurrentVersionIsCurrent(h, copy);
      ChainAppend(h, c);
      updated := Some(Transitioned(copy, c));
      rows := rows[copy.id := updated.value];
      history := history[copy.id := h + [updated.value]];
    }
  }

  lemma TransitionedNext(w: Watch, c: Change)
    ensures Transitioned(w, c).id == w.id && Transitioned(w, c).stateVersion == w.stateVersion + 1
  {
  }

  /** No ABA: a copy with the current version is the current row, field by field. */
  lemma CurrentVersionIsCurrent(h: seq<Watch>, copy: Watch)
    requires Chain(h) && copy in h && copy.stateVersion == h[|h| - 1].stateVersion
    ensures copy == h[|h| - 1]
  {
    var i :| 0 <= i < |h| && h[i] == copy;
    OneCommitPerVersion(h, i, |h| - 1);
  }

  datatype Action =
    | ReadRow(worker: int, id: int)
    | Attempt(worker: int, change: Change)

  /** A successful attempt: the watch and the version its worker had read. */
  datatype Win = Win(id: int, version: nat)

  function WinsOf(wins: seq<Win>, id: int): nat {
    if |wins| == 0 then 0
    else WinsOf(wins[..|wins| - 1], id) + (if wins[|wins| - 1].id == id then 1 else 0)
  }

  /** The current rows, and what each worker read last. */
  datatype Scene = Scene(rows: map<int, Watch>, copies: map<int, Watch>)

  /** One action on whole rows: an attempt goes through exactly when the row is still the one read. */
  function Played(sc: Scene, action: Action): Scene {
    match action
    case ReadRow(worker, id) =>
      if id in sc.rows then sc.(copies := sc.copies[worker := sc.rows[id]]) else sc
    case Attempt(worker, change) =>
      if worker !in sc.copies then sc
      else
        var copy := sc.copies[worker];
        if change.to in Allowed(copy.status) && copy.id in sc.rows && sc.rows[copy.id] == copy
        then sc.(rows := sc.rows[copy.id := Transitioned(copy, change)]) else sc
  }

  function PlayedAll(sc: Scene, actions: seq<Action>): Scene {
    if |actions| == 0 then sc else Played(PlayedAll(sc, actions[..|actions| - 1]), actions[|actions| - 1])
  }

  /**
    Any interleaving of workers that read rows and later attempt transitions from what they read.
    Every chain extends the one it started with, no version read wins twice, and each watch's
    version rises by exactly its number of wins. Comparing versions does what comparing rows would.
   */
  method RunWorkers(table: Table, actions: seq<Action>) returns (wins: seq<Win>)
    requires table.Valid()
    modifies table
    ensures table.Valid() && table.rows.Keys == old(table.rows.Keys)
    ensures forall id | id in table.rows :: old(table.history)[id] <= table.history[id]
    ensures forall i, j | 0 <= i < j < |wins| :: wins[i] != wins[j]
    ensures forall id | id in table.rows ::
      table.rows[id].stateVersion == old(table.rows)[id].stateVersion + WinsOf(wins, id)
    ensures table.rows == PlayedAll(Scene(old(table.rows), map[]), actions).rows
  {
    hide Chain, Tally, WinsOf, Played;
    var copies: map<int, Watch> := map[];
    wins := [];
    TallyStart(table.rows);
    for i := 0 to |actions|
      invariant table.Valid() && table.rows.Keys == old(table.rows.Keys)
      invariant forall id | id in table.rows :: old(table.history)[id] <= table.history[id]
      invariant forall w | w in copies :: table.Genuine(copies[w])
      invariant Tally(old(table.rows), table.rows, wins)
      invariant Scene(table.rows, copies) == PlayedAll(Scene(old(table.rows), map[]), actions[..i])
    {
      assert actions[..i + 1][..i] == actions[..i];
      copies, wins := Act(table, copies, actions[i], wins, old(table.rows));
    }
    assert actions[..|actions|] == actions;
    TallyMeans(old(table.rows), table.rows, wins);
  }

  /** One worker reads a row, or attempts a transition from the copy it kept. */
  method Act(table: Table, copies: map<int, Watch>, action: Action, wins: seq<Win>, ghost start: map<int, Watch>)
    returns (copies': map<int, Watch>, wins': seq<Win>)
    requires table.Valid() && (forall w | w in copies :: table.Genuine(copies[w])) && Tally(start, table.rows, wins)
    modifies table
    ensures table.Valid() && table.rows.Keys == old(table.rows.Keys)
    ensures forall id | id in table.rows :: old(table.history)[id] <= table.history[id]
    ensures forall w | w in copies' :: table.Genuine(copies'[w])
    ensures Tally(start, table.rows, wins')
    ensures Scene(table.rows, copies') == Played(Scene(old(table.rows), copies), action)
  {
    hide Chain, Transitioned, Allowed, Tally, WinsOf;
    copies', wins' := copies, wins;
    match action
    case ReadRow(worker, id) =>
      var copy := table.Read(id);
      if copy.Some? {
        copies' := copies[worker := copy.value];
      }
    case Attempt(worker, change) =>
      if worker in copies {
        ghost var before := table.rows;
        var copy := copies[worker];
        var updated := table.TryTransition(copy, change);
        if updated.Some? {
          TallyWin(start, before, wins, updated.value);
          wins' := wins + [Win(copy.id, copy.stateVersion)];
        }
      }
  }

  /** The wins so far account for every version bump between `start` and `now`. */
  ghost predicate Tally(start: map<int, Watch>, now: map<int, Watch>, wins: seq<Win>) {
    && now.Keys == start.Keys
    && (forall w | w in wins :: w.id in now && w.version < now[w.id].stateVersion)
    && (forall j, k | 0 <= j < k < |wins| :: wins[j] != wins[k])
    && (forall id | id in now :: now[id].stateVersion == start[id].stateVersion + WinsOf(wins, id))
  }

  lemma TallyStart(start: map<int, Watch>)
    ensures Tally(start, start, [])
  {
  }

  lemma TallyMeans(start: map<int, Watch>, now: map<int, Watch>, wins: seq<Win>)
    requires Tally(start, now, wins)
    ensures forall i, j | 0 <= i < j < |wins| :: wins[i] != wins[j]
    ensures forall id | id in now :: id in start && now[id].stateVersion == start[id].stateVersion + WinsOf(wins, id)
  {
  }

  lemma TallyWin(start: map<int, Watch>, now: map<int, Watch>, wins: seq<Win>, next: Watch)
    requires Tally(start, now, wins) && next.id in now && next.stateVersion == now[next.id].stateVersion + 1
    ensures Tally(start, now[next.id := next], wins + [Win(next.id, now[next.id].stateVersion)])
  {
    var win := Win(next.id, now[next.id].stateVersion);
    assert win !in wins;
    assert (wins + [win])[..|wins|] == wins;
  }
}
