/**
  Whole runs of the watch desk, from an empty store: passes of the loop and calls of the rest of the
  desk, in any order and at every await of a pass, against any answers of the compare-and-swap.
 */
module WatchRuns {
  import opened Wrappers
  import opened WatchLifecycle
  import opened WatchLedger
  import opened EntryWatchStore
  import opened WatchAwait
  import opened WatchRevalidation
  import opened WatchRecovery
  import opened WatchPublication
  import opened WatchLoop

  datatype Op =
    | Elsewhere(other: Other)
    | Recover(now: int)
    | Pass(marking: seq<Other>, facts: int -> Facts, now: int)

  /** No publication of the operation raises once its card is stored. */
  ghost predicate Unbotched(op: Op) {
    op.Pass? ==> forall id :: !Botched(op.facts(id).attempt)
  }

  method Apply(s: Store, op: Op)
    requires s.Valid()
    modifies s
    ensures s.Valid() && Onward(old(s.Now()), s.Now())
    ensures AllCas(s) && Unbotched(op) ==> s.incidents == old(s.incidents)
    ensures Unbotched(op) && old(s.AllRefused()) ==> s.AllRefused()
  {
    hide Kept, Apart, Onward, Collapsed, Lapsed, Recovered, LeaseExpired, AllCas, Botched, PassResult;
    ghost var start := s.Now();
    match op
    case Elsewhere(other) =>
      Interrupt(s, other);
      ApartIsOnward(start, s.Now());
    case Recover(now) =>
      RecoverStaleLeases(s, now);
      KeptIsOnward(start, s.Now());
      KeptBooks(start, s.Now());
    case Pass(marking, facts, now) =>
      RunWatchPass(s, marking, facts, now);
  }

  /**
    Every run keeps both invariants. Every status write of the run is an edge of the table, between
    passes the claims held are exactly those of the watches that carry an opportunity, and every card
    the loop stored is carried by its watch or is an incident. Incidents need a refused mark or a
    publication that raised once its card was stored.
   */
  method Run(cas: nat -> bool, tokens: nat -> string, ops: seq<Op>) returns (s: Store)
    ensures s.Valid() && s.cas == cas && Inv(s.Now()) && Exact(s.Now())
    ensures AllCas(s) && (forall op | op in ops :: Unbotched(op)) ==> s.incidents == {}
    ensures (forall op | op in ops :: Unbotched(op)) ==> s.incidents == s.refusals.Keys
    ensures forall i | i in s.refusals :: !cas(s.refusals[i])
  {
    hide Onward, AllCas, Inv, Exact, Unbotched;
    s := new Store(cas, tokens);
    ghost var empty := s.Now();
    OnwardStay(empty);
    for i := 0 to |ops|
      invariant fresh(s) && s.Valid() && s.cas == cas && Onward(empty, s.Now())
      invariant AllCas(s) && (forall op | op in ops :: Unbotched(op)) ==> s.incidents == {}
      invariant (forall op | op in ops :: Unbotched(op)) ==> s.AllRefused()
    {
      ghost var before := s.Now();
      var op := ops[i];
      assert op in ops;
      Apply(s, op);
      OnwardTrans(empty, before, s.Now());
    }
    OnwardMeans(empty, s.Now());
  }

  /**
    Of two cards stored for one watch, whatever the triggers, the earlier has left
    AWAITING_CONFIRMATION and is an incident: its publication raised once it was stored, or its
    CONVERTED mark was refused.
   */
  lemma PublishedAtMostOnce(d: Desk, i: Issue, j: Issue)
    requires Exact(d) && i in d.issues && j in d.issues && i.claim.id == j.claim.id && i.card <= j.card
    ensures i == j || (i.card < j.card && i in d.incidents && d.cards[i.card].left)
  {
    assert Issued(d.rows, d.cards, i) && Issued(d.rows, d.cards, j);
  }

  /** A card without incident is the one its CONVERTED watch carries, and its claim is held for good. */
  lemma StoredIsCarried(d: Desk, i: Issue)
    requires Exact(d) && i in d.issues && i !in d.incidents
    ensures i.claim.id in d.rows && d.rows[i.claim.id].status == Converted
    ensures d.rows[i.claim.id].opportunity == Some(i.card) && i.claim in d.claims
    ensures forall j | j in d.issues && j !in d.incidents && j.claim.id == i.claim.id :: j == i
  {
    assert Carried(d.rows, i);
    assert Earned(d.rows, i.claim);
    forall j | j in d.issues && j !in d.incidents && j.claim.id == i.claim.id ensures j == i {
      if i.card <= j.card {
        PublishedAtMostOnce(d, i, j);
      } else {
        PublishedAtMostOnce(d, j, i);
      }
    }
  }

  /** A card beside an earlier one of the same watch. */
  ghost predicate Repeats(d: Desk, d': Desk, id: int) {
    exists i, j ::
      i in d'.issues && j in d'.issues && j !in d.issues && i != j && i.claim.id == id && j.claim.id == id
  }

  /**
    Exactly when one undisturbed attempt stores a further card for its watch: the watch has an
    incident behind it, and the attempt reaches a card to store while its symbol has none open.
   */
  lemma RepeatsExactly(d: Desk, d': Desk, id: int, a: Attempt, stored: Option<nat>, accepted: bool)
    requires Exact(d) && id in d.rows && d.rows[id].status != Converted
    requires AsPlanned(d, d', id, a, stored, accepted) && Issuing(d, d', id, stored)
    ensures Repeats(d, d', id) <==>
      Stores(a, d.cards, d.rows[id].symbol) && exists i :: i in d.issues && i in d.incidents && i.claim.id == id
  {
    hide StillBut, Stores, AttemptBoard, AttemptTarget, AttemptCard;
    ExactMeansFree(d, id);
    forall i | i in d.issues && i.claim.id == id ensures i in d.incidents {
      assert !Carried(d.rows, i);
    }
    if stored.Some? {
      var j := Issue(ClaimOf(d.rows[id]), stored.value);
      assert j in d'.issues && j !in d.issues;
    }
  }

  /** A CONVERTED watch was revalidated after it was last TRIGGERED; leases are 45 seconds and only where due. */
  lemma ReachableRow(d: Desk, id: int)
    requires Inv(d) && id in d.rows
    ensures var w := d.rows[id];
            if w.status in {Revalidating, Converting}
            then w.claimToken.Some? && w.claimOwner.Some? && w.claimedAt.Some? &&
                 w.leaseExpiresAt == Some(w.claimedAt.value + 45_000_000)
            else w.claimToken.None? && w.claimOwner.None? && w.claimedAt.None? && w.leaseExpiresAt.None?
    ensures Legal(d.trails[id]) && forall i | 0 <= i < |d.trails[id]| - 1 :: !Terminal(d.trails[id][i])
    ensures d.rows[id].status == Converted ==>
      exists k: nat ::
        && 0 < k && k + 1 < |d.trails[id]|
        && d.trails[id][k - 1] == Triggered && d.trails[id][k] == Revalidating && d.trails[id][k + 1] == Admitted
        && Triggered !in d.trails[id][k + 1..]
  {
    assert RowOk(id, d.rows[id], d.trails[id]);
    forall i | 0 <= i < |d.trails[id]| - 1 ensures !Terminal(d.trails[id][i]) {
      TerminalAbsorbs(d.trails[id], i);
    }
    if d.rows[id].status == Converted {
      var k := ConvertedWasRevalidated(d.trails[id]);
      assert Triggered !in d.trails[id][k + 1..];
    }
  }

  // ---- The exceptions are real -----------------------------------------------------------------

  /** A new desk, its first watch triggered. */
  method OneTriggered(cas: nat -> bool) returns (s: Store)
    requires cas(0)
    ensures fresh(s) && s.Valid() && s.cas == cas && s.attempts == 1 && s.claims == {}
    ensures s.cards == [] && s.issues == {} && s.incidents == {}
    ensures 1 in s.rows && s.rows[1].status == Triggered && s.rows[1].opportunity.None?
    ensures ClaimOf(s.rows[1]) == Claim(1, 1) && s.rows[1].symbol == "ACME"
  {
    hide Step, Safe, Apart, OnePerSymbol, Collapsed, Transitioned, Tidied, Planned, PlanRenewed, Foremost;
    s := new Store(cas, n => "token");
    var w := s.CreateFromBundle("ACME", 10.0, 0, 100, 1);
    assert w.id == 1;
    assert w.symbol == "ACME";
    ghost var created := s.Now();
    var _ := s.Mark(1, Triggered, 0);
    StepMeans(created, s.Now(), 1);
  }

  const QUIET: Gaps := Gaps([], [], [], [])

  /** TRIGGERED to ADMITTED, both marks accepted. */
  method Admit(s: Store, id: int)
    requires s.Valid() && id in s.rows && s.rows[id].status == Triggered
    requires s.cas(s.attempts) && s.cas(s.attempts + 1)
    modifies s`rows, s`trails, s`order, s`attempts
    ensures s.Valid() && id in s.rows && s.rows[id].status == Admitted && s.attempts == old(s.attempts) + 2
    ensures ClaimOf(s.rows[id]) == ClaimOf(old(s.rows)[id]) && s.rows[id].symbol == old(s.rows)[id].symbol
    ensures s.rows[id].opportunity == old(s.rows)[id].opportunity
  {
    hide Step;
    ghost var start := s.Now();
    var _ := TryMark(s, id, Revalidating, 0);
    StepMeans(start, s.Now(), id);
    ghost var leased := s.Now();
    var _ := TryMark(s, id, Admitted, 0);
    StepMeans(leased, s.Now(), id);
  }

  /** From TRIGGERED to the end of a publication that nothing disturbs. */
  method PublishTriggered(s: Store, id: int, raises: bool) returns (stored: Option<nat>)
    requires s.Valid() && id in s.rows && s.rows[id].status == Triggered && s.rows[id].opportunity.None?
    requires ClaimOf(s.rows[id]) !in s.claims
    requires s.cas(s.attempts) && s.cas(s.attempts + 1) && s.cas(s.attempts + 2)
    modifies s
    ensures s.Valid() && id in s.rows && ClaimOf(s.rows[id]) == ClaimOf(old(s.rows)[id])
    ensures s.rows[id].symbol == old(s.rows)[id].symbol && Issuing(old(s.Now()), s.Now(), id, stored)
    ensures var a := Publishes({}, CardStored(raises));
            var (cards, symbol) := (old(s.cards), old(s.rows)[id].symbol);
            && stored == (if Stores(a, cards, symbol) then Some(|cards|) else None)
            && s.cards == AttemptBoard(a, cards, symbol)
            && (AllCas(s) && stored.None? ==>
                  && s.rows[id].status == AttemptTarget(a, cards, symbol)
                  && s.rows[id].opportunity == AttemptCard(a, cards, symbol))
    ensures stored.Some? ==>
      var converts := !raises && s.cas(old(s.attempts) + 3);
      && s.rows[id].status == (if converts then Converted else Converting)
      && s.attempts == old(s.attempts) + (if raises then 3 else 4)
      && (!converts ==> s.rows[id].opportunity.None? && s.claims == old(s.claims))
  {
    hide Move, OpenCard, Withdrawn, AllCas, Stores, AttemptBoard, AttemptTarget, AttemptCard, Aside, StillBut;
    Admit(s, id);
    ghost var admitted := s.Now();
    stored := AttemptConversion(s, id, Publishes({}, CardStored(raises)), QUIET, 0);
    MoveSymbol(admitted, s.Now(), id);
  }

  lemma MoveSymbol(d: Desk, d': Desk, id: int)
    requires Move(d, d', id)
    ensures id in d.rows && id in d'.rows && d'.rows[id].symbol == d.rows[id].symbol
  {
    hide Onward, Drifted;
  }

  /** With no card of the symbol open, one is stored. */
  lemma StoresOnEmpty(raises: bool)
    ensures var a := Publishes({}, CardStored(raises));
            Stores(a, [], "ACME") && AttemptBoard(a, [], "ACME") == [Card("ACME", true, false)]
  {
    assert Withdrawn([], {}) == [];
  }

  /** The first card once it left AWAITING_CONFIRMATION: a second one is stored. */
  lemma StoresOnClosed(raises: bool)
    ensures var a := Publishes({}, CardStored(raises));
            var closed := [Closed(Card("ACME", true, false))];
            Stores(a, closed, "ACME") && AttemptBoard(a, closed, "ACME") == closed + [Card("ACME", true, false)]
  {
    var closed := [Closed(Card("ACME", true, false))];
    assert Withdrawn(closed, {}) == closed;
    assert closed[..0] == [];
  }

  /** The first card still open: it is adopted. */
  lemma AdoptsOpen(raises: bool)
    ensures var a := Publishes({}, CardStored(raises));
            var cards := [Card("ACME", true, false)];
            && !Stores(a, cards, "ACME") && AttemptBoard(a, cards, "ACME") == cards
            && AttemptCard(a, cards, "ACME") == Some(0) && AttemptTarget(a, cards, "ACME") == Converted
  {
    var cards := [Card("ACME", true, false)];
    assert Withdrawn(cards, {}) == cards;
  }

  /** A card was stored and its attempt went wrong: TRIGGERED again, its claim free, its card forgotten. */
  method StoredAndForgotten(raises: bool) returns (s: Store)
    ensures fresh(s) && s.Valid() && s.cards == [Card("ACME", true, false)] && s.claims == {}
    ensures s.issues == s.incidents == {Issue(Claim(1, 1), 0)}
    ensures if raises then AllCas(s) else s.attempts > 4 && forall n | n > 4 :: s.cas(n)
    ensures 1 in s.rows && s.rows[1].status == Triggered && s.rows[1].opportunity.None?
    ensures ClaimOf(s.rows[1]) == Claim(1, 1) && s.rows[1].symbol == "ACME"
  {
    hide Step, ClaimOf, Stores, AttemptBoard, AttemptTarget, AttemptCard;
    s := OneTriggered(n => raises || n != 4);
    StoresOnEmpty(raises);
    var _ := PublishTriggered(s, 1, raises);
    ghost var published := s.Now();
    DeferToRecovery(s, 1, 0);
    StepMeans(published, s.Now(), 1);
    assert s.claims == {};
  }

  /**
    Exactly once does depend on the CONVERTED mark, and on the steps behind a stored card. Refuse
    that one mark, or let one of those steps raise with every mark accepted: once the first card has
    left AWAITING_CONFIRMATION, the same trigger of the same watch stores a second one.
   */
  method SameTriggerStoresTwice(raises: bool) returns (s: Store)
    ensures s.Valid() && (raises ==> AllCas(s))
    ensures s.issues == {Issue(Claim(1, 1), 0), Issue(Claim(1, 1), 1)} && s.incidents == {Issue(Claim(1, 1), 0)}
    ensures 1 in s.rows && s.rows[1].status == Converted && ClaimOf(s.rows[1]) == Claim(1, 1)
  {
    hide ClaimOf, Stores, AttemptBoard, AttemptTarget, AttemptCard;
    s := StoredAndForgotten(raises);
    s.CloseCard(0);
    assert s.cards == [Closed(Card("ACME", true, false))];
    StoresOnClosed(false);
    var _ := PublishTriggered(s, 1, false);
  }

  /** While the first card is still open it is adopted, and no second one is stored. */
  method SameTriggerAdopts() returns (s: Store)
    ensures s.Valid() && AllCas(s) && s.issues == s.incidents == {Issue(Claim(1, 1), 0)}
    ensures 1 in s.rows && s.rows[1].status == Converted && s.rows[1].opportunity == Some(0)
  {
    hide ClaimOf, Stores, AttemptBoard, AttemptTarget, AttemptCard;
    s := StoredAndForgotten(true);
    AdoptsOpen(false);
    var _ := PublishTriggered(s, 1, false);
  }
}
