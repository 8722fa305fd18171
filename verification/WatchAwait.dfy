/**
  What may run while the watch loop awaits: any synchronous calls of the rest of the desk, the
  scanner, the operator and the reconciler, in any order. None of them touches a claim.
 */
module WatchAwait {
  import opened Wrappers
  import opened WatchLifecycle
  import opened WatchLedger
  import opened EntryWatchStore
  import Basics

  datatype Other =
    | CreatePlan(symbol: string, price: real, now: int, ttl: int, freshId: int)
    | FindPlan(symbol: string)
    | ListPlans(now: int)
    | TouchPrice(id: int, price: real)
    | OfferCard(symbol: string)
    | CloseCard(card: nat)
    | ReopenCard(card: nat)
    | OrphanSymbol(symbol: string, refused: set<int>, now: int)

  // ---- An orphaned position ----------------------------------------------------------------------

  /** A WAITING watch of the orphaned symbol, once its mark is accepted. */
  function Struck(w: Watch, ticker: string, refused: set<int>): Watch {
    if w.status == Waiting && Basics.Upper(w.symbol) == ticker && w.id !in refused
    then w.(status := Invalidated, stateVersion := w.stateVersion + 1) else w
  }

  function StruckRows(rows: map<int, Watch>, ticker: string, refused: set<int>): map<int, Watch> {
    map id | id in rows :: Struck(rows[id], ticker, refused)
  }

  lemma StruckIsTransitioned(w: Watch, ticker: string, refused: set<int>, c: Change)
    requires c.to == Invalidated && c.admissionRecord.None? && c.opportunity.None?
    ensures w.status == Waiting && Basics.Upper(w.symbol) == ticker && w.id !in refused ==>
      Struck(w, ticker, refused) == Transitioned(w, c)
    ensures Mild(w, Struck(w, ticker, refused)) && Drifted(w, Struck(w, ticker, refused))
    ensures Struck(w, ticker, refused).id == w.id
  {
  }

  /** Striking, partway: the watches in `done` have been looked at. */
  ghost predicate PartlyStruck(
    start: map<int, Watch>, rows: map<int, Watch>, done: set<int>, ticker: string, refused: set<int>)
  {
    && rows.Keys == start.Keys
    && forall id | id in rows :: rows[id] == if id in done then Struck(start[id], ticker, refused) else start[id]
  }

  lemma PartlyStruckStep(
    start: map<int, Watch>, rows: map<int, Watch>, done: set<int>, ticker: string, refused: set<int>, id: int)
    requires PartlyStruck(start, rows, done, ticker, refused) && id in start && id !in done
    ensures id in rows && rows[id] == start[id]
    ensures PartlyStruck(start, rows[id := Struck(rows[id], ticker, refused)], done + {id}, ticker, refused)
    ensures Struck(rows[id], ticker, refused) == rows[id] ==>
      PartlyStruck(start, rows, done + {id}, ticker, refused)
  {
  }

  lemma PartlyStruckEnd(
    start: map<int, Watch>, rows: map<int, Watch>, done: set<int>, ticker: string, refused: set<int>)
    requires PartlyStruck(start, rows, done, ticker, refused)
    requires forall id | id in start && id !in done :: !Actionable(start[id].status)
    ensures rows == StruckRows(start, ticker, refused)
  {
    assert rows.Keys == StruckRows(start, ticker, refused).Keys;
    forall id | id in rows ensures rows[id] == StruckRows(start, ticker, refused)[id] {}
  }

  function Lapsing(card: Card, ticker: string): Card {
    if card.open && Basics.Upper(card.symbol) == ticker then Closed(card) else card
  }

  /** Every open card of the orphaned symbol expires. */
  method CloseSymbol(s: Store, ticker: string)
    requires s.Valid()
    modifies s`cards
    ensures s.Valid() && BoardGrew(old(s.cards), s.cards)
    ensures |s.cards| == |old(s.cards)|
    ensures forall k | 0 <= k < |s.cards| :: s.cards[k] == Lapsing(old(s.cards)[k], ticker)
  {
    for card := 0 to |s.cards|
      invariant s.Valid() && |s.cards| == |old(s.cards)|
      invariant forall k | 0 <= k < card :: s.cards[k] == Lapsing(old(s.cards)[k], ticker)
      invariant forall k | card <= k < |s.cards| :: s.cards[k] == old(s.cards)[k]
    {
      if s.cards[card].open && Basics.Upper(s.cards[card].symbol) == ticker {
        s.CloseCard(card);
      }
    }
  }

  /** The listed watches of the orphaned symbol that wait are marked INVALIDATED where the database lets them. */
  method StrikeListed(s: Store, ids: seq<int>, ticker: string, refused: set<int>)
    requires s.Valid() && NoDuplicates(ids) && forall id :: id in ids <==> id in s.rows && Actionable(s.rows[id].status)
    modifies s`rows, s`trails, s`order
    ensures s.Valid() && Apart(old(s.Now()), s.Now()) && s.rows == StruckRows(old(s.rows), ticker, refused)
  {
    hide Apart, Safe, Drift, Drifted, Mild, PartlyStruck, Struck, BoardOk, Blamed, Actionable;
    ghost var start := s.rows;
    ghost var done: set<int> := {};
    ApartStay(s.Now());
    PartlyStruckStart(start, ticker, refused);
    for i := 0 to |ids|
      invariant s.Valid() && Apart(old(s.Now()), s.Now())
      invariant PartlyStruck(start, s.rows, done, ticker, refused)
      invariant forall j | 0 <= j < i :: ids[j] in done
      invariant forall j | i <= j < |ids| :: ids[j] !in done
    {
      var id := ids[i];
      assert id in ids;
      PartlyStruckStep(start, s.rows, done, ticker, refused, id);
      StrikeOne(s, id, ticker, refused);
      done := done + {id};
    }
    PartlyStruckEnd(start, s.rows, done, ticker, refused);
  }

  lemma PartlyStruckStart(start: map<int, Watch>, ticker: string, refused: set<int>)
    ensures PartlyStruck(start, start, {}, ticker, refused)
  {
  }

  method StrikeOne(s: Store, id: int, ticker: string, refused: set<int>)
    requires s.Valid() && id in s.rows
    modifies s`rows, s`trails, s`order
    ensures s.Valid() && s.rows == old(s.rows)[id := Struck(old(s.rows)[id], ticker, refused)]
    ensures forall d | Apart(d, old(s.Now())) :: Apart(d, s.Now())
  {
    hide Apart, Safe, Drift, Drifted, Mild, BoardOk, Blamed, Transitioned;
    ghost var before := s.Now();
    var w := s.rows[id];
    var change := Change(Invalidated, 0, "", None, None, None, None);
    StruckIsTransitioned(w, ticker, refused, change);
    if w.status == Waiting && Basics.Upper(w.symbol) == ticker && id !in refused {
      RowDrifts(s.rows, Transitioned(w, change));
      s.Rewrite(Transitioned(w, change));
      SafeIsApart(before, s.Now());
      forall d | Apart(d, before) ensures Apart(d, s.Now()) {
        ApartTrans(d, before, s.Now());
      }
    } else {
      assert s.rows == s.rows[id := w];
    }
  }

  /** The reconciler found a position nobody owns: no card and no waiting watch of its symbol may stand. */
  method Orphan(s: Store, symbol: string, refused: set<int>, now: int)
    requires s.Valid()
    modifies s`rows, s`trails, s`order, s`cards
    ensures s.Valid() && Apart(old(s.Now()), s.Now())
    ensures OpenCard(s.cards, Basics.Upper(symbol)).None?
    ensures s.rows ==
      StruckRows(Lapsed(Collapsed(old(s.rows), old(s.order)), now), Basics.Upper(symbol), refused)
  {
    hide Apart, OnePerSymbol, Collapsed, Lapsed, Drift, Safe, StruckRows, BoardOk, Blamed;
    ghost var start := s.Now();
    CloseSymbol(s, Basics.Upper(symbol));
    Basics.UpperIsIdempotent(symbol);
    BoardIsApart(start, s.cards);
    ghost var closed := s.Now();
    var ids := s.ListActionable(now);
    ghost var listed := s.Now();
    ApartTrans(start, closed, listed);
    StrikeListed(s, ids, Basics.Upper(symbol), refused);
    ApartTrans(start, listed, s.Now());
  }

  // ---- Foreign calls -----------------------------------------------------------------------------

  /** One foreign call: no row changes but by drift, and a touched price disturbs nothing. */
  method Interrupt(s: Store, op: Other)
    requires s.Valid()
    modifies s`rows, s`trails, s`order, s`cards
    ensures s.Valid() && Apart(old(s.Now()), s.Now())
    ensures op.TouchPrice? ==> s.order == old(s.order) && s.cards == old(s.cards) && Still(old(s.rows), s.rows)
  {
    hide Apart, OnePerSymbol, Collapsed, Lapsed, Grew, Level, Drift;
    ApartStay(s.Now());
    match op
    case CreatePlan(symbol, price, now, ttl, freshId) =>
      if freshId !in s.rows {
        var _ := s.CreateFromBundle(symbol, price, now, ttl, freshId);
      }
    case FindPlan(symbol) =>
      var _ := s.FindOpen(symbol);
    case ListPlans(now) =>
      var _ := s.ListActionable(now);
    case TouchPrice(id, price) =>
      var _ := s.TouchMark(id, price);
    case OfferCard(symbol) =>
      BoardIsApart(s.Now(), s.cards + [Card(symbol, true, false)]);
      var _ := s.StoreCard(symbol);
    case CloseCard(card) =>
      if card < |s.cards| {
        BoardIsApart(s.Now(), s.cards[card := Closed(s.cards[card])]);
      }
      s.CloseCard(card);
    case ReopenCard(card) =>
      if card < |s.cards| {
        BoardIsApart(s.Now(), s.cards[card := s.cards[card].(open := true)]);
      }
      s.ReopenCard(card);
    case OrphanSymbol(symbol, refused, now) =>
      Orphan(s, symbol, refused, now);
  }

  /** Nothing but price touches. */
  predicate OnlyTouches(ops: seq<Other>) {
    forall op | op in ops :: op.TouchPrice?
  }

  /** One await of the loop, and everything that runs before it resumes. */
  method Await(s: Store, ops: seq<Other>)
    requires s.Valid()
    modifies s`rows, s`trails, s`order, s`cards
    ensures s.Valid() && Apart(old(s.Now()), s.Now())
    ensures OnlyTouches(ops) ==> s.order == old(s.order) && s.cards == old(s.cards) && Still(old(s.rows), s.rows)
    ensures ops == [] ==> s.Now() == old(s.Now())
  {
    hide Apart;
    ApartStay(s.Now());
    for i := 0 to |ops|
      invariant s.Valid() && Apart(old(s.Now()), s.Now())
      invariant OnlyTouches(ops) ==> s.order == old(s.order) && s.cards == old(s.cards) && Still(old(s.rows), s.rows)
      invariant i == 0 ==> s.Now() == old(s.Now())
    {
      ghost var before := s.Now();
      var op := ops[i];
      assert op in ops;
      Interrupt(s, op);
      ApartTrans(old(s.Now()), before, s.Now());
    }
  }
}
