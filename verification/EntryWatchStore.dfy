/**
  The in-memory EntryWatch store the desk and the watch loop work on, and the BUY cards beside it.
  The SQL compare-and-swap
  behind `Mark` is an oracle: `cas(n)` answers the n-th attempt, whatever the reason for a refusal;
  with persistence off it always answers yes.
 */
module EntryWatchStore {
  import opened Wrappers
  import opened WatchLifecycle
  import opened WatchLedger
  import Basics

  /** Each of these incidents has a refused attempt of its own behind it. */
  ghost predicate Blamed(refusals: map<Issue, nat>, incidents: set<Issue>, attempts: nat, cas: nat -> bool) {
    forall i | i in refusals :: i in incidents && refusals[i] < attempts && !cas(refusals[i])
  }

  /** The first watch in store order with that symbol and one of those statuses. */
  ghost predicate Foremost(rows: map<int, Watch>, order: seq<int>, symbol: string, wanted: set<Status>, id: int) {
    exists i :: 0 <= i < |order| && order[i] == id &&
      forall j | 0 <= j < i && order[j] in rows :: rows[order[j]].symbol != symbol || rows[order[j]].status !in wanted
  }

  class Store {
    const cas: nat -> bool
    const tokens: nat -> string
    var rows: map<int, Watch>
    var order: seq<int>
    var claims: set<Claim>
    var attempts: nat
    var cards: seq<Card>
    ghost var trails: map<int, seq<Status>>
    ghost var issues: set<Issue>
    ghost var incidents: set<Issue>
    /** The incidents due to a refused CONVERTED mark, each with the number of that attempt. */
    ghost var refusals: map<Issue, nat>

    ghost predicate Valid()
      reads this
    {
      && trails.Keys == rows.Keys
      && (forall id :: id in rows <==> id in order) && NoDuplicates(order)
      && (forall id | id in rows :: rows[id].id == id)
      && BoardOk(cards)
      && Blamed(refusals, incidents, attempts, cas)
    }

    /** Every incident is due to a refused CONVERTED mark. */
    ghost predicate AllRefused()
      reads this`incidents, this`refusals
    {
      incidents == refusals.Keys
    }

    ghost function Now(): Desk
      reads this
    {
      Desk(rows, claims, cards, trails, issues, incidents)
    }

    constructor (cas: nat -> bool, tokens: nat -> string)
      ensures Valid() && this.cas == cas && this.tokens == tokens
      ensures rows == map[] && order == [] && attempts == 0
      ensures cards == [] && issues == {} && incidents == {} && refusals == map[]
      ensures Inv(Now()) && Exact(Now())
    {
      this.cas, this.tokens := cas, tokens;
      rows, order, claims, attempts, cards := map[], [], {}, 0, [];
      trails, issues, incidents, refusals := map[], {}, {}, map[];
    }

    // ---- Admission claims ----------------------------------------------------------------------

    method ClaimAdmission(key: Claim) returns (won: bool)
      modifies this`claims
      ensures won <==> key !in old(claims)
      ensures claims == old(claims) + {key}
    {
      if key in claims {
        return false;
      }
      claims := claims + {key};
      return true;
    }

    method ReleaseAdmission(key: Claim) returns (released: bool)
      modifies this`claims
      ensures released <==> key in old(claims)
      ensures claims == old(claims) - {key}
    {
      if key !in claims {
        return false;
      }
      claims := claims - {key};
      return true;
    }

    method ReleaseIfUnpublished(w: Watch) returns (released: bool)
      modifies this`claims
      ensures claims == if w.opportunity.Some? then old(claims) else old(claims) - {ClaimOf(w)}
      ensures released <==> w.opportunity.None? && ClaimOf(w) in old(claims)
    {
      if w.opportunity.Some? {
        return false;
      }
      released := ReleaseAdmission(ClaimOf(w));
    }

    // ---- BUY cards -----------------------------------------------------------------------------

    /** Puts a card on the desk. */
    method StoreCard(symbol: string) returns (card: nat)
      modifies this`cards
      ensures card == |old(cards)| && cards == old(cards) + [Card(symbol, true, false)]
      ensures BoardGrew(old(cards), cards) && (old(BoardOk(cards)) ==> BoardOk(cards))
    {
      card := |cards|;
      cards := cards + [Card(symbol, true, false)];
    }

    /** Approved, skipped, expired or discarded: the card leaves AWAITING_CONFIRMATION. */
    method CloseCard(card: nat)
      modifies this`cards
      ensures cards == if card < |old(cards)| then old(cards)[card := Closed(old(cards)[card])] else old(cards)
      ensures BoardGrew(old(cards), cards) && (old(BoardOk(cards)) ==> BoardOk(cards))
    {
      if card < |cards| {
        cards := cards[card := Closed(cards[card])];
      }
    }

    /** A stuck approval is released: the card awaits confirmation again. */
    method ReopenCard(card: nat)
      modifies this`cards
      ensures cards == if card < |old(cards)| then old(cards)[card := old(cards)[card].(open := true)] else old(cards)
      ensures BoardGrew(old(cards), cards) && (old(BoardOk(cards)) ==> BoardOk(cards))
    {
      if card < |cards| {
        cards := cards[card := cards[card].(open := true)];
      }
    }

    /** Takes down every open card a durable fact rules out. */
    method WithdrawUnactionable(unactionable: set<nat>)
      modifies this`cards
      ensures cards == Withdrawn(old(cards), unactionable)
    {
      for card := 0 to |cards|
        invariant |cards| == |old(cards)|
        invariant forall k | 0 <= k < |cards| ::
          cards[k] == if k < card then Withdrawn(old(cards), unactionable)[k] else old(cards)[k]
      {
        if cards[card].open && card in unactionable {
          CloseCard(card);
        }
      }
    }

    /** The newest card of a symbol that awaits confirmation. */
    method FindOpenCard(symbol: string) returns (found: Option<nat>)
      ensures found == OpenCard(cards, symbol)
    {
      assert cards[..|cards|] == cards;
      for i := |cards| downto 0
        invariant OpenCard(cards, symbol) == OpenCard(cards[..i], symbol)
      {
        assert cards[..i + 1][..i] == cards[..i];
        if cards[i].open && cards[i].symbol == symbol {
          return Some(i);
        }
      }
      return None;
    }

    // ---- Row writes ----------------------------------------------------------------------------

    /** The raw write of one row; it checks nothing. */
    method Update(w: Watch)
      requires Valid()
      modifies this`rows, this`trails, this`order
      ensures Valid() && Now() == Put(old(Now()), w)
      ensures order == if w.id in old(rows) then old(order) else old(order) + [w.id]
    {
      if w.id !in rows {
        order := order + [w.id];
        trails := trails[w.id := [w.status]];
      } else if rows[w.id].status != w.status {
        trails := trails[w.id := trails[w.id] + [w.status]];
      }
      rows := rows[w.id := w];
    }

    ghost function ChangeFor(to: Status, now: int, n: nat, record: Option<int>, opportunity: Option<int>): Change {
      Change(to, now, tokens(n), None, None, record, opportunity)
    }

    /** A compare-and-swap transition of the current row. */
    method Mark(id: int, to: Status, now: int, record: Option<int> := None, opportunity: Option<int> := None)
      returns (updated: Option<Watch>)
      requires Valid()
      modifies this`rows, this`trails, this`order, this`attempts
      ensures Valid() && order == old(order)
      ensures attempts == old(attempts) + if id in old(rows) && to in Allowed(old(rows)[id].status) then 1 else 0
      ensures updated.Some? <==> id in old(rows) && to in Allowed(old(rows)[id].status) && cas(old(attempts))
      ensures updated.Some? ==>
        updated.value == Transitioned(old(rows)[id], ChangeFor(to, now, old(attempts), record, opportunity))
      ensures updated.Some? ==>
        && updated.value.status == to && updated.value.triggerVersion == Bumped(old(rows)[id], to)
        && updated.value.opportunity == (if opportunity.Some? then opportunity else old(rows)[id].opportunity)
        && updated.value.retryAt == old(rows)[id].retryAt && (record.Some? ==> updated.value.admissionRecord == record)
      ensures updated.Some? ==> id in rows && rows[id] == updated.value && Now() == Put(old(Now()), updated.value)
      ensures updated.None? ==> Now() == old(Now())
      // Anything but publishing is a safe step.
      ensures id in old(rows) && Quiet(old(rows)[id], to, opportunity) ==>
        Step(old(Now()), Now(), id) && Safe(old(Now()), Now())
    {
      hide Step, Safe, Mild, Transitioned, Allowed, Quiet;
      ghost var before := Now();
      if id !in rows {
        return None;
      }
      var w := rows[id];
      StepStay(before, id);
      SafeStay(before);
      if to !in Allowed(w.status) {
        return None;
      }
      var change := Change(to, now, tokens(attempts), None, None, record, opportunity);
      var accepted := cas(attempts);
      attempts := attempts + 1;
      if !accepted {
        return None;
      }
      var next := Transitioned(w, change);
      TransitionedId(w, change);
      if Quiet(w, to, opportunity) {
        MarkIsSafe(before, w, change);
      }
      Update(next);
      return Some(next);
    }

    /** The fallback write after a refused mark: the target status, lease dropped. */
    method Force(id: int, to: Status, bump: bool)
      requires Valid() && id in rows && !Leased(to)
      modifies this`rows, this`trails, this`order
      ensures Valid() && order == old(order) && id in rows && rows[id] == Forced(old(rows)[id], to, bump)
      ensures Now() == Put(old(Now()), Forced(old(rows)[id], to, bump))
      ensures to in Allowed(old(rows)[id].status) && Quiet(old(rows)[id], to, None) ==>
        Step(old(Now()), Now(), id) && Safe(old(Now()), Now())
    {
      var next := Forced(rows[id], to, bump);
      if to in Allowed(rows[id].status) && Quiet(rows[id], to, None) {
        ForceIsSafe(Now(), rows[id], to, bump);
      }
      Update(next);
    }

    // ---- Duplicates, expiry and listings -------------------------------------------------------

    /** Keeps one standing watch per symbol, the best one, and invalidates the rest. */
    method CollapseDuplicates()
      requires Valid()
      modifies this`rows, this`trails, this`order
      ensures Valid() && order == old(order)
      ensures rows == Collapsed(old(rows), old(order)) && OnePerSymbol(rows)
      ensures SweptTo(old(rows), old(order), rows)
      ensures Safe(old(Now()), Now())
    {
      hide NoDuplicates, Safe, SweptTo, OnePerSymbol, Collapsed, Duplicates, First, Superseded, BoardOk,
           PartlyCollapsed, Blamed;
      var groups := BySymbol();
      var left := groups.Keys;
      SafeStay(Now());
      ghost var start, wanted := rows, Collapsed(rows, order);
      PartlyCollapsedStart(start, order, left);
      while left != {}
        invariant Valid() && order == old(order) && left <= groups.Keys
        invariant PartlyCollapsed(start, wanted, rows, left)
        invariant Safe(old(Now()), Now())
      {
        ghost var before := Now();
        var symbol :| symbol in left;
        PartlyCollapsedMeans(start, wanted, rows, left, symbol);
        CollapseSymbol(groups[symbol], symbol, start);
        PartlyCollapsedStep(start, wanted, before.rows, rows, left, symbol);
        SafeTrans(old(Now()), before, Now());
        left := left - {symbol};
      }
      PartlyCollapsedEnd(start, wanted, rows);
      CollapsedIsUnique(start, order);
      CollapsedSpelledOut(start, order);
    }

    method CollapseSymbol(ids: seq<int>, symbol: string, ghost start: map<int, Watch>)
      requires Valid() && rows.Keys == start.Keys && |ids| > 0 && ids == Duplicates(start, order, symbol)
      requires forall id | id in rows && start[id].symbol == symbol :: rows[id] == start[id]
      modifies this`rows, this`trails, this`order
      ensures Valid() && order == old(order) && rows.Keys == start.Keys
      ensures forall id | id in rows ::
        rows[id] == if start[id].symbol == symbol then Collapsed(start, order)[id] else old(rows)[id]
      ensures Safe(old(Now()), Now())
    {
      hide NoDuplicates, Safe, Collapsed, First, Superseded;
      CollapsedOf(start, order, symbol);
      CollapseGroup(ids, start);
    }

    method BySymbol() returns (groups: map<string, seq<int>>)
      requires Valid()
      ensures forall s | s in groups :: groups[s] == Duplicates(rows, order, s) && |groups[s]| > 0
      ensures forall s | s !in groups :: Duplicates(rows, order, s) == []
    {
      groups := map[];
      for i := 0 to |order|
        invariant forall s | s in groups :: groups[s] == Duplicates(rows, order[..i], s) && |groups[s]| > 0
        invariant forall s | s !in groups :: Duplicates(rows, order[..i], s) == []
      {
        assert order[..i + 1][..i] == order[..i];
        var id := order[i];
        assert id in order;
        var w := rows[id];
        if Standing(w.status) {
          groups := groups[w.symbol := (if w.symbol in groups then groups[w.symbol] else []) + [w.id]];
        }
      }
      assert order[..|order|] == order;
    }

    /** Sorts the duplicates of one symbol and invalidates all but the first. */
    method CollapseGroup(ids: seq<int>, ghost start: map<int, Watch>)
      requires Valid() && |ids| > 0
      requires forall id | id in ids :: id in rows && Standing(rows[id].status) && id in start && rows[id] == start[id]
      modifies this`rows, this`trails, this`order
      ensures Valid() && order == old(order) && rows.Keys == old(rows.Keys)
      ensures forall id | id in rows ::
        rows[id] == if id in ids && id != First(start, ids) then Superseded(old(rows)[id]) else old(rows)[id]
      ensures Safe(old(Now()), Now())
    {
      hide NoDuplicates, Safe, First, Superseded, Mild, Partly;
      SafeStay(Now());
      var best := FirstOf(ids);
      FirstAgrees(rows, start, ids);
      ghost var before := rows;
      ghost var done: set<int> := {};
      PartlyStart(before, best);
      for i := 0 to |ids|
        invariant Valid() && order == old(order)
        invariant forall id :: id in done ==> id in ids
        invariant forall j | 0 <= j < i :: ids[j] in done
        invariant Partly(before, rows, done, best)
        invariant Safe(old(Now()), Now())
      {
        var id := ids[i];
        assert id in ids;
        PartlyStep(before, rows, done, best, id);
        if id != best {
          ghost var prior := Now();
          Rewrite(Superseded(rows[id]));
          SafeTrans(old(Now()), prior, Now());
        }
        done := done + {id};
      }
      PartlyMeans(before, rows, done, best);
    }

    method Rewrite(w: Watch)
      requires Valid() && w.id in rows && Mild(rows[w.id], w)
      modifies this`rows, this`trails, this`order
      ensures Valid() && order == old(order) && rows == old(rows)[w.id := w]
      ensures Safe(old(Now()), Now())
    {
      PutSafe(Now(), w);
      Update(w);
    }

    method FirstOf(ids: seq<int>) returns (best: int)
      requires |ids| > 0 && forall id | id in ids :: id in rows
      ensures best == First(rows, ids)
    {
      best := ids[0];
      assert ids[..1][..0] == [];
      for i := 1 to |ids|
        invariant best == First(rows, ids[..i])
      {
        assert ids[..i + 1][..i] == ids[..i];
        var id := ids[i];
        assert id in ids;
        if Before(rows[id], rows[best]) {
          best := id;
        }
      }
      assert ids[..|ids|] == ids;
    }

    /** Marks past-TTL WAITING watches EXPIRED. */
    method ExpireStale(now: int)
      requires Valid()
      modifies this`rows, this`trails, this`order
      ensures Valid() && order == old(order)
      ensures rows == Lapsed(old(rows), now)
      ensures Safe(old(Now()), Now())
    {
      hide NoDuplicates, Safe, Expiring, Mild, PartlyLapsed;
      SafeStay(Now());
      ghost var done: set<int> := {};
      ghost var start := rows;
      PartlyLapsedStart(start, now);
      for i := 0 to |order|
        invariant Valid() && order == old(order)
        invariant forall j | 0 <= j < i :: order[j] in done
        invariant PartlyLapsed(start, rows, done, now)
        invariant Safe(old(Now()), Now())
      {
        var id := order[i];
        assert id in order;
        PartlyLapsedStep(start, rows, done, now, id);
        if rows[id].status == Waiting && rows[id].validUntil <= now {
          ghost var before := Now();
          Rewrite(Expiring(rows[id], now));
          SafeTrans(old(Now()), before, Now());
        }
        done := done + {id};
      }
      forall id | id in start ensures id in done {
        assert id in old(order);
      }
      PartlyLapsedMeans(start, rows, done, now);
    }

    /** What every listing does first: one standing watch per symbol, and no overdue WAITING. */
    method Tidy(now: int)
      requires Valid()
      modifies this`rows, this`trails, this`order
      ensures Valid() && order == old(order)
      ensures rows == Lapsed(Collapsed(old(rows), old(order)), now) && OnePerSymbol(rows)
      ensures TidiedTo(old(rows), old(order), now, rows)
      ensures Safe(old(Now()), Now()) && Apart(old(Now()), Now())
    {
      hide Safe, OnePerSymbol, Collapsed, Lapsed, Drift, Apart, TidiedTo, SweptTo, NoDuplicates;
      TidiedSpelledOut(rows, order, now);
      CollapseDuplicates();
      ghost var middle := Now();
      LapsedIsUnique(rows, now);
      ExpireStale(now);
      SafeTrans(old(Now()), middle, Now());
      CollapsedDrifts(old(rows), order);
      LapsedDrifts(middle.rows, now);
      DriftTrans(old(rows), middle.rows, rows);
      SafeIsApart(old(Now()), Now());
    }

    method Actionables() returns (ids: seq<int>)
      requires Valid()
      ensures ids == ActionableIn(rows, order) && NoDuplicates(ids)
      ensures forall id :: id in ids <==> id in rows && Actionable(rows[id].status)
    {
      hide Actionable, BoardOk, Blamed;
      ids := [];
      for i := 0 to |order|
        invariant ids == ActionableIn(rows, order[..i]) && NoDuplicates(ids)
      {
        assert order[..i + 1][..i] == order[..i];
        assert order[..i + 1] == order[..i] + [order[i]];
        var id := order[i];
        assert id in order && id !in order[..i];
        if Actionable(rows[id].status) {
          ids := ids + [id];
        }
      }
      assert order[..|order|] == order;
    }

    /** The watches the background poller must touch, in store order. */
    method ListActionable(now: int) returns (ids: seq<int>)
      requires Valid()
      modifies this`rows, this`trails, this`order
      ensures Valid() && order == old(order)
      ensures rows == Lapsed(Collapsed(old(rows), old(order)), now) && OnePerSymbol(rows)
      ensures TidiedTo(old(rows), old(order), now, rows)
      ensures ids == ActionableIn(rows, order) && NoDuplicates(ids)
      ensures forall id :: id in ids <==> id in rows && Actionable(rows[id].status)
      ensures Safe(old(Now()), Now()) && Apart(old(Now()), Now())
    {
      hide Safe, OnePerSymbol, Collapsed, Lapsed, Drift, Apart, Actionable, BoardOk, Blamed, TidiedTo;
      Tidy(now);
      ids := Actionables();
    }

    /** An open watch of a symbol, if there is one, after duplicates are collapsed. */
    method FindOpen(symbol: string) returns (found: Option<Watch>)
      requires Valid()
      modifies this`rows, this`trails, this`order
      ensures Valid() && order == old(order) && rows == Collapsed(old(rows), old(order)) && OnePerSymbol(rows)
      ensures found.Some? ==> found.value.id in rows && rows[found.value.id] == found.value
      ensures found.Some? ==> found.value.symbol == Basics.Upper(symbol) && Open(found.value.status)
      ensures SweptTo(old(rows), old(order), rows)
      ensures found.None? ==>
        forall id | id in rows :: rows[id].symbol == Basics.Upper(symbol) ==> !Open(rows[id].status)
      ensures Apart(old(Now()), Now())
    {
      hide Safe, OnePerSymbol, Collapsed, Drift, Apart, SweptTo;
      CollapseDuplicates();
      CollapsedDrifts(old(rows), order);
      SafeIsApart(old(Now()), Now());
      var ticker := Basics.Upper(symbol);
      for i := 0 to |order|
        invariant forall id | id in rows && id in order[..i] :: rows[id].symbol == ticker ==> !Open(rows[id].status)
      {
        assert order[..i + 1] == order[..i] + [order[i]];
        var id := order[i];
        assert id in order;
        if rows[id].symbol == ticker && Open(rows[id].status) {
          return Some(rows[id]);
        }
      }
      assert order[..|order|] == order;
      return None;
    }

    /**
      Creates or refreshes the single open WAIT plan of a symbol. A watch already TRIGGERED or
      REVALIDATING is returned untouched; a WAITING one gets the new deadline; otherwise `fresh` is
      the identity drawn for a new row.
     */
    method CreateFromBundle(candidate: string, price: real, now: int, ttl: int, freshId: int) returns (w: Watch)
      requires Valid() && freshId !in rows
      modifies this`rows, this`trails, this`order
      ensures Valid() && w.symbol == Basics.Upper(candidate) && w.id in rows && rows[w.id] == w
      ensures OnePerSymbol(rows)
      ensures var symbol := Basics.Upper(candidate);
              var tidy := Lapsed(Collapsed(old(rows), old(order)), now);
              if w.id == freshId then
                && w == NewWatch(freshId, symbol, price, now, ttl) && rows == tidy[freshId := w]
                && (forall id | id in tidy :: tidy[id].symbol == symbol ==>
                      tidy[id].status !in {Waiting, Triggered, Revalidating})
              else
                && w.id in tidy && rows == tidy[w.id := w]
                && (if tidy[w.id].status == Waiting then w == Refreshed(tidy[w.id], price, now, ttl)
                    else w == tidy[w.id] && w.status in {Triggered, Revalidating})
      ensures w.status != Waiting ==>
        Foremost(rows, old(order), Basics.Upper(candidate), {Triggered, Revalidating}, w.id)
      // The two kinds of plan written out.
      ensures w.id == freshId ==> Planned(w, freshId, Basics.Upper(candidate), price, now, ttl)
      ensures w.id != freshId ==>
        w.id in old(rows) &&
        (w.status == Waiting ==> PlanRenewed(Tidied(old(rows), old(order), now, w.id), w, price, now, ttl)) &&
        (w.status != Waiting ==> w == Tidied(old(rows), old(order), now, w.id))
      ensures forall id | id in old(rows) && id != w.id ::
        id in rows && rows[id] == Tidied(old(rows), old(order), now, id)
      ensures Apart(old(Now()), Now())
    {
      hide OnePerSymbol, Collapsed, Lapsed, Safe, Apart, Mild, Tidied, Grew, Level, Drift, Drifted;
      hide Planned, PlanRenewed, Foremost;
      PlansMean(freshId, Basics.Upper(candidate), price, now, ttl);
      ghost var start := Now();
      Tidy(now);
      ghost var tidy := rows;
      ghost var middle := Now();
      var symbol := Basics.Upper(candidate);
      var live := FirstWith(symbol, {Triggered, Revalidating});
      if live.Some? {
        assert rows == tidy[live.value.id := live.value];
        return live.value;
      }
      var waiting := FirstWith(symbol, {Waiting});
      if waiting.Some? {
        w := Refreshed(waiting.value, price, now, ttl);
        RefreshIsMild(waiting.value, price, now, ttl);
        RefreshUnique(rows, w);
        RowDrifts(rows, w);
        Rewrite(w);
        SafeIsApart(middle, Now());
      } else {
        w := NewWatch(freshId, symbol, price, now, ttl);
        CreateIsApart(middle, w);
        NewIsUnique(rows, w);
        Update(w);
      }
      ApartTrans(start, middle, Now());
    }

    method FirstWith(symbol: string, wanted: set<Status>) returns (found: Option<Watch>)
      requires Valid()
      ensures found.Some? ==> found.value.id in rows && rows[found.value.id] == found.value &&
                              found.value.symbol == symbol && found.value.status in wanted
      ensures found.None? ==> forall id | id in rows :: rows[id].symbol == symbol ==> rows[id].status !in wanted
      ensures found.Some? ==> Foremost(rows, order, symbol, wanted, found.value.id)
    {
      for i := 0 to |order|
        invariant forall id | id in rows && id in order[..i] :: rows[id].symbol == symbol ==> rows[id].status !in wanted
      {
        assert order[..i + 1] == order[..i] + [order[i]];
        var id := order[i];
        assert id in order;
        if rows[id].symbol == symbol && rows[id].status in wanted {
          assert order[i] == id && forall j | 0 <= j < i :: order[j] in order[..i];
          return Some(rows[id]);
        }
      }
      assert order[..|order|] == order;
      return None;
    }

    /** Mark-to-market: the last price only. */
    method TouchMark(id: int, price: real) returns (updated: Option<Watch>)
      requires Valid()
      modifies this`rows, this`trails, this`order
      ensures Valid() && order == old(order)
      ensures updated.Some? <==> id in old(rows)
      ensures rows == if id in old(rows) then old(rows)[id := old(rows)[id].(lastPrice := Some(price))] else old(rows)
      ensures Apart(old(Now()), Now())
    {
      hide Safe, Apart, Drift;
      ApartStay(Now());
      if id !in rows {
        return None;
      }
      RowDrifts(rows, rows[id].(lastPrice := Some(price)));
      Rewrite(rows[id].(lastPrice := Some(price)));
      SafeIsApart(old(Now()), Now());
      return Some(rows[id]);
    }
  }

  /** Collapsing, partway: the symbols in `left` are still to be looked at. */
  ghost predicate PartlyCollapsed(
    start: map<int, Watch>, wanted: map<int, Watch>, rows: map<int, Watch>, left: set<string>)
  {
    && rows.Keys == start.Keys && wanted.Keys == start.Keys
    && forall id | id in rows :: rows[id] == if start[id].symbol in left then start[id] else wanted[id]
  }

  lemma PartlyCollapsedStart(start: map<int, Watch>, order: seq<int>, left: set<string>)
    requires forall id | id in start :: id in order
    requires forall symbol | symbol !in left :: Duplicates(start, order, symbol) == []
    ensures PartlyCollapsed(start, Collapsed(start, order), start, left)
  {
    hide Collapsed, Duplicates, First, Superseded;
    forall id | id in start && start[id].symbol !in left ensures Collapsed(start, order)[id] == start[id] {
      CollapsedOf(start, order, start[id].symbol);
    }
  }

  lemma PartlyCollapsedMeans(
    start: map<int, Watch>, wanted: map<int, Watch>, rows: map<int, Watch>, left: set<string>, symbol: string)
    requires PartlyCollapsed(start, wanted, rows, left) && symbol in left
    ensures rows.Keys == start.Keys && forall id | id in rows && start[id].symbol == symbol :: rows[id] == start[id]
  {
  }

  lemma PartlyCollapsedStep(
    start: map<int, Watch>, wanted: map<int, Watch>, rows: map<int, Watch>, rows': map<int, Watch>, left: set<string>,
    symbol: string)
    requires PartlyCollapsed(start, wanted, rows, left) && symbol in left && rows'.Keys == start.Keys
    requires forall id | id in rows' :: rows'[id] == if start[id].symbol == symbol then wanted[id] else rows[id]
    ensures PartlyCollapsed(start, wanted, rows', left - {symbol})
  {
  }

  lemma PartlyCollapsedEnd(start: map<int, Watch>, wanted: map<int, Watch>, rows: map<int, Watch>)
    requires PartlyCollapsed(start, wanted, rows, {})
    ensures rows == wanted
  {
    forall id | id in rows ensures rows[id] == wanted[id] {}
  }

  /** A card that no longer awaits confirmation. */
  function Closed(card: Card): Card {
    card.(open := false, left := true)
  }

  /** The cards after the sweep of unactionable ones. */
  function Withdrawn(cards: seq<Card>, unactionable: set<nat>): (after: seq<Card>)
    ensures |after| == |cards| && BoardGrew(cards, after)
    ensures BoardOk(cards) ==> BoardOk(after)
  {
    seq(|cards|, k requires 0 <= k < |cards| =>
      if cards[k].open && k in unactionable then Closed(cards[k]) else cards[k])
  }

  lemma CreateIsApart(d: Desk, w: Watch)
    requires w.id !in d.rows && w.id !in d.trails && w.status == Waiting && LeaseOk(w) && w.opportunity.None?
    ensures Apart(d, Put(d, w))
  {
    hide Grew, Level, Drift;
    CreateKeeps(d, w);
    RowDrifts(d.rows, w);
  }

  function NewWatch(id: int, symbol: string, price: real, now: int, ttl: int): Watch {
    Watch(id, symbol, now, now + ttl, Waiting, 0, 0, None, None, None, None, None, None, None, None, Some(price))
  }

  function Refreshed(w: Watch, price: real, now: int, ttl: int): Watch {
    w.(validUntil := now + ttl, lastPrice := Some(price))
  }

  /** A plan as first written down: it runs for ttl from now, with no trigger, lease or card to its name. */
  predicate Planned(w: Watch, id: int, symbol: string, price: real, now: int, ttl: int) {
    && w.id == id && w.symbol == symbol && w.status == Waiting && w.stateVersion == 0 && w.triggerVersion == 0
    && w.createdAt == now && w.validUntil - now == ttl && w.lastPrice == Some(price)
    && w.claimedAt.None? && w.claimToken.None? && w.claimOwner.None? && w.leaseExpiresAt.None?
    && w.triggeredAt.None? && w.admissionRecord.None? && w.opportunity.None? && w.retryAt.None?
  }

  /** A standing plan seen again: it runs for another ttl at the new price, and nothing else of it changes. */
  predicate PlanRenewed(w: Watch, r: Watch, price: real, now: int, ttl: int) {
    r.validUntil - now == ttl && r.lastPrice == Some(price) &&
    r.(validUntil := w.validUntil, lastPrice := w.lastPrice) == w
  }

  lemma PlansMean(id: int, symbol: string, price: real, now: int, ttl: int)
    ensures Planned(NewWatch(id, symbol, price, now, ttl), id, symbol, price, now, ttl)
    ensures forall w: Watch :: PlanRenewed(w, Refreshed(w, price, now, ttl), price, now, ttl)
  {
  }

  lemma RefreshIsMild(w: Watch, price: real, now: int, ttl: int)
    ensures Mild(w, Refreshed(w, price, now, ttl))
    ensures w.status == Waiting ==> Drifted(w, Refreshed(w, price, now, ttl))
  {
  }

  lemma RefreshUnique(rows: map<int, Watch>, w: Watch)
    requires OnePerSymbol(rows) && w.id in rows && w.symbol == rows[w.id].symbol && w.status == rows[w.id].status
    ensures OnePerSymbol(rows[w.id := w])
  {
  }

  lemma NewIsUnique(rows: map<int, Watch>, w: Watch)
    requires OnePerSymbol(rows) && w.id !in rows
    requires forall id | id in rows :: rows[id].symbol == w.symbol ==> !Standing(rows[id].status)
    ensures OnePerSymbol(rows[w.id := w])
  {
  }

  /** A transition that publishes nothing new. */
  predicate Quiet(w: Watch, to: Status, opportunity: Option<int>) {
    (to != Converted && opportunity == None) || (w.opportunity.Some? && w.status != Converted)
  }

  /** A trigger is counted only when a WAITING watch becomes TRIGGERED. */
  function Bumped(w: Watch, to: Status): nat {
    if w.status == Waiting && to == Triggered then w.triggerVersion + 1 else w.triggerVersion
  }

  lemma TransitionedId(w: Watch, c: Change)
    ensures var next := Transitioned(w, c);
            && next.id == w.id && next.status == c.to && next.triggerVersion == Bumped(w, c.to)
            && next.retryAt == w.retryAt
            && next.admissionRecord == (if c.admissionRecord.Some? then c.admissionRecord else w.admissionRecord)
            && next.opportunity == (if c.opportunity.Some? then c.opportunity else w.opportunity)
  {
  }

  lemma MarkIsSafe(d: Desk, w: Watch, c: Change)
    requires w.id in d.rows && w.id in d.trails && d.rows[w.id] == w
    requires c.to in Allowed(w.status) && Quiet(w, c.to, c.opportunity)
    ensures Step(d, Put(d, Transitioned(w, c)), w.id) && Safe(d, Put(d, Transitioned(w, c)))
  {
    if c.to != Converted && c.opportunity == None {
      PutStep(d, Transitioned(w, c));
    } else {
      PutFinish(d, Transitioned(w, c));
    }
    StepIsSafe(d, Put(d, Transitioned(w, c)), w.id);
  }

  lemma ForceIsSafe(d: Desk, w: Watch, to: Status, bump: bool)
    requires w.id in d.rows && w.id in d.trails && d.rows[w.id] == w
    requires to in Allowed(w.status) && !Leased(to) && Quiet(w, to, None)
    ensures Step(d, Put(d, Forced(w, to, bump)), w.id) && Safe(d, Put(d, Forced(w, to, bump)))
  {
    if to != Converted {
      PutStep(d, Forced(w, to, bump));
    } else {
      PutFinish(d, Forced(w, to, bump));
    }
    StepIsSafe(d, Put(d, Forced(w, to, bump)), w.id);
  }

  /** The row with another status and without a lease, and no other change: not even a new version. */
  predicate Restated(w: Watch, r: Watch, to: Status) {
    && r.status == to
    && r.claimedAt.None? && r.claimToken.None? && r.claimOwner.None? && r.leaseExpiresAt.None?
    && w == r.(status := w.status, claimedAt := w.claimedAt, claimToken := w.claimToken, claimOwner := w.claimOwner,
               leaseExpiresAt := w.leaseExpiresAt)
  }

  /** What the plain write after a refused mark writes; recovery also counts a version. */
  lemma ForcedMeans(w: Watch, to: Status)
    ensures Restated(w, Forced(w, to, false), to)
    ensures Restated(w.(stateVersion := w.stateVersion + 1), Forced(w, to, true), to)
  {
  }

  function Forced(w: Watch, to: Status, bump: bool): Watch {
    Unleased(w).(status := to, stateVersion := if bump then w.stateVersion + 1 else w.stateVersion)
  }
}
