/**
  Passes of the watch loop: one turn per actionable watch, with other parts of the desk running at
  every await. Facts about prices, market, risk and publishing are parameters.
 */
module WatchLoop {
  import opened Wrappers
  import opened WatchLifecycle
  import opened WatchLedger
  import opened EntryWatchStore
  import opened WatchAwait
  import opened WatchRevalidation
  import opened WatchRecovery
  import opened WatchPublication

  // ---- Facts -----------------------------------------------------------------------------------

  datatype H1Bars = Enough | Short | FeedRaises

  /** The price of a turn: known, missing, or its read raises. */
  datatype Price = Priced(value: real) | NoPrice | ReadRaises

  /** What else runs at the awaits of a turn. */
  datatype Pauses = Pauses(price: seq<Other>, desk: seq<Other>, bars: seq<Other>, market: seq<Other>, gaps: Gaps)

  /** What the outside world says about one watch during one pass. */
  datatype Facts = Facts(
    now: int, price: Price, stale: bool, look: Look, bars: H1Bars, book: bool, refreshed: bool, assessed: bool,
    verdict: Verdict, crash: Crash, attempt: Attempt, pauses: Pauses)

  /** Nothing but price touches runs during the turn. */
  predicate Alone(p: Pauses) {
    OnlyTouches(p.price) && OnlyTouches(p.desk) && OnlyTouches(p.bars) && OnlyTouches(p.market) && Undisturbed(p.gaps)
  }

  /** The loop's exceptions that can leave a lease where it is. */
  predicate Raises(f: Facts) {
    f.price.ReadRaises? || Raising(f.attempt)
  }

  // ---- Where turns end -------------------------------------------------------------------------

  /** An operational block whose retry is not due yet. */
  predicate Retrying(w: Watch, now: int) {
    w.status == BlockedOperational && w.retryAt.Some? && w.retryAt.value > now
  }

  /** A TRIGGERED watch whose turn gets as far as a conversion. */
  predicate Buys(f: Facts) {
    f.bars == Enough && f.book && f.refreshed && f.assessed && f.crash == Never && f.verdict.BuyAllowed?
        && f.verdict.built
  }

  /** Where its turn leaves a TRIGGERED watch when nothing disturbs it and no mark is refused. */
  function TriggeredTarget(f: Facts, cards: seq<Card>, symbol: string): Status {
    if f.bars == FeedRaises then Triggered
    else if f.bars == Short || !f.book then BlockedData
    else if !f.refreshed || !f.assessed then Triggered
    else if Buys(f) then AttemptTarget(f.attempt, cards, symbol)
    else Settled(f.verdict, f.crash)
  }

  /** Where its turn leaves a watch that is not WAITING. */
  function LateTarget(w: Watch, f: Facts, cards: seq<Card>): Status {
    if Retrying(w, f.now) then w.status
    else if w.status in {BlockedData, BlockedOperational, Revalidating, Triggered}
        then TriggeredTarget(f, cards, w.symbol)
    else if w.status in {Admitted, Converting} then Deferred(w)
    else w.status
  }

  /** Where its turn leaves any watch. */
  function TurnTarget(w: Watch, f: Facts, cards: seq<Card>): Status {
    match f.price
    case NoPrice => BlockTarget(w)
    case ReadRaises => w.status
    case Priced(_) =>
      if w.status != Waiting then LateTarget(w, f, cards)
      else if f.stale then Invalidated
      else
        var seen := Observed(w, f.look, f.now);
        if seen == Triggered then TriggeredTarget(f, cards, w.symbol) else seen
  }

  /** The turn of a watch that is not WAITING reaches a conversion. */
  predicate LateBuys(w: Watch, f: Facts) {
    !Retrying(w, f.now) && w.status in {BlockedData, BlockedOperational, Revalidating, Triggered} && Buys(f)
  }

  /** The turn reaches a conversion. */
  predicate TurnBuys(w: Watch, f: Facts) {
    f.price.Priced? &&
    if w.status == Waiting then !f.stale && Observed(w, f.look, f.now) == Triggered && Buys(f) else LateBuys(w, f)
  }

  /** The cards after its turn. */
  function TurnBoard(w: Watch, f: Facts, cards: seq<Card>): seq<Card> {
    if TurnBuys(w, f) then AttemptBoard(f.attempt, cards, w.symbol) else cards
  }

  /** The last price of the row plays no part in where its turn ends. */
  lemma TurnIgnoresPrice(w: Watch, w': Watch, f: Facts, cards: seq<Card>)
    requires Repriced(w, w')
    ensures TurnTarget(w', f, cards) == TurnTarget(w, f, cards) && TurnBoard(w', f, cards) == TurnBoard(w, f, cards)
  {
    hide AttemptTarget, AttemptBoard, Settled;
  }

  // ---- Turns -----------------------------------------------------------------------------------

  /** A refreshed desk copy is written back: only the price is modelled. */
  method Refresh(s: Store, id: int, price: real)
    requires s.Valid() && id in s.rows
    modifies s`rows, s`trails, s`order
    ensures s.Valid() && id in s.rows && Step(old(s.Now()), s.Now(), id)
    ensures s.rows[id] == old(s.rows)[id].(lastPrice := Some(price))
  {
    var w := s.rows[id].(lastPrice := Some(price));
    PutStep(s.Now(), w);
    s.Update(w);
  }

  /** An await of the turn of watch `id`. */
  method Rest(s: Store, id: int, ops: seq<Other>)
    requires s.Valid() && id in s.rows
    modifies s`rows, s`trails, s`order, s`cards
    ensures s.Valid() && id in s.rows && Move(old(s.Now()), s.Now(), id)
    ensures s.rows[id].status in {old(s.rows)[id].status, Invalidated, Expired}
    ensures s.issues == old(s.issues) && s.incidents == old(s.incidents)
    ensures OnlyTouches(ops) ==>
      s.cards == old(s.cards) && StillBut(old(s.rows), s.rows, id) && Repriced(old(s.rows)[id], s.rows[id])
  {
    hide Apart, Aside, Move, StillBut;
    Pause(s, id, ops);
    ApartIsMove(old(s.Now()), s.Now(), id);
  }

  /** A WAITING watch at a price; `go` when its turn continues below. */
  method WaitingTurn(s: Store, id: int, price: real, f: Facts) returns (go: bool)
    requires s.Valid() && id in s.rows && s.rows[id].status == Waiting
    modifies s`rows, s`trails, s`order, s`attempts, s`cards
    ensures s.Valid() && id in s.rows && Move(old(s.Now()), s.Now(), id)
    ensures go ==> s.rows[id].status in {Triggered, Invalidated} && s.cards == old(s.cards)
    ensures !Leased(s.rows[id].status)
    ensures AllCas(s) && (go || Alone(f.pauses)) ==>
      s.rows[id].status == if f.stale then Invalidated else Observed(old(s.rows)[id], f.look, f.now)
    ensures AllCas(s) && s.rows[id].status == Triggered ==> go
    ensures go || Alone(f.pauses) ==>
      && StillBut(old(s.rows), s.rows, id) && s.cards == old(s.cards) && s.rows[id].symbol == old(s.rows)[id].symbol
  {
    hide Blamed, BoardOk, Step, Move, StillBut;
    ghost var start := s.Now();
    if f.stale {
      var _ := TryMark(s, id, Invalidated, f.now);
      StepIsMove(start, s.Now(), id);
      StepMeans(start, s.Now(), id);
      return false;
    }
    ObservePrice(s, id, f.look, f.now);
    ghost var observed := s.Now();
    StepIsMove(start, observed, id);
    StepMeans(start, observed, id);
    if s.rows[id].status == Expired {
      return false;
    }
    if s.rows[id].status == Waiting {
      WaitingRest(s, id, price, f);
      MoveTrans(start, observed, s.Now(), id);
      if Alone(f.pauses) {
        StillButTrans(start.rows, observed.rows, s.rows, id);
      }
      return false;
    }
    return true;
  }

  /** A watch that stays WAITING gets its desk copy refreshed. */
  method WaitingRest(s: Store, id: int, price: real, f: Facts)
    requires s.Valid() && id in s.rows && s.rows[id].status == Waiting
    modifies s`rows, s`trails, s`order, s`attempts, s`cards
    ensures s.Valid() && id in s.rows && Move(old(s.Now()), s.Now(), id)
    ensures s.rows[id].status in {Waiting, Invalidated, Expired}
    ensures Alone(f.pauses) ==>
      && StillBut(old(s.rows), s.rows, id) && s.cards == old(s.cards) && Repriced(old(s.rows)[id], s.rows[id])
  {
    hide Blamed, BoardOk, Step, Move, StillBut;
    ghost var start := s.Now();
    Rest(s, id, f.pauses.desk);
    if f.refreshed {
      ghost var rested := s.Now();
      Refresh(s, id, price);
      StepIsMove(rested, s.Now(), id);
      MoveTrans(start, rested, s.Now(), id);
      StepMeans(rested, s.Now(), id);
      if Alone(f.pauses) {
        StillButTrans(start.rows, rested.rows, s.rows, id);
      }
    }
  }

  /** Blocked and REVALIDATING watches are taken back to TRIGGERED. */
  method Reopen(s: Store, id: int, now: int) returns (go: bool)
    requires s.Valid() && id in s.rows
    modifies s`rows, s`trails, s`order, s`attempts
    ensures s.Valid() && id in s.rows && Step(old(s.Now()), s.Now(), id)
    ensures s.rows[id].status in {old(s.rows)[id].status, Triggered}
    ensures s.rows[id].status !in {Revalidating}
    ensures old(s.rows)[id].status !in {BlockedData, BlockedOperational, Revalidating} ==> go && s.Now() == old(s.Now())
    // An operational block waits for its retry time, and no longer.
    ensures Retrying(old(s.rows)[id], now) ==> !go && s.Now() == old(s.Now())
    ensures var w := old(s.rows)[id];
            Retrying(w, now) <==> w.status == BlockedOperational && w.retryAt.Some? && now < w.retryAt.value
    ensures AllCas(s) && !Retrying(old(s.rows)[id], now) ==>
      old(s.rows)[id].status in {BlockedData, BlockedOperational, Revalidating} ==> go && s.rows[id].status == Triggered
  {
    hide Step;
    StepStay(s.Now(), id);
    var w := s.rows[id];
    if w.status == BlockedData || w.status == BlockedOperational {
      if Retrying(w, now) {
        return false;
      }
      go := TryMark(s, id, Triggered, now);
      return;
    }
    if w.status == Revalidating {
      MarkOrForce(s, id, Triggered, now);
    }
    return true;
  }

  /** Undisturbed and with no mark refused, the watch and the cards are where the plan says. */
  ghost predicate Ended(d: Desk, d': Desk, id: int, target: Status, board: seq<Card>) {
    id in d'.rows && d'.rows[id].status == target && d'.cards == board && StillBut(d.rows, d'.rows, id)
  }

  lemma EndedMeans(d: Desk, d': Desk, id: int, target: Status, board: seq<Card>)
    requires Ended(d, d', id, target, board)
    ensures id in d'.rows && d'.rows[id].status == target && d'.cards == board && StillBut(d.rows, d'.rows, id)
  {
  }

  lemma EndedAfter(a: Desk, b: Desk, c: Desk, id: int, target: Status, board: seq<Card>)
    requires StillBut(a.rows, b.rows, id) && Ended(b, c, id, target, board)
    ensures Ended(a, c, id, target, board)
  {
    StillButTrans(a.rows, b.rows, c.rows, id);
  }

  /** A TRIGGERED watch: bars, top of book and a fresh desk copy first. */
  method TriggeredTurn(s: Store, id: int, price: real, f: Facts)
    requires s.Valid() && id in s.rows && s.rows[id].status == Triggered
    modifies s
    ensures s.Valid() && id in s.rows && Move(old(s.Now()), s.Now(), id)
    ensures s.rows[id].status != Revalidating
    ensures AllCas(s) && !Botched(f.attempt) ==> s.incidents == old(s.incidents)
    ensures !Botched(f.attempt) && old(s.AllRefused()) ==> s.AllRefused()
    ensures AllCas(s) && !Raising(f.attempt) ==> !Leased(s.rows[id].status)
    ensures AllCas(s) && Exact(old(s.Now())) && Alone(f.pauses) ==>
      var (cards, symbol) := (old(s.cards), old(s.rows)[id].symbol);
      Ended(old(s.Now()), s.Now(), id, TriggeredTarget(f, cards, symbol),
            if Buys(f) then AttemptBoard(f.attempt, cards, symbol) else cards)
  {
    hide Blamed, BoardOk, Step, Move, Exact, StillBut, AttemptTarget, AttemptBoard, Raising, Settled;
    ghost var start := s.Now();
    Rest(s, id, f.pauses.bars);
    ghost var read := s.Now();
    if f.bars == FeedRaises {
      return;
    }
    if f.bars == Short || !f.book {
      BlockOnMissingData(s, id, f.now);
      StepIsMove(read, s.Now(), id);
      StepMeans(read, s.Now(), id);
      MoveTrans(start, read, s.Now(), id);
      if Alone(f.pauses) {
        StillButTrans(start.rows, read.rows, s.rows, id);
      }
      return;
    }
    QuotedTurn(s, id, price, f);
    MoveTrans(start, read, s.Now(), id);
    MoveMeans(start, read, id);
    if AllCas(s) && Exact(start) && Alone(f.pauses) {
      EndedAfter(start, read, s.Now(), id, s.rows[id].status, s.cards);
    }
  }

  /** The desk refresh and the market assessment; the copy of the row is read in between. */
  method Freshen(s: Store, id: int, price: real, f: Facts) returns (copied: Option<Status>)
    requires s.Valid() && id in s.rows && s.rows[id].status in {Triggered, Invalidated, Expired}
    modifies s`rows, s`trails, s`order, s`cards
    ensures s.Valid() && id in s.rows && Move(old(s.Now()), s.Now(), id)
    ensures s.rows[id].status in {old(s.rows)[id].status, Invalidated, Expired}
    ensures copied.Some? <==> f.refreshed && f.assessed
    ensures Alone(f.pauses) ==>
      && StillBut(old(s.rows), s.rows, id) && s.cards == old(s.cards) && Repriced(old(s.rows)[id], s.rows[id])
      && (copied.Some? ==> copied.value == s.rows[id].status)
  {
    hide Blamed, BoardOk, Step, Move, StillBut;
    ghost var start := s.Now();
    Rest(s, id, f.pauses.desk);
    ghost var rested := s.Now();
    if !f.refreshed {
      return None;
    }
    Refresh(s, id, price);
    copied := Some(s.rows[id].status);
    ghost var refreshed := s.Now();
    StepIsMove(rested, refreshed, id);
    StepMeans(rested, refreshed, id);
    MoveTrans(start, rested, refreshed, id);
    Rest(s, id, f.pauses.market);
    MoveTrans(start, refreshed, s.Now(), id);
    if Alone(f.pauses) {
      StillButTrans(start.rows, rested.rows, refreshed.rows, id);
      StillButTrans(start.rows, refreshed.rows, s.rows, id);
    }
    if !f.assessed {
      return None;
    }
  }

  /** The fresh desk copy, the market assessment, and what the evaluation concludes. */
  method QuotedTurn(s: Store, id: int, price: real, f: Facts)
    requires s.Valid() && id in s.rows && s.rows[id].status in {Triggered, Invalidated, Expired}
    requires f.bars == Enough && f.book
    modifies s
    ensures s.Valid() && id in s.rows && Move(old(s.Now()), s.Now(), id)
    ensures s.rows[id].status != Revalidating
    ensures AllCas(s) && !Botched(f.attempt) ==> s.incidents == old(s.incidents)
    ensures !Botched(f.attempt) && old(s.AllRefused()) ==> s.AllRefused()
    ensures AllCas(s) && !Raising(f.attempt) ==> !Leased(s.rows[id].status)
    ensures AllCas(s) && Exact(old(s.Now())) && Alone(f.pauses) && old(s.rows)[id].status == Triggered ==>
      var (cards, symbol) := (old(s.cards), old(s.rows)[id].symbol);
      Ended(old(s.Now()), s.Now(), id, TriggeredTarget(f, cards, symbol),
            if Buys(f) then AttemptBoard(f.attempt, cards, symbol) else cards)
  {
    hide Blamed, BoardOk, Move, Exact, StillBut, AttemptTarget, AttemptBoard, Raising, Settled, AllCas, Botched, Alone;
    ghost var start := s.Now();
    var copied := Freshen(s, id, price, f);
    ghost var assessed := s.Now();
    MoveMeans(start, assessed, id);
    if copied.Some? {
      Judge(s, id, copied.value, f);
      MoveTrans(start, assessed, s.Now(), id);
      if AllCas(s) && Exact(start) && Alone(f.pauses) && start.rows[id].status == Triggered {
        EndedAfter(start, assessed, s.Now(), id, s.rows[id].status, s.cards);
      }
    }
  }

  /** Only a BUY whose candidate was built goes on to a conversion, and it is ADMITTED then. */
  lemma BuyMeans(v: Verdict)
    ensures OutcomeOf(v) == BuyNow <==> v.BuyAllowed? && v.built
    ensures v.BuyAllowed? ==> Settled(v, Never) == Admitted
    ensures OutcomeOf(v) != Raised
  {
  }

  /** Revalidation from the copy, and publication when the verdict is to buy. */
  method Judge(s: Store, id: int, copied: Status, f: Facts)
    requires s.Valid() && id in s.rows && s.rows[id].status in {Triggered, Invalidated, Expired}
    modifies s
    ensures s.Valid() && id in s.rows && Move(old(s.Now()), s.Now(), id)
    ensures s.rows[id].status != Revalidating
    ensures AllCas(s) && !Botched(f.attempt) ==> s.incidents == old(s.incidents)
    ensures !Botched(f.attempt) && old(s.AllRefused()) ==> s.AllRefused()
    ensures AllCas(s) && !Raising(f.attempt) ==> !Leased(s.rows[id].status)
    ensures AllCas(s) && Exact(old(s.Now())) && Alone(f.pauses) && copied == old(s.rows)[id].status == Triggered ==>
      var buys := f.crash == Never && f.verdict.BuyAllowed? && f.verdict.built;
      var (cards, symbol) := (old(s.cards), old(s.rows)[id].symbol);
      Ended(old(s.Now()), s.Now(), id,
            if buys then AttemptTarget(f.attempt, cards, symbol) else Settled(f.verdict, f.crash),
            if buys then AttemptBoard(f.attempt, cards, symbol) else cards)
  {
    hide Blamed, BoardOk, Step, Move, Exact, StillBut, AttemptTarget, AttemptBoard, Raising, AllCas, Botched,
         Settled, OutcomeOf;
    BuyMeans(f.verdict);
    ghost var start := s.Now();
    var outcome := Revalidate(s, id, copied, true, f.verdict, f.crash, f.now);
    ghost var judged := s.Now();
    StepIsMove(start, judged, id);
    StepMeans(start, judged, id);
    MoveMeans(start, judged, id);
    if outcome == BuyNow {
      ConvertAdmitted(s, id, true, f.attempt, f.pauses.gaps, f.now);
      MoveTrans(start, judged, s.Now(), id);
      if AllCas(s) && Exact(start) && Alone(f.pauses) && copied == start.rows[id].status == Triggered {
        EndedAfter(start, judged, s.Now(), id, s.rows[id].status, s.cards);
      }
    }
  }

  /** The dispatch on every status but WAITING. */
  method LateTurn(s: Store, id: int, price: real, f: Facts)
    requires s.Valid() && id in s.rows && s.rows[id].status != Waiting
    modifies s
    ensures s.Valid() && id in s.rows && Move(old(s.Now()), s.Now(), id)
    ensures s.rows[id].status != Revalidating
    ensures AllCas(s) && !Botched(f.attempt) ==> s.incidents == old(s.incidents)
    ensures !Botched(f.attempt) && old(s.AllRefused()) ==> s.AllRefused()
    ensures AllCas(s) && !Raising(f.attempt) ==> !Leased(s.rows[id].status)
    ensures AllCas(s) && Exact(old(s.Now())) && Alone(f.pauses) ==>
      var (w, cards) := (old(s.rows)[id], old(s.cards));
      Ended(old(s.Now()), s.Now(), id, LateTarget(w, f, cards),
            if LateBuys(w, f) then AttemptBoard(f.attempt, cards, w.symbol) else cards)
  {
    hide Blamed, BoardOk, Step, Move, Exact, StillBut, AttemptTarget, AttemptBoard, Raising, TriggeredTarget,
         Buys, AllCas, Botched;
    ghost var start := s.Now();
    var go := Reopen(s, id, f.now);
    ghost var reopened := s.Now();
    StepIsMove(start, reopened, id);
    StepMeans(start, reopened, id);
    MoveMeans(start, reopened, id);
    if !go {
      return;
    }
    if s.rows[id].status == Admitted {
      ConvertAdmitted(s, id, false, f.attempt, f.pauses.gaps, f.now);
      MoveTrans(start, reopened, s.Now(), id);
    } else if s.rows[id].status == Converting {
      DeferToRecovery(s, id, f.now);
      StepIsMove(reopened, s.Now(), id);
      StepMeans(reopened, s.Now(), id);
      MoveTrans(start, reopened, s.Now(), id);
    } else if s.rows[id].status == Triggered {
      TriggeredTurn(s, id, price, f);
      MoveTrans(start, reopened, s.Now(), id);
    }
    if AllCas(s) && Exact(start) && Alone(f.pauses) {
      StillButStay(s.rows, id);
      EndedAfter(start, reopened, s.Now(), id, s.rows[id].status, s.cards);
    }
  }

  /** The turn of a watch with a price. */
  method PricedTurn(s: Store, id: int, price: real, f: Facts)
    requires s.Valid() && id in s.rows && f.price == Priced(price)
    modifies s
    ensures s.Valid() && id in s.rows && Move(old(s.Now()), s.Now(), id)
    ensures s.rows[id].status != Revalidating
    ensures AllCas(s) && !Botched(f.attempt) ==> s.incidents == old(s.incidents)
    ensures !Botched(f.attempt) && old(s.AllRefused()) ==> s.AllRefused()
    ensures AllCas(s) && !Raising(f.attempt) ==> !Leased(s.rows[id].status)
    ensures AllCas(s) && Exact(old(s.Now())) && Alone(f.pauses) ==>
      var (w, cards) := (old(s.rows)[id], old(s.cards));
      Ended(old(s.Now()), s.Now(), id, TurnTarget(w, f, cards), TurnBoard(w, f, cards))
  {
    hide Blamed, BoardOk, Step, Move, Exact, StillBut, AttemptTarget, AttemptBoard, Raising, TriggeredTarget, Buys,
         Observed, AllCas, Botched;
    ghost var start := s.Now();
    if s.rows[id].status != Waiting {
      LateTurn(s, id, price, f);
      return;
    }
    var go := WaitingTurn(s, id, price, f);
    ghost var looked := s.Now();
    MoveMeans(start, looked, id);
    if go {
      LateTurn(s, id, price, f);
      MoveTrans(start, looked, s.Now(), id);
      if AllCas(s) && Exact(start) && Alone(f.pauses) {
        EndedAfter(start, looked, s.Now(), id, s.rows[id].status, s.cards);
      }
    }
  }

  /** The turn once its price read has ended. */
  method AwakeTurn(s: Store, id: int, f: Facts)
    requires s.Valid() && id in s.rows
    modifies s
    ensures s.Valid() && id in s.rows && Move(old(s.Now()), s.Now(), id)
    ensures f.price.Priced? ==> s.rows[id].status != Revalidating
    ensures AllCas(s) && !Botched(f.attempt) ==> s.incidents == old(s.incidents)
    ensures !Botched(f.attempt) && old(s.AllRefused()) ==> s.AllRefused()
    ensures AllCas(s) && !Raises(f) ==> !Leased(s.rows[id].status)
    ensures AllCas(s) && Exact(old(s.Now())) && Alone(f.pauses) ==>
      var (w, cards) := (old(s.rows)[id], old(s.cards));
      Ended(old(s.Now()), s.Now(), id, TurnTarget(w, f, cards), TurnBoard(w, f, cards))
  {
    hide Blamed, BoardOk, Step, Move, Exact, StillBut, Raising, AttemptTarget, AttemptBoard, LateTarget, LateBuys,
         Observed, AllCas, Botched, Alone;
    ghost var start := s.Now();
    StepStay(start, id);
    StepIsMove(start, start, id);
    StillButStay(s.rows, id);
    match f.price {
    case ReadRaises =>
    case NoPrice =>
      BlockOnMissingData(s, id, f.now);
      StepIsMove(start, s.Now(), id);
      StepMeans(start, s.Now(), id);
    case Priced(price) =>
      PricedTurn(s, id, price, f);
    }
  }

  /**
    One watch's turn in a pass, whatever else runs at its awaits. With a price it is never left
    REVALIDATING, and when nothing is refused and nothing raises it is left with no lease at all.
    Undisturbed and from exact books it ends where the facts say when nothing is refused.
   */
  method Turn(s: Store, id: int, f: Facts)
    requires s.Valid() && id in s.rows
    modifies s
    ensures s.Valid() && id in s.rows && Move(old(s.Now()), s.Now(), id)
    ensures f.price.Priced? ==> s.rows[id].status != Revalidating
    ensures AllCas(s) && !Botched(f.attempt) ==> s.incidents == old(s.incidents)
    ensures !Botched(f.attempt) && old(s.AllRefused()) ==> s.AllRefused()
    ensures AllCas(s) && !Raises(f) ==> !Leased(s.rows[id].status)
    ensures AllCas(s) && Exact(old(s.Now())) && Alone(f.pauses) ==>
      var (w, cards) := (old(s.rows)[id], old(s.cards));
      Ended(old(s.Now()), s.Now(), id, TurnTarget(w, f, cards), TurnBoard(w, f, cards))
  {
    hide Blamed, BoardOk, Move, Exact, StillBut, AllCas, Botched, Ended, TurnTarget, TurnBoard, Raises;
    ghost var start := s.Now();
    Rest(s, id, f.pauses.price);
    ghost var rested := s.Now();
    MoveMeans(start, rested, id);
    AwakeTurn(s, id, f);
    MoveTrans(start, rested, s.Now(), id);
    if AllCas(s) && Exact(start) && Alone(f.pauses) {
      TurnIgnoresPrice(start.rows[id], rested.rows[id], f, start.cards);
      ghost var target := TurnTarget(start.rows[id], f, start.cards);
      ghost var board := TurnBoard(start.rows[id], f, start.cards);
      EndedAfter(start, rested, s.Now(), id, target, board);
    }
  }

  // ---- Leases ----------------------------------------------------------------------------------

  /** Every lease belongs to a watch whose turn is still to come. */
  ghost predicate LeasesAhead(rows: map<int, Watch>, ahead: seq<int>) {
    forall id | id in rows && Leased(rows[id].status) :: id in ahead
  }

  lemma LeasesAheadStart(rows: map<int, Watch>, ids: seq<int>)
    requires forall id :: id in ids <==> id in rows && Actionable(rows[id].status)
    ensures LeasesAhead(rows, ids)
  {
  }

  /** No lease comes from outside the turn of its watch. */
  lemma LeasesAheadApart(d: Desk, d': Desk, ahead: seq<int>)
    requires LeasesAhead(d.rows, ahead) && Apart(d, d')
    ensures LeasesAhead(d'.rows, ahead)
  {
    hide Grew, Level;
    forall id | id in d'.rows && Leased(d'.rows[id].status) ensures id in ahead {
      assert Drifted(d.rows[id], d'.rows[id]);
    }
  }

  lemma LeasesAheadStep(rows: map<int, Watch>, rows': map<int, Watch>, ahead: seq<int>)
    requires LeasesAhead(rows, ahead) && |ahead| > 0 && Aside(rows, rows', ahead[0])
    requires !Leased(rows'[ahead[0]].status)
    ensures LeasesAhead(rows', ahead[1..])
  {
    assert ahead == [ahead[0]] + ahead[1..];
    forall id | id in rows' && Leased(rows'[id].status) ensures id in ahead[1..] {
      if id != ahead[0] {
        assert Drifted(rows[id], rows'[id]);
        assert id in ahead;
      }
    }
  }

  lemma LeasesAheadEnd(rows: map<int, Watch>, ahead: seq<int>)
    requires LeasesAhead(rows, ahead) && ahead == []
    ensures forall id | id in rows :: !Leased(rows[id].status)
  {
  }

  // ---- Passes ----------------------------------------------------------------------------------

  /** The rows a pass works on: leases recovered, duplicates collapsed, overdue plans expired. */
  function Listed(rows: map<int, Watch>, order: seq<int>, now: int): map<int, Watch> {
    Lapsed(Collapsed(Recovered(Lapsed(Collapsed(rows, order), now), now), order), now)
  }

  /** The cards when the first n watches have had their turn. */
  function BoardAfter(
    listed: map<int, Watch>, ids: seq<int>, n: nat, facts: int -> Facts, cards: seq<Card>): seq<Card>
    requires n <= |ids| && forall id | id in ids :: id in listed
  {
    if n == 0 then cards
    else
      var before := BoardAfter(listed, ids, n - 1, facts, cards);
      var id := ids[n - 1];
      assert id in ids;
      TurnBoard(listed[id], facts(id), before)
  }

  /** Where the k-th watch of a pass ends. */
  function TargetAt(
    listed: map<int, Watch>, ids: seq<int>, k: nat, facts: int -> Facts, cards: seq<Card>): Status
    requires k < |ids| && forall id | id in ids :: id in listed
  {
    var id := ids[k];
    assert id in ids;
    TurnTarget(listed[id], facts(id), BoardAfter(listed, ids, k, facts, cards))
  }

  /** Where the watches of a pass end, in order. */
  function Targets(listed: map<int, Watch>, ids: seq<int>, facts: int -> Facts, cards: seq<Card>): seq<Status>
    requires forall id | id in ids :: id in listed
  {
    seq(|ids|, k requires 0 <= k < |ids| => TargetAt(listed, ids, k, facts, cards))
  }

  /** A pass, partway: the watches of ids[..n] are on their targets, and the others kept all but a price. */
  ghost predicate RowsTaken(
    listed: map<int, Watch>, rows: map<int, Watch>, ids: seq<int>, n: nat, targets: seq<Status>)
  {
    && n <= |ids| == |targets| && rows.Keys == listed.Keys
    && (forall k | 0 <= k < n :: ids[k] in rows && rows[ids[k]].status == targets[k])
    && (forall id | id in listed && id !in ids[..n] :: Repriced(listed[id], rows[id]))
  }

  /** A pass, partway: the rows and the cards after n turns. */
  ghost predicate TurnsTaken(
    listed: map<int, Watch>, cards: seq<Card>, rows: map<int, Watch>, board: seq<Card>, ids: seq<int>, n: nat,
    facts: int -> Facts)
  {
    && n <= |ids| && (forall id | id in ids :: id in listed)
    && board == BoardAfter(listed, ids, n, facts, cards)
    && RowsTaken(listed, rows, ids, n, Targets(listed, ids, facts, cards))
  }

  /** Every actionable watch ended where its facts say, in store order; every other kept all but its price. */
  ghost predicate PassResult(
    listed: map<int, Watch>, cards: seq<Card>, rows: map<int, Watch>, board: seq<Card>, order: seq<int>,
    facts: int -> Facts)
  {
    var ids := ActionableIn(listed, order);
    TurnsTaken(listed, cards, rows, board, ids, |ids|, facts)
  }

  lemma TurnsTakenStart(
    listed: map<int, Watch>, cards: seq<Card>, rows: map<int, Watch>, ids: seq<int>, facts: int -> Facts)
    requires Still(listed, rows) && forall id | id in ids :: id in listed
    ensures TurnsTaken(listed, cards, rows, cards, ids, 0, facts)
  {
    hide Repriced, TurnTarget, TurnBoard;
  }

  /** The next watch still has its row but for the price. */
  lemma RowsTakenNext(listed: map<int, Watch>, rows: map<int, Watch>, ids: seq<int>, n: nat, targets: seq<Status>)
    requires n < |ids| && RowsTaken(listed, rows, ids, n, targets) && NoDuplicates(ids) && ids[n] in listed
    ensures ids[n] in rows && Repriced(listed[ids[n]], rows[ids[n]])
  {
    hide Repriced, NoDuplicates;
    NotBefore(ids, n);
    var id := ids[n];
    assert id in listed && id !in ids[..n];
  }

  lemma NotBefore(ids: seq<int>, n: nat)
    requires NoDuplicates(ids) && n < |ids|
    ensures ids[n] !in ids[..n] && forall k | 0 <= k < n :: ids[k] != ids[n]
  {
  }

  lemma StillButAt(rows: map<int, Watch>, rows': map<int, Watch>, id: int, j: int)
    requires StillBut(rows, rows', id) && j != id && j in rows
    ensures j in rows' && Repriced(rows[j], rows'[j])
  {
  }

  lemma RowsTakenStep(
    listed: map<int, Watch>, rows: map<int, Watch>, rows': map<int, Watch>, ids: seq<int>, n: nat,
    targets: seq<Status>)
    requires n < |ids| && RowsTaken(listed, rows, ids, n, targets) && NoDuplicates(ids) && ids[n] in listed
    requires StillBut(rows, rows', ids[n]) && rows'[ids[n]].status == targets[n]
    ensures RowsTaken(listed, rows', ids, n + 1, targets)
  {
    hide Repriced, NoDuplicates;
    NotBefore(ids, n);
    assert rows'.Keys == rows.Keys;
    hide StillBut;
    assert ids[..n + 1] == ids[..n] + [ids[n]];
    forall k | 0 <= k < n ensures ids[k] in rows' && rows'[ids[k]].status == targets[k] {
      StillButAt(rows, rows', ids[n], ids[k]);
      RepricedStatus(rows[ids[k]], rows'[ids[k]]);
    }
    forall id | id in listed && id !in ids[..n + 1] ensures Repriced(listed[id], rows'[id]) {
      StillButAt(rows, rows', ids[n], id);
      RepricedTrans(listed[id], rows[id], rows'[id]);
    }
  }

  lemma RepricedStatus(w: Watch, w': Watch)
    requires Repriced(w, w')
    ensures w'.status == w.status
  {
  }

  lemma RepricedTrans(a: Watch, b: Watch, c: Watch)
    requires Repriced(a, b) && Repriced(b, c)
    ensures Repriced(a, c)
  {
  }

  /** Where the next turn ends does not depend on the prices touched so far. */
  lemma TurnsTakenHere(
    listed: map<int, Watch>, cards: seq<Card>, w: Watch, board: seq<Card>, ids: seq<int>, n: nat, facts: int -> Facts)
    requires n < |ids| && (forall id | id in ids :: id in listed) && board == BoardAfter(listed, ids, n, facts, cards)
    requires ids[n] in listed && Repriced(listed[ids[n]], w)
    ensures TurnTarget(w, facts(ids[n]), board) == TargetAt(listed, ids, n, facts, cards)
    ensures TurnBoard(w, facts(ids[n]), board) == BoardAfter(listed, ids, n + 1, facts, cards)
  {
    hide TurnTarget, TurnBoard, Repriced;
    TurnIgnoresPrice(listed[ids[n]], w, facts(ids[n]), board);
  }

  /**
    The turns of a pass. `listed` is what the pass was to work on, before anything else ran.
   */
  method TakeTurns(s: Store, ids: seq<int>, facts: int -> Facts, ghost listed: map<int, Watch>)
    requires s.Valid() && NoDuplicates(ids) && LeasesAhead(s.rows, ids) && forall id | id in ids :: id in s.rows
    modifies s
    ensures s.Valid() && Onward(old(s.Now()), s.Now())
    ensures AllCas(s) && (forall id :: !Botched(facts(id).attempt)) ==> s.incidents == old(s.incidents)
    ensures (forall id :: !Botched(facts(id).attempt)) && old(s.AllRefused()) ==> s.AllRefused()
    ensures AllCas(s) && (forall id :: !Raises(facts(id))) ==> forall id | id in s.rows :: !Leased(s.rows[id].status)
    ensures AllCas(s) && Exact(old(s.Now())) && (forall id :: Alone(facts(id).pauses)) && Still(listed, old(s.rows)) ==>
      TurnsTaken(listed, old(s.cards), s.rows, s.cards, ids, |ids|, facts)
  {
    hide Blamed, BoardOk, Move, Onward, LeasesAhead, Leased, AllCas, Ended, TurnTarget, TurnBoard, Exact,
         RowsTaken, BoardAfter, TargetAt, StillBut, NoDuplicates, Still, Aside, Raises, Botched, Alone;
    ghost var start := s.Now();
    ghost var calm := AllCas(s) && forall id :: !Raises(facts(id));
    ghost var sound := AllCas(s) && forall id :: !Botched(facts(id).attempt);
    ghost var exact := AllCas(s) && Exact(start) && (forall id :: Alone(facts(id).pauses)) && Still(listed, start.rows);
    OnwardStay(start);
    if exact {
      StillKeys(listed, start.rows);
      TurnsTakenStart(listed, start.cards, s.rows, ids, facts);
    }
    for i := 0 to |ids|
      invariant s.Valid() && (forall id | id in ids :: id in s.rows) && Onward(start, s.Now())
      invariant sound ==> s.incidents == old(s.incidents)
      invariant (forall j :: !Botched(facts(j).attempt)) && old(s.AllRefused()) ==> s.AllRefused()
      invariant calm ==> LeasesAhead(s.rows, ids[i..])
      invariant exact ==> TurnsTaken(listed, start.cards, s.rows, s.cards, ids, i, facts)
    {
      var id := ids[i];
      assert id in ids;
      ghost var before := s.Now();
      OnwardKeepsExact(start, before);
      Turn(s, id, facts(id));
      MoveMeans(before, s.Now(), id);
      AsideKeeps(before.rows, s.rows, id);
      OnwardTrans(start, before, s.Now());
      if calm {
        LeasesAheadStep(before.rows, s.rows, ids[i..]);
        assert ids[i..][1..] == ids[i + 1..];
      }
      if exact {
        ghost var targets := Targets(listed, ids, facts, start.cards);
        RowsTakenNext(listed, before.rows, ids, i, targets);
        TurnsTakenHere(listed, start.cards, before.rows[id], before.cards, ids, i, facts);
        EndedMeans(before, s.Now(), id, targets[i], BoardAfter(listed, ids, i + 1, facts, start.cards));
        RowsTakenStep(listed, before.rows, s.rows, ids, i, targets);
      }
    }
    if calm {
      LeasesAheadEnd(s.rows, ids[|ids|..]);
    }
  }

  lemma StillKeys(rows: map<int, Watch>, rows': map<int, Watch>)
    requires Still(rows, rows')
    ensures rows'.Keys == rows.Keys
  {
  }

  lemma AsideKeeps(rows: map<int, Watch>, rows': map<int, Watch>, id: int)
    requires Aside(rows, rows', id)
    ensures forall j | j in rows :: j in rows'
  {
  }

  /**
    One pass over the actionable watches, in store order. `marking` is what runs while the prices
    are fetched, the stamping of the prices included.
   */
  method RunWatchPass(s: Store, marking: seq<Other>, facts: int -> Facts, now: int)
    requires s.Valid()
    modifies s
    ensures s.Valid() && Onward(old(s.Now()), s.Now())
    ensures AllCas(s) && (forall id :: !Botched(facts(id).attempt)) ==> s.incidents == old(s.incidents)
    ensures (forall id :: !Botched(facts(id).attempt)) && old(s.AllRefused()) ==> s.AllRefused()
    ensures AllCas(s) && (forall id :: !Raises(facts(id))) ==> forall id | id in s.rows :: !Leased(s.rows[id].status)
    ensures AllCas(s) && Exact(old(s.Now())) && OnlyTouches(marking) && (forall id :: Alone(facts(id).pauses)) ==>
      PassResult(Listed(old(s.rows), old(s.order), now), old(s.cards), s.rows, s.cards, old(s.order), facts)
  {
    hide Kept, Safe, Exact, TurnsTaken, Apart, Onward, Collapsed, Lapsed, OnePerSymbol, Recovered, LeaseExpired,
         LeasesAhead, ActionableIn, Raises, Botched, Alone, OnlyTouches, Still;
    ghost var start := s.Now();
    RecoverStaleLeases(s, now);
    ghost var recovered := s.Now();
    KeptIsOnward(start, recovered);
    KeptBooks(start, recovered);
    var ids := s.ListActionable(now);
    ghost var listed := s.Now();
    ApartIsOnward(recovered, listed);
    OnwardTrans(start, recovered, listed);
    LeasesAheadStart(s.rows, ids);
    Await(s, marking);
    ghost var marked := s.Now();
    ApartIsOnward(listed, marked);
    OnwardTrans(start, listed, marked);
    OnwardKeepsExact(start, marked);
    LeasesAheadApart(listed, marked, ids);
    ApartKeys(listed, marked);
    TakeTurns(s, ids, facts, listed.rows);
    OnwardTrans(start, marked, s.Now());
  }

  lemma ApartKeys(d: Desk, d': Desk)
    requires Apart(d, d')
    ensures forall id | id in d.rows :: id in d'.rows
  {
  }
}
