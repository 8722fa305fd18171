/**
  Publication of an admitted watch: the admission claim, the CONVERTING lease, the BUY card and the
  CONVERTED mark, with other parts of the desk running at every await in between.
 */
module WatchPublication {
  import opened Wrappers
  import opened WatchLifecycle
  import opened WatchLedger
  import opened EntryWatchStore
  import opened WatchAwait
  import opened WatchRevalidation
  import opened WatchRecovery

  // ---- Endings ---------------------------------------------------------------------------------

  /** What comes of a publication that found no open card of its symbol. */
  datatype Offer =
    | OfferRaises
    | OfferDeferred
    | OfferDataBlocked
    | OfferNoTrade
    | CardStored(raises: bool)

  /** How the conversion of a CONVERTING watch ends. */
  datatype Attempt =
    | AttemptRaises
    | MissingCandidate
    | NoTopOfBook
    | GeometryChanged
    | ConfirmationPending(dataMissing: bool)
    | RegimeBlocked
    | RiskPending
    | RiskRejected
    | PublishDeferred
    | Publishes(unactionable: set<nat>, offer: Offer)

  /** What else runs while an attempt awaits: before publication, at the sector check, once the card is stored, last. */
  datatype Gaps = Gaps(converting: seq<Other>, sector: seq<Other>, stored: seq<Other>, last: seq<Other>)

  predicate Undisturbed(gaps: Gaps) {
    OnlyTouches(gaps.converting) && OnlyTouches(gaps.sector) && OnlyTouches(gaps.stored) && OnlyTouches(gaps.last)
  }

  /** The card is stored, but a later step of its publication raises. */
  predicate Botched(a: Attempt) {
    a.Publishes? && a.offer == CardStored(true)
  }

  /** The attempt may end with the CONVERTING lease still held. */
  predicate Raising(a: Attempt) {
    a.AttemptRaises? || Botched(a) || (a.Publishes? && a.offer.OfferRaises?)
  }

  /** A card is stored exactly when its symbol has none open once unactionable cards are withdrawn. */
  predicate Stores(a: Attempt, cards: seq<Card>, symbol: string) {
    a.Publishes? && a.offer.CardStored? && OpenCard(Withdrawn(cards, a.unactionable), symbol).None?
  }

  /** The cards after a conversion that nothing disturbs. */
  function AttemptBoard(a: Attempt, cards: seq<Card>, symbol: string): seq<Card> {
    if !a.Publishes? then cards
    else if Stores(a, cards, symbol) then Withdrawn(cards, a.unactionable) + [Card(symbol, true, false)]
    else Withdrawn(cards, a.unactionable)
  }

  function OfferTarget(offer: Offer): Status {
    match offer
    case OfferRaises => Converting
    case OfferDeferred => Admitted
    case OfferDataBlocked => BlockedData
    case OfferNoTrade => Invalidated
    case CardStored(raises) => if raises then Converting else Converted
  }

  /** The status each ending leads to when nothing disturbs it and no mark is refused. */
  function AttemptTarget(a: Attempt, cards: seq<Card>, symbol: string): Status {
    match a
    case AttemptRaises => Converting
    case ConfirmationPending(dataMissing) => if dataMissing then BlockedData else Waiting
    case RiskPending => BlockedData
    case NoTopOfBook => Admitted
    case PublishDeferred => Admitted
    case Publishes(unactionable, offer) =>
      if OpenCard(Withdrawn(cards, unactionable), symbol).Some? then Converted else OfferTarget(offer)
    case _ => Invalidated
  }

  /** The card such a conversion leaves its watch with. */
  function AttemptCard(a: Attempt, cards: seq<Card>, symbol: string): Option<nat> {
    if !a.Publishes? then None
    else if Stores(a, cards, symbol) then (if a.offer.raises then None else Some(|cards|))
    else OpenCard(Withdrawn(cards, a.unactionable), symbol)
  }

  // ---- The CONVERTED mark ----------------------------------------------------------------------

  /** The CONVERTED mark for a card; with a pending issue its refusal is an incident. */
  method Convert(s: Store, id: int, card: nat, now: int, ghost pending: Option<Issue>)
    requires s.Valid() && id in s.rows && s.rows[id].status == Converting
    requires pending.Some? ==> pending.value.card == card
    modifies s`rows, s`trails, s`order, s`attempts, s`incidents, s`refusals
    ensures s.Valid() && id in s.rows && s.rows == old(s.rows)[id := s.rows[id]]
    ensures s.rows[id].symbol == old(s.rows)[id].symbol
    ensures Served(old(s.Now()), s.Now(), id, pending)
    ensures s.attempts == old(s.attempts) + 1
    ensures s.rows[id].status == if s.cas(old(s.attempts)) then Converted else Converting
    ensures s.rows[id].opportunity == if s.rows[id].status == Converted then Some(card) else old(s.rows)[id].opportunity
    ensures ClaimOf(s.rows[id]) == ClaimOf(old(s.rows)[id])
    ensures s.refusals == if pending.Some? && s.rows[id].status != Converted
                          then old(s.refusals)[pending.value := old(s.attempts)] else old(s.refusals)
    ensures old(s.AllRefused()) ==> s.AllRefused()
    ensures s.incidents == old(s.incidents) +
                           if pending.Some? && s.rows[id].status != Converted then {pending.value} else {}
  {
    hide Served, Step, Safe;
    ghost var start := s.Now();
    ghost var change := s.ChangeFor(Converted, now, s.attempts, None, Some(card));
    var updated := s.Mark(id, Converted, now, None, Some(card));
    if updated.Some? {
      TransitionKeepsConverting(start.rows[id], change);
      ConvertServes(start, updated.value, id, pending);
    } else if pending.Some? {
      IncidentServes(start, id, pending.value);
      s.incidents := s.incidents + {pending.value};
      s.refusals := s.refusals[pending.value := s.attempts - 1];
    } else {
      StayServed(start, id);
    }
  }

  lemma TransitionKeepsConverting(w: Watch, c: Change)
    requires w.status == Converting && c.to == Converted
    ensures var next := Transitioned(w, c);
            && next.symbol == w.symbol && next.triggerVersion == w.triggerVersion && (LeaseOk(w) ==> LeaseOk(next))
  {
  }

  // ---- Endings that store no card --------------------------------------------------------------

  /** CONVERTING back through ADMITTED and TRIGGERED to a waiting status, mark by mark. */
  method BackOut(s: Store, id: int, to: Status, now: int)
    requires s.Valid() && id in s.rows && s.rows[id].status == Converting && to in {Waiting, BlockedData}
    modifies s`rows, s`trails, s`order, s`attempts
    ensures s.Valid() && id in s.rows && Step(old(s.Now()), s.Now(), id)
    ensures s.rows[id].status !in {Revalidating, Converted}
    ensures s.rows[id].opportunity == old(s.rows)[id].opportunity && ClaimOf(s.rows[id]) == ClaimOf(old(s.rows)[id])
    ensures AllCas(s) ==> s.rows[id].status == to
  {
    hide Step;
    ghost var start := s.Now();
    var _ := TryMark(s, id, Admitted, now);
    ghost var first := s.Now();
    var _ := TryMark(s, id, Triggered, now);
    ghost var second := s.Now();
    StepTrans(start, first, second, id);
    var _ := TryMark(s, id, to, now);
    StepTrans(start, second, s.Now(), id);
  }

  /** Every ending before the opportunity store is asked. */
  method GiveUp(s: Store, id: int, attempt: Attempt, now: int)
    requires s.Valid() && id in s.rows && s.rows[id].status == Converting && !attempt.Publishes?
    modifies s`rows, s`trails, s`order, s`attempts
    ensures s.Valid() && id in s.rows && Step(old(s.Now()), s.Now(), id)
    ensures s.rows[id].status !in {Revalidating, Converted}
    ensures s.rows[id].opportunity == old(s.rows)[id].opportunity && ClaimOf(s.rows[id]) == ClaimOf(old(s.rows)[id])
    ensures AllCas(s) ==> s.rows[id].status == AttemptTarget(attempt, s.cards, s.rows[id].symbol)
  {
    hide Step;
    StepStay(s.Now(), id);
    match attempt {
    case AttemptRaises =>
    case ConfirmationPending(dataMissing) =>
      BackOut(s, id, if dataMissing then BlockedData else Waiting, now);
    case RiskPending =>
      BackOut(s, id, BlockedData, now);
    case NoTopOfBook =>
      var _ := TryMark(s, id, Admitted, now);
    case PublishDeferred =>
      var _ := TryMark(s, id, Admitted, now);
    case MissingCandidate | GeometryChanged | RegimeBlocked | RiskRejected =>
      var _ := TryMark(s, id, Invalidated, now);
    }
  }

  /** Every ending of a publication that stores no card and finds none. */
  method Decline(s: Store, id: int, offer: Offer, now: int)
    requires s.Valid() && id in s.rows && s.rows[id].status == Converting && !offer.CardStored?
    modifies s`rows, s`trails, s`order, s`attempts, s`claims
    ensures s.Valid() && id in s.rows && Step(old(s.Now()), s.Now(), id)
    ensures s.rows[id].status != Revalidating
    ensures s.claims in {old(s.claims), old(s.claims) - {ClaimOf(old(s.rows)[id])}}
    ensures s.rows[id].opportunity == old(s.rows)[id].opportunity && ClaimOf(s.rows[id]) == ClaimOf(old(s.rows)[id])
    ensures AllCas(s) && old(s.rows)[id].opportunity.None? ==> s.rows[id].status == OfferTarget(offer)
    ensures AllCas(s) && !offer.OfferRaises? ==> !Leased(s.rows[id].status)
  {
    hide Step;
    StepStay(s.Now(), id);
    match offer {
    case OfferRaises =>
    case OfferDeferred =>
      var _ := TryMark(s, id, Admitted, now);
    case OfferDataBlocked =>
      BlockOnMissingData(s, id, now);
    case OfferNoTrade =>
      var _ := TryMark(s, id, Invalidated, now);
    }
  }

  // ---- Publication -----------------------------------------------------------------------------

  /** Foreign operations at an await of the watch's own CONVERTING lease leave all but its price alone. */
  method Pause(s: Store, id: int, ops: seq<Other>)
    requires s.Valid() && id in s.rows
    modifies s`rows, s`trails, s`order, s`cards
    ensures s.Valid() && id in s.rows && Apart(old(s.Now()), s.Now())
    ensures Aside(old(s.rows), s.rows, id) && Drifted(old(s.rows)[id], s.rows[id])
    ensures s.rows[id].status == old(s.rows)[id].status || Standing(old(s.rows)[id].status)
    ensures s.rows[id].symbol == old(s.rows)[id].symbol && s.rows[id].opportunity == old(s.rows)[id].opportunity
    ensures ClaimOf(s.rows[id]) == ClaimOf(old(s.rows)[id])
    ensures OnlyTouches(ops) ==>
      && s.cards == old(s.cards)
      && StillBut(old(s.rows), s.rows, id) && Repriced(old(s.rows)[id], s.rows[id])
    ensures ops == [] ==> s.Now() == old(s.Now())
  {
    hide Apart, Aside;
    ghost var start := s.Now();
    Await(s, ops);
    ApartIsAside(start, s.Now(), id);
    if OnlyTouches(ops) {
      StillIsStillBut(start.rows, s.rows, id);
    }
  }

  /**
    How an attempt of watch `id` whose claim is held concludes. A stored card is the one issue of the
    attempt: it is carried by the CONVERTED watch, or the watch is left CONVERTING with an incident.
   */
  ghost predicate Concluded(d: Desk, d': Desk, id: int, stored: Option<nat>, converts: bool) {
    && Issuing(d, d', id, stored) && ClaimOf(d'.rows[id]) == ClaimOf(d.rows[id])
    && d'.claims in {d.claims, d.claims - {ClaimOf(d.rows[id])}}
    && d'.rows[id].status != Revalidating
    && (d.rows[id].opportunity.None? && d'.rows[id].opportunity.Some? ==>
          d'.rows[id].status == Converted && d'.claims == d.claims)
    && (stored.Some? ==>
          && d'.claims == d.claims && d'.rows[id].status == (if converts then Converted else Converting)
          && d'.rows[id].opportunity == (if converts then stored else d.rows[id].opportunity))
  }

  /** What precedes an attempt may not touch its claim, its opportunity or the issues. */
  lemma ConcludedAfter(a: Desk, b: Desk, c: Desk, id: int, stored: Option<nat>, converts: bool)
    requires Concluded(b, c, id, stored, converts)
    requires id in a.rows && b.claims == a.claims && b.issues == a.issues && b.incidents == a.incidents
    requires ClaimOf(b.rows[id]) == ClaimOf(a.rows[id]) && b.rows[id].opportunity == a.rows[id].opportunity
    ensures Concluded(a, c, id, stored, converts)
  {
  }

  /** Foreign operations afterwards change nothing about how it concluded. */
  lemma ConcludedBefore(a: Desk, b: Desk, c: Desk, id: int, stored: Option<nat>, converts: bool)
    requires Concluded(a, b, id, stored, converts)
    requires id in c.rows && Drifted(b.rows[id], c.rows[id])
    requires c.claims == b.claims && c.issues == b.issues && c.incidents == b.incidents
    ensures Concluded(a, c, id, stored, converts)
  {
  }

  /** An ending that stores no card. */
  lemma StepConcluded(d: Desk, d': Desk, id: int, converts: bool)
    requires Step(d, d', id) && d'.claims in {d.claims, d.claims - {ClaimOf(d.rows[id])}}
    requires d'.rows[id].opportunity == d.rows[id].opportunity && ClaimOf(d'.rows[id]) == ClaimOf(d.rows[id])
    requires d'.rows[id].status != Revalidating
    ensures Concluded(d, d', id, None, converts)
  {
    hide Level, Exact, Inv, Aside, StillBut;
    StepMeans(d, d', id);
  }

  /** A card was stored, its publication did not raise, and the database accepted the CONVERTED mark. */
  ghost predicate Converts(offer: Offer, accepted: bool) {
    offer == CardStored(false) && accepted
  }

  /**
    An attempt that nothing disturbs: a card is stored exactly when its symbol has none open, the
    watch carries that card or the open one, and with every mark accepted it ends where its facts say.
   */
  ghost predicate AsPlanned(d: Desk, d': Desk, id: int, a: Attempt, stored: Option<nat>, accepted: bool) {
    && id in d.rows && id in d'.rows && StillBut(d.rows, d'.rows, id)
    && var symbol := d.rows[id].symbol;
       && d'.cards == AttemptBoard(a, d.cards, symbol)
       && stored == (if Stores(a, d.cards, symbol) then Some(|d.cards|) else None)
       && (accepted && d.rows[id].opportunity.None? ==>
             && d'.rows[id].status == AttemptTarget(a, d.cards, symbol)
             && d'.rows[id].opportunity == AttemptCard(a, d.cards, symbol))
  }

  lemma PlannedAfter(a: Desk, b: Desk, c: Desk, id: int, attempt: Attempt, stored: Option<nat>, accepted: bool)
    requires AsPlanned(b, c, id, attempt, stored, accepted) && id in a.rows && b.cards == a.cards
    requires StillBut(a.rows, b.rows, id) && b.rows[id].symbol == a.rows[id].symbol
    requires b.rows[id].opportunity == a.rows[id].opportunity
    ensures AsPlanned(a, c, id, attempt, stored, accepted)
  {
    hide StillBut, Stores, AttemptBoard, AttemptTarget, AttemptCard;
    StillButTrans(a.rows, b.rows, c.rows, id);
  }

  lemma PlannedBefore(a: Desk, b: Desk, c: Desk, id: int, attempt: Attempt, stored: Option<nat>, accepted: bool)
    requires AsPlanned(a, b, id, attempt, stored, accepted) && id in c.rows && c.cards == b.cards
    requires StillBut(b.rows, c.rows, id) && c.rows[id].status == b.rows[id].status
    requires c.rows[id].opportunity == b.rows[id].opportunity
    ensures AsPlanned(a, c, id, attempt, stored, accepted)
  {
    hide StillBut, Stores, AttemptBoard, AttemptTarget, AttemptCard;
    StillButTrans(a.rows, b.rows, c.rows, id);
  }

  /** Sweeping cards is nobody's row, claim or issue. */
  lemma WithdrawnIsApart(d: Desk, unactionable: set<nat>)
    ensures Apart(d, d.(cards := Withdrawn(d.cards, unactionable)))
  {
    hide Withdrawn, Apart;
    BoardIsApart(d, Withdrawn(d.cards, unactionable));
  }

  /** The open card of the symbol is adopted: no card is stored. */
  method Adopt(s: Store, id: int, card: nat, now: int)
    requires s.Valid() && id in s.rows && s.rows[id].status == Converting
    modifies s`rows, s`trails, s`order, s`attempts, s`incidents, s`refusals
    ensures s.Valid() && id in s.rows && Served(old(s.Now()), s.Now(), id, None)
    ensures old(s.AllRefused()) ==> s.AllRefused()
    ensures Aside(old(s.rows), s.rows, id) && StillBut(old(s.rows), s.rows, id)
    ensures forall converts :: Concluded(old(s.Now()), s.Now(), id, None, converts)
    ensures s.rows[id].status == if s.cas(old(s.attempts)) then Converted else Converting
    ensures s.rows[id].opportunity == if s.rows[id].status == Converted then Some(card) else old(s.rows)[id].opportunity
  {
    hide Served, Aside, StillBut;
    ghost var start := s.Now();
    Convert(s, id, card, now, None);
    RowIsAside(start.rows, s.rows, id);
  }

  /** An ending that stored a card. */
  lemma StoredConcluded(d: Desk, d': Desk, id: int, converts: bool)
    requires id in d.rows && id in d'.rows && d'.claims == d.claims && ClaimOf(d'.rows[id]) == ClaimOf(d.rows[id])
    requires d'.rows[id].status == if converts then Converted else Converting
    requires d'.rows[id].opportunity == if converts then Some(|d.cards|) else d.rows[id].opportunity
    requires d'.issues == d.issues + {Issue(ClaimOf(d.rows[id]), |d.cards|)}
    requires d'.incidents == d.incidents + if converts then {} else {Issue(ClaimOf(d.rows[id]), |d.cards|)}
    ensures Concluded(d, d', id, Some(|d.cards|), converts)
  {
  }

  /** What follows a stored card: a raise, or the CONVERTED mark. */
  method Finish(s: Store, id: int, card: nat, raises: bool, now: int, ghost issue: Issue)
    requires s.Valid() && id in s.rows && s.rows[id].status == Converting && issue.card == card
    modifies s`rows, s`trails, s`order, s`attempts, s`incidents, s`refusals
    ensures s.Valid() && id in s.rows && s.rows == old(s.rows)[id := s.rows[id]]
    ensures !raises && old(s.AllRefused()) ==> s.AllRefused()
    ensures s.rows[id].symbol == old(s.rows)[id].symbol
    ensures Served(old(s.Now()), s.Now(), id, Some(issue)) && ClaimOf(s.rows[id]) == ClaimOf(old(s.rows)[id])
    ensures s.attempts == old(s.attempts) + (if raises then 0 else 1)
    ensures s.rows[id].status == if !raises && s.cas(old(s.attempts)) then Converted else Converting
    ensures s.rows[id].opportunity == if s.rows[id].status == Converted then Some(card) else old(s.rows)[id].opportunity
    ensures s.incidents == old(s.incidents) + if s.rows[id].status != Converted then {issue} else {}
  {
    hide Served;
    if raises {
      IncidentServes(s.Now(), id, issue);
      s.incidents := s.incidents + {issue};
    } else {
      Convert(s, id, card, now, Some(issue));
    }
  }

  /** `seen` is the desk when the symbol was seen to have no open card. */
  method StoreAndConvert(s: Store, id: int, raises: bool, ops: seq<Other>, now: int, ghost seen: Desk)
    returns (stored: Option<nat>)
    requires s.Valid() && id in s.rows && s.rows[id].status == Converting
    requires id in seen.rows && seen.rows[id].status == Converting && Apart(seen, s.Now())
    requires BoardOk(seen.cards) && OpenCard(seen.cards, seen.rows[id].symbol).None?
    modifies s
    ensures s.Valid() && id in s.rows && Served(seen, s.Now(), id, None) && Aside(old(s.rows), s.rows, id)
    ensures !raises && old(s.AllRefused()) ==> s.AllRefused()
    ensures Concluded(old(s.Now()), s.Now(), id, stored, !raises && s.cas(old(s.attempts)))
    ensures stored == Some(|old(s.cards)|) && s.attempts == old(s.attempts) + (if raises then 0 else 1)
    ensures OnlyTouches(ops) ==>
      && StillBut(old(s.rows), s.rows, id)
      && s.cards == old(s.cards) + [Card(old(s.rows)[id].symbol, true, false)]
  {
    hide Served, Aside, StillBut, Apart, OpenCard, Drifted, Repriced, Concluded, BoardOk, Blamed;
    ghost var start := s.Now();
    var card := s.StoreCard(s.rows[id].symbol);
    ghost var issue := Issue(ClaimOf(s.rows[id]), card);
    s.issues := s.issues + {issue};
    ghost var kept := s.Now();
    assert kept == Stored(start, id);
    Pause(s, id, ops);
    ghost var notified := s.Now();
    Finish(s, id, card, raises, now, issue);
    RowIsAside(notified.rows, s.rows, id);
    AsideTrans(start.rows, notified.rows, s.rows, id);
    if OnlyTouches(ops) {
      StillButTrans(start.rows, notified.rows, s.rows, id);
    }
    ApartThenServed(kept, notified, s.Now(), id, Some(issue));
    StoreServes(seen, start, s.Now(), id);
    StoredConcluded(start, s.Now(), id, !raises && s.cas(old(s.attempts)));
    stored := Some(card);
  }

  /** The sector check and what follows, for a symbol without an open card. */
  method Offering(s: Store, id: int, offer: Offer, gaps: Gaps, now: int) returns (stored: Option<nat>)
    requires s.Valid() && id in s.rows && s.rows[id].status == Converting
    requires OpenCard(s.cards, s.rows[id].symbol).None?
    modifies s
    ensures s.Valid() && id in s.rows && Served(old(s.Now()), s.Now(), id, None) && Aside(old(s.rows), s.rows, id)
    ensures offer != CardStored(true) && old(s.AllRefused()) ==> s.AllRefused()
    ensures Concluded(old(s.Now()), s.Now(), id, stored, Converts(offer, s.cas(old(s.attempts))))
    ensures stored.Some? <==> offer.CardStored?
    ensures stored.Some? ==> s.attempts == old(s.attempts) + (if offer.raises then 0 else 1)
    ensures AllCas(s) && !offer.OfferRaises? && offer != CardStored(true) ==> !Leased(s.rows[id].status)
    ensures Undisturbed(gaps) ==>
      && StillBut(old(s.rows), s.rows, id)
      && s.cards == old(s.cards) + (if stored.Some? then [Card(old(s.rows)[id].symbol, true, false)] else [])
      && (stored.Some? ==> stored.value == |old(s.cards)|)
      && (AllCas(s) && old(s.rows)[id].opportunity.None? ==>
            && s.rows[id].status == OfferTarget(offer)
            && s.rows[id].opportunity == (if offer == CardStored(false) then stored else None))
  {
    hide Blamed, BoardOk, Served, Step, Aside, StillBut, Apart, OpenCard, Drifted, Repriced, Issuing, LeaseOk,
         Allowed;
    ghost var start := s.Now();
    Pause(s, id, gaps.sector);
    ghost var checked := s.Now();
    if offer.CardStored? {
      stored := StoreAndConvert(s, id, offer.raises, gaps.stored, now, start);
    } else {
      Decline(s, id, offer, now);
      stored := None;
      StepMeans(checked, s.Now(), id);
      StepConcluded(checked, s.Now(), id, Converts(offer, s.cas(old(s.attempts))));
      StepServed(checked, s.Now(), id);
      ApartThenServed(start, checked, s.Now(), id, None);
    }
    ConcludedAfter(start, checked, s.Now(), id, stored, Converts(offer, s.cas(old(s.attempts))));
    AsideTrans(start.rows, checked.rows, s.rows, id);
    if Undisturbed(gaps) {
      StillButTrans(start.rows, checked.rows, s.rows, id);
    }
  }

  /** The symbol has an open card after the sweep. */
  lemma AdoptPlanned(d: Desk, d': Desk, id: int, unactionable: set<nat>, offer: Offer, accepted: bool)
    requires id in d.rows && id in d'.rows && StillBut(d.rows, d'.rows, id)
    requires OpenCard(Withdrawn(d.cards, unactionable), d.rows[id].symbol).Some?
    requires d'.cards == Withdrawn(d.cards, unactionable)
    requires accepted ==>
      && d'.rows[id].status == Converted
      && d'.rows[id].opportunity == OpenCard(Withdrawn(d.cards, unactionable), d.rows[id].symbol)
    ensures AsPlanned(d, d', id, Publishes(unactionable, offer), None, accepted)
  {
    hide StillBut, OpenCard, Withdrawn;
  }

  /** It has none. */
  lemma OfferPlanned(
    d: Desk, d': Desk, id: int, unactionable: set<nat>, offer: Offer, stored: Option<nat>, accepted: bool)
    requires id in d.rows && id in d'.rows && StillBut(d.rows, d'.rows, id)
    requires OpenCard(Withdrawn(d.cards, unactionable), d.rows[id].symbol).None?
    requires stored == if offer.CardStored? then Some(|d.cards|) else None
    requires d'.cards == Withdrawn(d.cards, unactionable) +
                         if stored.Some? then [Card(d.rows[id].symbol, true, false)] else []
    requires accepted && d.rows[id].opportunity.None? ==>
      && d'.rows[id].status == OfferTarget(offer)
      && d'.rows[id].opportunity == if offer == CardStored(false) then stored else None
    ensures AsPlanned(d, d', id, Publishes(unactionable, offer), stored, accepted)
  {
    hide StillBut, OpenCard, Withdrawn, OfferTarget;
  }

  /**
    The opportunity store's part: withdraw unactionable cards, adopt the open card of the symbol,
    or check the sector and store a new one; then the steps that may still raise, and the mark.
   */
  method Publish(s: Store, id: int, unactionable: set<nat>, offer: Offer, gaps: Gaps, now: int)
    returns (stored: Option<nat>)
    requires s.Valid() && id in s.rows && s.rows[id].status == Converting
    modifies s
    ensures s.Valid() && id in s.rows && Served(old(s.Now()), s.Now(), id, None)
    ensures offer != CardStored(true) && old(s.AllRefused()) ==> s.AllRefused()
    ensures Aside(old(s.rows), s.rows, id)
    ensures Concluded(old(s.Now()), s.Now(), id, stored, Converts(offer, s.cas(old(s.attempts))))
    ensures stored.Some? ==> offer.CardStored? && s.attempts == old(s.attempts) + (if offer.raises then 0 else 1)
    ensures AllCas(s) && !Raising(Publishes(unactionable, offer)) ==> !Leased(s.rows[id].status)
    ensures Undisturbed(gaps) ==>
      AsPlanned(old(s.Now()), s.Now(), id, Publishes(unactionable, offer), stored, AllCas(s))
  {
    hide Blamed, BoardOk, Served, Step, Aside, StillBut, Apart, Withdrawn, OpenCard, Concluded, OfferTarget, AsPlanned;
    ghost var start := s.Now();
    s.WithdrawUnactionable(unactionable);
    WithdrawnIsApart(start, unactionable);
    ghost var swept := s.Now();
    RowIsAside(start.rows, s.rows, id);
    var standing := s.FindOpenCard(s.rows[id].symbol);
    if standing.Some? {
      Adopt(s, id, standing.value, now);
      stored := None;
      AdoptPlanned(start, s.Now(), id, unactionable, offer, AllCas(s));
    } else {
      stored := Offering(s, id, offer, gaps, now);
      if Undisturbed(gaps) {
        OfferPlanned(start, s.Now(), id, unactionable, offer, stored, AllCas(s));
      }
    }
    ConcludedAfter(start, swept, s.Now(), id, stored, Converts(offer, s.cas(old(s.attempts))));
    ApartThenServed(start, swept, s.Now(), id, None);
  }

  // ---- Conversion ------------------------------------------------------------------------------

  /** From the lease to the last await of the attempt. */
  method EndConverting(s: Store, id: int, attempt: Attempt, gaps: Gaps, now: int) returns (stored: Option<nat>)
    requires s.Valid() && id in s.rows && s.rows[id].status == Converting
    modifies s
    ensures s.Valid() && id in s.rows && Served(old(s.Now()), s.Now(), id, None) && Aside(old(s.rows), s.rows, id)
    ensures !Botched(attempt) && old(s.AllRefused()) ==> s.AllRefused()
    ensures Concluded(old(s.Now()), s.Now(), id, stored, !Botched(attempt) && s.cas(old(s.attempts)))
    ensures stored.Some? ==> attempt.Publishes? && attempt.offer.CardStored?
    ensures stored.Some? ==> s.attempts == old(s.attempts) + (if Botched(attempt) then 0 else 1)
    ensures AllCas(s) && !Raising(attempt) ==> !Leased(s.rows[id].status)
    ensures Undisturbed(gaps) ==> AsPlanned(old(s.Now()), s.Now(), id, attempt, stored, AllCas(s))
  {
    hide Blamed, BoardOk, Served, Step, Aside, StillBut, Apart, Issuing, Concluded, AsPlanned;
    ghost var start := s.Now();
    stored := Ending(s, id, attempt, gaps, now);
    ghost var ended := s.Now();
    Pause(s, id, gaps.last);
    ServedThenApart(start, ended, s.Now(), id, None);
    ConcludedBefore(start, ended, s.Now(), id, stored, !Botched(attempt) && s.cas(old(s.attempts)));
    AsideTrans(start.rows, ended.rows, s.rows, id);
    if Undisturbed(gaps) {
      PlannedBefore(start, ended, s.Now(), id, attempt, stored, AllCas(s));
    }
  }

  /** The awaits under the lease, then publication or one of the endings before it. */
  method Ending(s: Store, id: int, attempt: Attempt, gaps: Gaps, now: int) returns (stored: Option<nat>)
    requires s.Valid() && id in s.rows && s.rows[id].status == Converting
    modifies s
    ensures s.Valid() && id in s.rows && Served(old(s.Now()), s.Now(), id, None) && Aside(old(s.rows), s.rows, id)
    ensures !Botched(attempt) && old(s.AllRefused()) ==> s.AllRefused()
    ensures Concluded(old(s.Now()), s.Now(), id, stored, !Botched(attempt) && s.cas(old(s.attempts)))
    ensures stored.Some? ==> attempt.Publishes? && attempt.offer.CardStored?
    ensures stored.Some? ==> s.attempts == old(s.attempts) + (if Botched(attempt) then 0 else 1)
    ensures AllCas(s) && !Raising(attempt) ==> !Leased(s.rows[id].status)
    ensures Undisturbed(gaps) ==> AsPlanned(old(s.Now()), s.Now(), id, attempt, stored, AllCas(s))
  {
    hide Blamed, BoardOk, Served, Step, Aside, StillBut, Apart, Issuing, Concluded, AsPlanned;
    ghost var start := s.Now();
    Pause(s, id, gaps.converting);
    ghost var reached := s.Now();
    if attempt.Publishes? {
      stored := Publish(s, id, attempt.unactionable, attempt.offer, gaps, now);
      ConcludedConverts(reached, s.Now(), id, stored, attempt, s.cas(old(s.attempts)));
    } else {
      GiveUp(s, id, attempt, now);
      stored := None;
      GivenUp(reached, s.Now(), id, attempt, s.cas(old(s.attempts)), AllCas(s));
    }
    ApartThenServed(start, reached, s.Now(), id, None);
    ConcludedAfter(start, reached, s.Now(), id, stored, !Botched(attempt) && s.cas(old(s.attempts)));
    AsideTrans(start.rows, reached.rows, s.rows, id);
    if Undisturbed(gaps) {
      PlannedAfter(start, reached, s.Now(), id, attempt, stored, AllCas(s));
    }
  }

  lemma GivenUp(d: Desk, d': Desk, id: int, attempt: Attempt, accepted: bool, all: bool)
    requires Step(d, d', id) && d'.claims == d.claims && !attempt.Publishes?
    requires d'.rows[id].opportunity == d.rows[id].opportunity && ClaimOf(d'.rows[id]) == ClaimOf(d.rows[id])
    requires d'.rows[id].status != Revalidating
    requires all ==> d'.rows[id].status == AttemptTarget(attempt, d'.cards, d'.rows[id].symbol)
    ensures Aside(d.rows, d'.rows, id) && Served(d, d', id, None)
    ensures Concluded(d, d', id, None, !Botched(attempt) && accepted)
    ensures AsPlanned(d, d', id, attempt, None, all)
    ensures all && !Raising(attempt) ==> !Leased(d'.rows[id].status)
  {
    hide Level, Exact, Inv, Served, Aside, StillBut, Concluded;
    StepServed(d, d', id);
    StepMeans(d, d', id);
    StepConcluded(d, d', id, !Botched(attempt) && accepted);
  }

  lemma ConcludedConverts(d: Desk, d': Desk, id: int, stored: Option<nat>, attempt: Attempt, accepted: bool)
    requires attempt.Publishes? && Concluded(d, d', id, stored, Converts(attempt.offer, accepted))
    requires stored.Some? ==> attempt.offer.CardStored?
    ensures Concluded(d, d', id, stored, !Botched(attempt) && accepted)
  {
  }

  /** CONVERTING, then publish or back out. The caller holds the admission claim. */
  method PublishAdmitted(s: Store, id: int, attempt: Attempt, gaps: Gaps, now: int) returns (stored: Option<nat>)
    requires s.Valid() && id in s.rows && s.rows[id].status == Admitted
    modifies s
    ensures s.Valid() && id in s.rows && Served(old(s.Now()), s.Now(), id, None) && Aside(old(s.rows), s.rows, id)
    ensures !Botched(attempt) && old(s.AllRefused()) ==> s.AllRefused()
    ensures Concluded(old(s.Now()), s.Now(), id, stored, !Botched(attempt) && s.cas(old(s.attempts) + 1))
    ensures stored.Some? ==> attempt.Publishes? && attempt.offer.CardStored? && s.cas(old(s.attempts))
    ensures stored.Some? ==> s.attempts == old(s.attempts) + (if Botched(attempt) then 1 else 2)
    ensures AllCas(s) && !Raising(attempt) ==> !Leased(s.rows[id].status)
    ensures Undisturbed(gaps) && s.cas(old(s.attempts)) ==>
      AsPlanned(old(s.Now()), s.Now(), id, attempt, stored, AllCas(s))
    ensures Undisturbed(gaps) && !s.cas(old(s.attempts)) ==> stored.None? && StillBut(old(s.rows), s.rows, id)
  {
    hide Blamed, BoardOk, Served, Step, Aside, StillBut, Concluded, AsPlanned;
    ghost var start := s.Now();
    var claimed := TryMark(s, id, Converting, now);
    ghost var leased := s.Now();
    StepMeans(start, leased, id);
    if !claimed {
      stored := None;
      StepServed(start, leased, id);
      StepConcluded(start, leased, id, !Botched(attempt) && s.cas(old(s.attempts) + 1));
      return;
    }
    stored := EndConverting(s, id, attempt, gaps, now);
    StepThenServed(start, leased, s.Now(), id, None);
    ConcludedAfter(start, leased, s.Now(), id, stored, !Botched(attempt) && s.cas(old(s.attempts) + 1));
    AsideTrans(start.rows, leased.rows, s.rows, id);
    if Undisturbed(gaps) {
      PlannedAfter(start, leased, s.Now(), id, attempt, stored, AllCas(s));
    }
  }

  /**
    One attempt to publish an ADMITTED watch. The claim is taken first and is free again afterwards
    on every path that left the watch without an opportunity, whatever else ran at the awaits.
   */
  method AttemptConversion(s: Store, id: int, attempt: Attempt, gaps: Gaps, now: int) returns (stored: Option<nat>)
    requires s.Valid() && id in s.rows && s.rows[id].status == Admitted
    modifies s
    ensures s.Valid() && id in s.rows && Move(old(s.Now()), s.Now(), id)
    ensures !Botched(attempt) && old(s.AllRefused()) ==> s.AllRefused()
    ensures Issuing(old(s.Now()), s.Now(), id, stored) && ClaimOf(s.rows[id]) == ClaimOf(old(s.rows)[id])
    ensures s.rows[id].status != Revalidating
    ensures old(s.rows)[id].opportunity.None? ==>
      s.claims == old(s.claims) + (if s.rows[id].opportunity.Some? then {ClaimOf(old(s.rows)[id])} else {})
    ensures stored.Some? ==>
      var converts := !Botched(attempt) && s.cas(old(s.attempts) + 1);
      && attempt.Publishes? && attempt.offer.CardStored? && s.cas(old(s.attempts))
      && s.attempts == old(s.attempts) + (if Botched(attempt) then 1 else 2)
      && s.rows[id].status == (if converts then Converted else Converting)
      && s.rows[id].opportunity == (if converts then stored else old(s.rows)[id].opportunity)
    ensures AllCas(s) && !Raising(attempt) ==> !Leased(s.rows[id].status)
    ensures Undisturbed(gaps) && ClaimOf(old(s.rows)[id]) !in old(s.claims) && s.cas(old(s.attempts)) ==>
      AsPlanned(old(s.Now()), s.Now(), id, attempt, stored, AllCas(s))
  {
    hide Blamed, BoardOk, Aside, StillBut, Onward, AsPlanned, Issuing;
    ghost var start := s.Now();
    var won := s.ClaimAdmission(ClaimOf(s.rows[id]));
    if won {
      stored := ClaimedConversion(s, id, attempt, gaps, now, start);
    } else {
      assert s.claims == start.claims;
      NothingIssued(start, id);
      StepStay(start, id);
      StepIsMove(start, s.Now(), id);
      stored := None;
    }
  }

  /** The attempt under a claim just taken, and its release; `start` is the desk before the claim. */
  method ClaimedConversion(s: Store, id: int, attempt: Attempt, gaps: Gaps, now: int, ghost start: Desk)
    returns (stored: Option<nat>)
    requires s.Valid() && id in s.rows && s.rows[id].status == Admitted
    requires s.rows == start.rows && ClaimOf(s.rows[id]) !in start.claims
    requires s.Now() == start.(claims := start.claims + {ClaimOf(s.rows[id])})
    modifies s
    ensures s.Valid() && id in s.rows && Onward(start, s.Now()) && Aside(start.rows, s.rows, id)
    ensures !Botched(attempt) && old(s.AllRefused()) ==> s.AllRefused()
    ensures Issuing(start, s.Now(), id, stored) && ClaimOf(s.rows[id]) == ClaimOf(start.rows[id])
    ensures s.rows[id].status != Revalidating
    ensures start.rows[id].opportunity.None? ==>
      s.claims == start.claims + (if s.rows[id].opportunity.Some? then {ClaimOf(start.rows[id])} else {})
    ensures stored.Some? ==>
      var converts := !Botched(attempt) && s.cas(old(s.attempts) + 1);
      && attempt.Publishes? && attempt.offer.CardStored? && s.cas(old(s.attempts))
      && s.attempts == old(s.attempts) + (if Botched(attempt) then 1 else 2)
      && s.rows[id].status == (if converts then Converted else Converting)
      && s.rows[id].opportunity == (if converts then stored else start.rows[id].opportunity)
    ensures AllCas(s) && !Raising(attempt) ==> !Leased(s.rows[id].status)
    ensures Undisturbed(gaps) && s.cas(old(s.attempts)) ==>
      AsPlanned(start, s.Now(), id, attempt, stored, AllCas(s))
  {
    hide Blamed, BoardOk, Served, Aside, StillBut, Onward, AsPlanned, Concluded, Issuing, Undisturbed, AllCas, Raising;
    ghost var held := s.Now();
    stored := PublishAdmitted(s, id, attempt, gaps, now);
    ghost var ended := s.Now();
    ClaimedOnward(start, ended, id);
    var _ := s.ReleaseIfUnpublished(s.rows[id]);
    assert s.Now() == Released(ended, id);
    ConcludedReleases(start, ended, id, stored, !Botched(attempt) && s.cas(old(s.attempts) + 1));
    if Undisturbed(gaps) && s.cas(old(s.attempts)) {
      PlannedClaims(held, ended, start, s.Now(), id, attempt, stored, AllCas(s));
    }
  }

  lemma NothingIssued(d: Desk, id: int)
    requires id in d.rows
    ensures Issuing(d, d, id, None)
  {
  }

  /** How a concluded attempt looks once its claim is released unless earned. */
  lemma ConcludedReleases(d: Desk, d': Desk, id: int, stored: Option<nat>, converts: bool)
    requires id in d.rows && ClaimOf(d.rows[id]) !in d.claims
    requires Concluded(d.(claims := d.claims + {ClaimOf(d.rows[id])}), d', id, stored, converts)
    ensures id in d'.rows && Issuing(d, Released(d', id), id, stored)
    ensures ClaimOf(d'.rows[id]) == ClaimOf(d.rows[id]) && d'.rows[id].status != Revalidating
    ensures d.rows[id].opportunity.None? ==>
      Released(d', id).claims ==
        d.claims + (if d'.rows[id].opportunity.Some? then {ClaimOf(d.rows[id])} else {})
    ensures stored.Some? ==>
      && d'.rows[id].status == (if converts then Converted else Converting)
      && d'.rows[id].opportunity == (if converts then stored else d.rows[id].opportunity)
  {
  }

  /** Plans do not depend on claims. */
  lemma PlannedClaims(
    a: Desk, b: Desk, a': Desk, b': Desk, id: int, attempt: Attempt, stored: Option<nat>, accepted: bool)
    requires AsPlanned(a, b, id, attempt, stored, accepted)
    requires a'.rows == a.rows && a'.cards == a.cards && b'.rows == b.rows && b'.cards == b.cards
    ensures AsPlanned(a', b', id, attempt, stored, accepted)
  {
    hide StillBut, Stores, AttemptBoard, AttemptTarget, AttemptCard;
  }

  /** Conversion of an admitted watch: without an admission of this very pass it starts over. */
  method ConvertAdmitted(s: Store, id: int, authorized: bool, attempt: Attempt, gaps: Gaps, now: int)
    requires s.Valid() && id in s.rows
    modifies s
    ensures s.Valid() && id in s.rows && Move(old(s.Now()), s.Now(), id)
    ensures !Botched(attempt) && old(s.AllRefused()) ==> s.AllRefused()
    ensures old(s.rows)[id].status != Revalidating ==> s.rows[id].status != Revalidating
    ensures old(s.rows)[id].status != Admitted ==> s.Now() == old(s.Now())
    ensures !authorized ==> s.issues == old(s.issues) && s.cards == old(s.cards) && StillBut(old(s.rows), s.rows, id)
    ensures old(s.rows)[id].status == Admitted && !authorized ==> s.rows[id].status == Deferred(old(s.rows)[id])
    ensures AllCas(s) && !Botched(attempt) ==> s.incidents == old(s.incidents)
    ensures AllCas(s) && !Raising(attempt) && !Leased(old(s.rows)[id].status) ==> !Leased(s.rows[id].status)
    ensures authorized && old(s.rows)[id].status == Admitted ==>
      AllCas(s) && Exact(old(s.Now())) && Undisturbed(gaps) ==>
      var (cards, symbol) := (old(s.cards), old(s.rows)[id].symbol);
      && s.rows[id].status == AttemptTarget(attempt, cards, symbol) && s.cards == AttemptBoard(attempt, cards, symbol)
      && StillBut(old(s.rows), s.rows, id)
  {
    hide Blamed, BoardOk, Step, Move, Exact, StillBut, Stores, AttemptBoard, AttemptTarget;
    ghost var start := s.Now();
    StepStay(start, id);
    StepMeans(start, start, id);
    StepIsMove(start, start, id);
    if s.rows[id].status != Admitted {
      return;
    }
    if !authorized {
      DeferToRecovery(s, id, now);
      StepIsMove(start, s.Now(), id);
      StepMeans(start, s.Now(), id);
      return;
    }
    if Exact(start) {
      ExactMeansFree(start, id);
    }
    var _ := AttemptConversion(s, id, attempt, gaps, now);
  }
}
