/**
  The approval bundle over the in-memory stores: the same checks as the SQL path, but every store
  writes at once, so a refusal after the claim is not undone.
 */
module ApprovalMemory {
  import opened Basics
  import opened Wrappers
  import opened ApprovalRecords
  import opened ApprovalDesk

  // ---- Retries -----------------------------------------------------------------------------------

  /** The fingerprint an intent was made with: its own, or that of its record. */
  function MadeWith(records: map<int, Record>, live: Intent): string {
    if live.fingerprint != "" then live.fingerprint
    else if live.record in records then records[live.record].fingerprint
    else ""
  }

  /** The request is the click of this intent, or, when one of them names no click, its geometry. */
  ghost predicate SameClick(records: map<int, Record>, req: Request, live: Intent) {
    if req.request.Some? && live.request.Some?
    then live.request == req.request && MadeWith(records, live) in {"", req.fingerprint}
    else live.geometry == req.geometry
  }

  /** One click is one fingerprint: the intent's, or its record's where the intent has none, or none at all. */
  predicate OneFingerprint(records: map<int, Record>, req: Request, live: Intent) {
    || (live.fingerprint != "" && live.fingerprint == req.fingerprint)
    || (live.fingerprint == "" && live.record !in records)
    || (live.fingerprint == "" && live.record in records && records[live.record].fingerprint in {"", req.fingerprint})
  }

  lemma SameClickMeans(records: map<int, Record>, req: Request, live: Intent)
    ensures req.request.Some? && live.request.Some? ==>
      (SameClick(records, req, live) <==> live.request == req.request && OneFingerprint(records, req, live))
    ensures req.request.None? || live.request.None? ==>
      (SameClick(records, req, live) <==> live.geometry == req.geometry)
  {
  }

  /** The card is relinked to the intent's record, before authority is checked. */
  ghost predicate Relinks(records: map<int, Record>, req: Request, live: Intent) {
    SameClick(records, req, live) && live.record in records && records[live.record].fingerprint in {"", req.fingerprint}
  }

  ghost function Relinked(records: map<int, Record>, c: Card, req: Request, live: Intent, now: int): Card {
    if Relinks(records, req, live) then Linked(c, records[live.record].id, req, now) else c
  }

  /** The retry goes through: record, relinked card and intent agree on every point, before expiry. */
  ghost predicate Retried(records: map<int, Record>, c: Card, req: Request, live: Intent, now: int) {
    && Relinks(records, req, live) && Agrees(records[live.record], Relinked(records, c, req, live, now), live)
    && now < records[live.record].expiresAt
  }

  /** On sound books, a retry goes through in memory exactly where it does in SQL. */
  lemma RetriedIsReuse(b: Books, req: Request, live: Intent, now: int)
    requires Sound(b) && live in b.intents && live.card == req.card && Unresolved(live.status)
    ensures live.card in b.cards
    ensures Retried(b.records, Claimed(b.cards[live.card], now), req, live, now) <==> Retries(b, req, live, now)
  {
    assert Backed(b, live);
  }

  /** A refusal that leaves the stores alone: before the claim, or on a claimed card it does not relink. */
  ghost predicate Untouched(b: Books, req: Request, now: int) {
    !Admissible(b, req) ||
    (b.cards[req.card].status == Approving &&
     var live := LiveOf(PriorOf(b.intents, req.card));
     live.Some? ==> Relinked(b.records, b.cards[req.card], req, live.value, now) == b.cards[req.card])
  }

  class MemoryDesk {
    var cards: map<int, Card>
    var records: map<int, Record>
    var intents: seq<Intent>
    var nextId: int

    ghost function Now(): Books
      reads this
    {
      Books(cards, records, intents)
    }

    constructor ()
      ensures Now() == Books(map[], map[], []) && nextId == 0
    {
      cards, records, intents, nextId := map[], map[], [], 0;
    }

    method Put(c: Card)
      modifies this`cards
      ensures cards == old(cards)[c.id := c]
    {
      cards := cards[c.id := c];
    }

    /** An unresolved intent exists: relink the card, then check authority. */
    method Reuse(req: Request, live: Intent, now: int) returns (r: Result<Bundle, Error>)
      requires req.card in cards && cards[req.card].id == req.card && cards[req.card].status == Approving
      modifies this`cards
      ensures req.card in cards && cards[req.card].id == req.card && cards[req.card].status == Approving
      ensures cards == old(cards)[req.card := Relinked(records, old(cards)[req.card], req, live, now)]
      ensures r.Ok? <==> Retried(records, old(cards)[req.card], req, live, now)
      ensures r.Ok? ==> live.record in records && r.value == Bundle(cards[req.card], records[live.record], live, false)
      ensures r.Err? ==> (r.error.Unauthorized? <==> Relinks(records, req, live))
      ensures r.Ok? ==> CardWritten(old(cards)[req.card], r.value.card, req, r.value.record.id, false, now)
      ensures Relinks(records, req, live) ==>
        CardWritten(old(cards)[req.card], cards[req.card], req, records[live.record].id, false, now)
      ensures r.Err? ==> RetryWarranted(records, live, req, r.error)
    {
      hide Authority, Agrees, CardWritten;
      if live.record in records {
        LinkedIsWritten(cards[req.card], records[live.record].id, req, false, now);
      }
      assert cards == cards[req.card := cards[req.card]];
      if req.request.Some? && live.request.Some? {
        if live.request != req.request {
          return Err(EntryInFlight);
        }
        var made := MadeWith(records, live);
        if made != "" && made != req.fingerprint {
          return Err(IdempotencyConflict);
        }
      } else if live.geometry != req.geometry {
        return Err(IntentGeometryMismatch);
      }
      if live.record !in records {
        return Err(RecordMissing);
      }
      var record := records[live.record];
      if record.fingerprint != "" && record.fingerprint != req.fingerprint {
        return Err(if req.request.Some? && live.request == req.request then IdempotencyConflict
            else RecordFingerprintMismatch);
      }
      var card := Linked(cards[req.card], record.id, req, now);
      Put(card);
      AuthorityMeansAgreement(record, card, live, now);
      var refusal := Authority(record, card, live, now);
      if refusal.Some? {
        return Err(Unauthorized(refusal.value));
      }
      return Ok(Bundle(card, record, live, false));
    }

    /** A first approval: the record, the link and the intent are each stored before the next check. */
    method Create(req: Request, now: int) returns (r: Result<Bundle, Error>)
      requires req.card in cards && cards[req.card].id == req.card && cards[req.card].status == Approving
      modifies this
      ensures req.card in cards && cards[req.card].id == req.card && cards[req.card].status == Approving
      ensures cards.Keys == old(cards.Keys) && forall j | j in cards && j != req.card :: cards[j] == old(cards)[j]
      ensures Extends(old(intents), intents, req.card)
      ensures r.Ok? ==>
        && r.value.created && r.value.card == cards[req.card]
        && CardWritten(old(cards)[req.card], r.value.card, req, r.value.record.id, true, now)
        && |intents| > 0 && r.value.intent == intents[|intents| - 1]
        && IntentMade(r.value.intent, req, r.value.record.id)
      ensures Unrecorded(old(records), req.card) && req.request.Some? && req.geometry != "" ==>
        var (record, intent) := (NewRecord(old(nextId), req, now), NewIntent(old(nextId) + 1, old(nextId), req));
        var card := Policed(Linked(old(cards)[req.card], old(nextId), req, now), req.exitPolicy);
        && Now() == Books(old(cards)[req.card := card], old(records)[old(nextId) := record], old(intents) + [intent])
        && r == (var refusal := Authority(record, card, intent, now);
                 if refusal.None? then Ok(Bundle(card, record, intent, true)) else Err(Unauthorized(refusal.value)))
      ensures r.Err? ==> FirstWarranted(old(records), req, r.error, now)
    {
      hide Authority, CardWritten, IntentMade, Recorded, FirstWarranted;
      ChainWarranted(records, req, now);
      var recorded := RecordInSession(records, req, nextId, now);
      if recorded.Err? {
        return Err(recorded.error);
      }
      var record := recorded.value;
      LinkedIsWritten(cards[req.card], record.id, req, true, now);
      NewIsMade(nextId + 1, record.id, req, now);
      assert Claimed(cards[req.card], now) == cards[req.card];
      records := records[record.id := record];
      var card := Policed(Linked(cards[req.card], record.id, req, now), req.exitPolicy);
      Put(card);
      if req.geometry == "" {
        return Err(IntentNeedsAdmission);
      }
      var intent := NewIntent(nextId + 1, record.id, req);
      intents, nextId := intents + [intent], nextId + 2;
      var refusal := Authority(record, card, intent, now);
      if refusal.Some? {
        return Err(Unauthorized(refusal.value));
      }
      return Ok(Bundle(card, record, intent, true));
    }

    /**
      One attempt. A refusal leaves the stores alone exactly when it comes before the claim, or falls
      on a card already APPROVING whose link it does not rewrite. Any other refusal leaves the card
      APPROVING, claimed or relinked by a request that was refused.
     */
    method Commit(req: Request, now: int) returns (r: Result<Bundle, Error>)
      requires forall id | id in cards :: cards[id].id == id
      modifies this
      ensures forall id | id in cards :: cards[id].id == id
      ensures !Admissible(old(Now()), req) ==> r.Err? && Now() == old(Now())
      ensures Admissible(old(Now()), req) ==> req.card in cards && cards[req.card].status == Approving
      ensures r.Err? && (req.card in old(cards) ==> old(cards)[req.card].status != Approving) ==>
        (Now() == old(Now()) <==> !Admissible(old(Now()), req))
      ensures r.Err? ==> (Now() == old(Now()) <==> Untouched(old(Now()), req, now))
      ensures Admissible(old(Now()), req) ==> Decided(old(Now()), Now(), req, now, r)
      // Field by field, what a success wrote.
      ensures r.Ok? ==>
        && req.card in old(cards) && req.card in cards && r.value.card == cards[req.card]
        && CardWritten(old(cards)[req.card], r.value.card, req, r.value.record.id, r.value.created, now)
        && (forall j | j in cards && j != req.card :: j in old(cards) && cards[j] == old(cards)[j])
        && (r.value.created ==>
              |intents| > 0 && r.value.intent == intents[|intents| - 1] &&
              IntentMade(r.value.intent, req, r.value.record.id))
      // Torn or not, no card ever gets a second entry intent.
      ensures OneEach(old(intents)) ==> OneEach(intents)
      // A first approval of a complete request stores its entry intent even when it is refused.
      ensures FirstOf(old(Now()), req) ==>
        && Now() == Approved(old(Now()), req, old(nextId), old(nextId) + 1, now)
        && (r.Ok? <==> CanCreate(old(Now()), req)) && (r.Err? ==> r.error.Unauthorized?)
        && (r.Ok? ==> r.value == Bundle(cards[req.card], records[old(nextId)], intents[|intents| - 1], true))
      ensures r.Err? ==> Warranted(old(Now()), req, r.error, now)
    {
      hide FirstWarranted, RetryWarranted, CanCreate, Decided, Approved, Untouched, Unrecorded, HasIntent;
      hide CardWritten, IntentMade;
      ghost var before := Now();
      UntouchedStart(before, req, now);
      if req.environment != "paper" {
        return Err(EnvironmentBlocked);
      }
      if req.account == "" {
        return Err(AccountRequired);
      }
      if req.card !in cards || cards[req.card].status !in {Awaiting, Approving} {
        return Err(MissingOrClaimed);
      }
      if cards[req.card].version != req.version {
        return Err(StaleVersion);
      }
      r := Decide(req, now);
      UntouchedMeans(before, Now(), req, now, r);
    }

    /** The claim, and what follows it. */
    method Decide(req: Request, now: int) returns (r: Result<Bundle, Error>)
      requires (forall id | id in cards :: cards[id].id == id) && Admissible(Now(), req)
      modifies this
      ensures forall id | id in cards :: cards[id].id == id
      ensures req.card in cards && cards[req.card].status == Approving
      ensures Decided(old(Now()), Now(), req, now, r)
      ensures r.Ok? ==> Wrote(old(Now()), Now(), req, r.value, now)
      ensures OneEach(old(intents)) ==> OneEach(intents)
      ensures FirstOf(old(Now()), req) ==>
        && Now() == Approved(old(Now()), req, old(nextId), old(nextId) + 1, now)
        && (r.Ok? <==> CanCreate(old(Now()), req)) && (r.Err? ==> r.error.Unauthorized?)
        && (r.Ok? ==> r.value == Bundle(cards[req.card], records[old(nextId)], intents[|intents| - 1], true))
      ensures r.Err? ==> Warranted(old(Now()), req, r.error, now)
    {
      hide Authority, NewRecord, NewIntent, Linked, Matches, Relinked, Retried, Relinks, PriorOf, LiveOf, CanCreate,
           Approved, FirstOf, CardWritten, IntentMade, FirstWarranted, RetryWarranted;
      RelinkedKeeps(records, req, now);
      FirstOfMeans(Now(), req);
      ghost var before := Now();
      var already := cards[req.card].status == Approving;
      if !already {
        Put(Claimed(cards[req.card], now));
      }
      assert Now() == before.(cards := before.cards[req.card := Claimed(before.cards[req.card], now)]);
      var existing := Prior(intents, req.card);
      var live := FirstUnresolved(existing);
      if live.Some? {
        r := Reuse(req, live.value, now);
        if r.Ok? {
          ClaimedThenWritten(before.cards[req.card], r.value.card, req, r.value.record.id, false, now);
        }
        return;
      }
      if existing != [] {
        assert existing[0] in existing;
        return Err(EntryIntentExists);
      }
      assert forall i | i in intents :: i.card == req.card ==> i in existing;
      if already {
        return Err(StillApproving);
      }
      r := Approve(req, now, before);
    }

    /** The first approval of a card just claimed; `before` is the desk before the claim. */
    method Approve(req: Request, now: int, ghost before: Books) returns (r: Result<Bundle, Error>)
      requires (forall id | id in before.cards :: before.cards[id].id == id) && Admissible(before, req)
      requires before.cards[req.card].status == Awaiting && !HasIntent(intents, req.card)
      requires Now() == before.(cards := before.cards[req.card := Claimed(before.cards[req.card], now)])
      modifies this
      ensures forall id | id in cards :: cards[id].id == id
      ensures req.card in cards && cards[req.card].status == Approving
      ensures r.Ok? ==> Wrote(before, Now(), req, r.value, now)
      ensures OneEach(old(intents)) ==> OneEach(intents)
      ensures FirstOf(before, req) ==>
        && Now() == Approved(before, req, old(nextId), old(nextId) + 1, now)
        && (r.Ok? <==> CanCreate(before, req)) && (r.Err? ==> r.error.Unauthorized?)
        && (r.Ok? ==> r.value == Bundle(cards[req.card], records[old(nextId)], intents[|intents| - 1], true))
      ensures r.Err? ==> FirstWarranted(before.records, req, r.error, now)
    {
      hide Authority, NewRecord, NewIntent, Linked, Matches, CardWritten, IntentMade, FirstWarranted;
      NewIsAuthorized(cards[req.card], req, nextId, nextId + 1, now);
      r := Create(req, now);
      if r.Ok? {
        ClaimedThenWritten(before.cards[req.card], r.value.card, req, r.value.record.id, true, now);
      }
      ExtendsKeepsOne(old(intents), intents, req.card);
      assert FirstOf(before, req) ==>
          Now() == Approved(before, req, old(nextId), old(nextId) + 1, now);
    }
  }

  /** What a success wrote, from the desk before the claim. */
  ghost predicate Wrote(b: Books, b': Books, req: Request, bundle: Bundle, now: int) {
    && req.card in b.cards && req.card in b'.cards && bundle.card == b'.cards[req.card]
    && CardWritten(b.cards[req.card], bundle.card, req, bundle.record.id, bundle.created, now)
    && (forall j | j in b'.cards && j != req.card :: j in b.cards && b'.cards[j] == b.cards[j])
    && (bundle.created ==>
          |b'.intents| > 0 && bundle.intent == b'.intents[|b'.intents| - 1] &&
          IntentMade(bundle.intent, req, bundle.record.id))
  }

  /** Claiming first and linking afterwards writes what one step would. */
  lemma ClaimedThenWritten(c: Card, after: Card, req: Request, record: int, created: bool, now: int)
    requires CardWritten(Claimed(c, now), after, req, record, created, now)
    ensures CardWritten(c, after, req, record, created, now)
  {
    hide NearestTick;
  }

  /** At most one intent more, and that one for this card. */
  ghost predicate Extends(intents: seq<Intent>, intents': seq<Intent>, card: int) {
    || intents' == intents
    || (|intents'| == |intents| + 1 && intents'[..|intents|] == intents && intents'[|intents|].card == card)
  }

  lemma ExtendsKeepsOne(intents: seq<Intent>, intents': seq<Intent>, card: int)
    requires Extends(intents, intents', card) && !HasIntent(intents, card)
    ensures OneEach(intents) ==> OneEach(intents')
  {
    if OneEach(intents) && intents' != intents {
      forall j, k | 0 <= j < k < |intents'| ensures intents'[j].card != intents'[k].card {
        assert intents'[j] == intents[j] && intents[j] in intents;
      }
    }
  }

  lemma FirstOfMeans(b: Books, req: Request)
    ensures FirstOf(b, req) ==>
      Admissible(b, req) && b.cards[req.card].status == Awaiting && !HasIntent(b.intents, req.card)
  {
  }

  /** Relinking changes neither the identity nor the status of a card. */
  lemma RelinkedKeeps(records: map<int, Record>, req: Request, now: int)
    ensures forall c, live ::
      Relinked(records, c, req, live, now).id == c.id && Relinked(records, c, req, live, now).status == c.status
  {
  }

  lemma UntouchedStart(b: Books, req: Request, now: int)
    ensures !Admissible(b, req) ==> Untouched(b, req, now)
  {
  }

  /** What the decision comes to, for an unresolved intent and for a card that cannot be approved anew. */
  ghost predicate Decided(b: Books, b': Books, req: Request, now: int, r: Result<Bundle, Error>) {
    && req.card in b.cards
    && var (live, c) := (LiveOf(PriorOf(b.intents, req.card)), Claimed(b.cards[req.card], now));
       if live.Some? then
         && b' == b.(cards := b.cards[req.card := Relinked(b.records, c, req, live.value, now)])
         && (r.Ok? <==> Retried(b.records, c, req, live.value, now))
         && (r.Err? ==> (r.error.Unauthorized? <==> Relinks(b.records, req, live.value)))
       else
         HasIntent(b.intents, req.card) || b.cards[req.card].status == Approving ==>
           && r == Err(if HasIntent(b.intents, req.card) then EntryIntentExists else StillApproving)
           && b' == b.(cards := b.cards[req.card := c])
  }

  lemma UntouchedMeans(b: Books, b': Books, req: Request, now: int, r: Result<Bundle, Error>)
    requires Admissible(b, req) && Decided(b, b', req, now, r)
    requires req.card in b'.cards && b'.cards[req.card].status == Approving
    ensures b' == b <==> Untouched(b, req, now)
  {
    hide Relinked, Retried, Relinks, PriorOf, LiveOf;
    var c := b.cards[req.card];
    assert b.cards == b.cards[req.card := c];
  }

  /** A complete request for a card nobody has tried to approve. */
  ghost predicate FirstOf(b: Books, req: Request) {
    && Admissible(b, req) && b.cards[req.card].status == Awaiting
    && !HasIntent(b.intents, req.card) && Unrecorded(b.records, req.card)
    && req.request.Some? && req.geometry != ""
  }

  /** One refused BUY is enough: the card stays claimed, and an entry intent is left behind. */
  method RefusalLeavesAnIntent() returns (d: MemoryDesk, r: Result<Bundle, Error>)
    ensures r.Err? && r.error.Unauthorized? && |d.intents| == 1
    ensures 1 in d.cards && d.cards[1].status == Approving
  {
    d := new MemoryDesk();
    d.Put(Card(1, "ACME", Awaiting, 0, 0, None, None, None, None, None, None));
    var req := Request(1, "ACME", 0, "g", Admission(false, false, true), Evidence(None, None, None),
                       "paper", "PA1", 1.0, 10.0, 9.0, Some(7), "f", None);
    assert FirstOf(d.Now(), req) && !CanCreate(d.Now(), req);
    r := d.Commit(req, 0);
  }

  lemma OnlyIntentIsLive(i: Intent)
    requires Unresolved(i.status)
    ensures LiveOf(PriorOf([i], i.card)) == Some(i)
  {
    assert PriorOf([i], i.card) == [i];
    assert [i][..0] == [];
  }

  const CLICK: Request :=
    Request(1, "ACME", 0, "g", Admission(true, true, true), Evidence(None, None, None),
            "paper", "PA1", 1.0, 10.0, 9.0, Some(7), "f", None)

  /** A desk whose one card was approved by that click at time zero. */
  method ApprovedOnce() returns (d: MemoryDesk, first: Result<Bundle, Error>)
    ensures fresh(d) && first.Ok? && first.value.card.approvedAt == Some(0) && first.value.card.status == Approving
    ensures first.value.card == Linked(first.value.card, 0, CLICK, 0)
    ensures first.value.card.id == 1 && first.value.card.version == 0
    ensures d.cards == map[1 := first.value.card] && d.records == map[0 := NewRecord(0, CLICK, 0)]
    ensures d.intents == [NewIntent(1, 0, CLICK)]
  {
    d := new MemoryDesk();
    d.Put(Card(1, "ACME", Awaiting, 0, 0, None, None, None, None, None, None));
    assert FirstOf(d.Now(), CLICK) && CanCreate(d.Now(), CLICK);
    first := d.Commit(CLICK, 0);
  }

  /**
    A retry is enough, too: approved once, clicked again when the record has expired, the same
    request is refused, and the refusal has moved the approval time of the card.
   */
  method ExpiredRetryRelinks() returns (d: MemoryDesk, first: Result<Bundle, Error>, again: Result<Bundle, Error>)
    ensures first.Ok? && first.value.card.approvedAt == Some(0)
    ensures again.Err? && again.error.Unauthorized?
    ensures 1 in d.cards && d.cards[1] == first.value.card.(approvedAt := Some(RECORD_TTL))
  {
    hide PriorOf, LiveOf, Agrees, Untouched;
    d, first := ApprovedOnce();
    OnlyIntentIsLive(d.intents[0]);
    again := d.Commit(CLICK, RECORD_TTL);
  }
}
