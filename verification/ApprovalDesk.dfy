/**
  The SQL approval bundle: claim, admission record, link and entry intent in one transaction, and
  the other writers of the same tables. Identifiers are drawn from a counter, fingerprints are opaque.
 */
module ApprovalDesk {
  import opened Basics
  import opened Wrappers
  import opened ApprovalRecords

  datatype Books = Books(cards: map<int, Card>, records: map<int, Record>, intents: seq<Intent>)

  type Fingerprint = s: string | |s| > 0 witness "f"

  datatype Request = Request(
    card: int, symbol: string, version: int, geometry: string, admission: Admission, evidence: Evidence,
    environment: string, account: string, qty: real, limit: real, stop: real,
    request: Option<int>, fingerprint: Fingerprint, exitPolicy: Option<string>)

  datatype Bundle = Bundle(card: Card, record: Record, intent: Intent, created: bool)

  datatype Error =
    | EnvironmentBlocked | AccountRequired | MissingOrClaimed | StaleVersion | EntryInFlight | IdempotencyConflict
    | IntentGeometryMismatch | RecordMissing | RecordFingerprintMismatch | EntryIntentExists | StillApproving
    | RecordExpired | EvaluationMismatch | RequestIdRequired | IntentNeedsAdmission | Unauthorized(why: Refusal)

  // ---- What holds between transactions -----------------------------------------------------------

  ghost predicate HasIntent(intents: seq<Intent>, card: int) {
    exists i :: i in intents && i.card == card
  }

  /** The record and the card stand behind the intent, on every point of the authority chain. */
  ghost predicate Backed(b: Books, i: Intent) {
    && i.card in b.cards && i.record in b.records
    && Agrees(b.records[i.record], b.cards[i.card], i)
    && i.fingerprint != "" && b.records[i.record].fingerprint == i.fingerprint
    && i.request.Some? && b.records[i.record].request == i.request
  }

  ghost predicate OneEach(intents: seq<Intent>) {
    forall j, k | 0 <= j < k < |intents| :: intents[j].card != intents[k].card
  }

  ghost predicate CardsOk(b: Books) {
    forall id | id in b.cards :: b.cards[id].id == id && (b.cards[id].status == Approving ==> HasIntent(b.intents, id))
  }

  ghost predicate RecordsOk(b: Books) {
    forall id | id in b.records ::
      && b.records[id].id == id
      && (b.records[id].phase == Approval ==>
          b.records[id].card.Some? && HasIntent(b.intents, b.records[id].card.value))
  }

  ghost predicate Sound(b: Books) {
    && OneEach(b.intents) && CardsOk(b) && RecordsOk(b)
    && forall i | i in b.intents :: Backed(b, i)
  }

  /** The intents of one opportunity, oldest first. */
  function PriorOf(intents: seq<Intent>, card: int): (prior: seq<Intent>)
    ensures forall i :: i in prior <==> i in intents && i.card == card
  {
    if |intents| == 0 then []
    else
      var last := intents[|intents| - 1];
      var rest := PriorOf(intents[..|intents| - 1], card);
      if last.card == card then rest + [last] else rest
  }

  lemma OnlyPrior(intents: seq<Intent>, i: Intent)
    requires OneEach(intents) && i in intents
    ensures forall j | j in PriorOf(intents, i.card) :: j == i
  {
  }

  // ---- When a commit goes through ----------------------------------------------------------------

  predicate Admissible(b: Books, req: Request) {
    && req.environment == "paper" && req.account != ""
    && req.card in b.cards && b.cards[req.card].status in {Awaiting, Approving}
    && b.cards[req.card].version == req.version
  }

  /** A first approval: nothing was ever created for the card, and the evidence carries a BUY. */
  ghost predicate CanCreate(b: Books, req: Request) {
    && Admissible(b, req) && b.cards[req.card].status == Awaiting && !HasIntent(b.intents, req.card)
    && req.request.Some? && req.geometry != ""
    && req.admission == Admission(true, true, true)
    && Upper(req.symbol) == Upper(b.cards[req.card].symbol)
    && Matches(req.evidence, RoundQty(req.qty), RoundPrice(req.limit), RoundPrice(req.stop))
  }

  /** A transport retry: the same evidence and geometry as the unresolved intent, and the same click. */
  ghost predicate CanReuse(b: Books, req: Request, now: int) {
    Admissible(b, req) && exists i :: i in b.intents && Retries(b, req, i, now)
  }

  ghost predicate Retries(b: Books, req: Request, i: Intent, now: int) {
    && i.card == req.card && Unresolved(i.status)
    && req.fingerprint == i.fingerprint && req.geometry == i.geometry
    && (req.request.Some? ==> req.request == i.request)
    && i.record in b.records && now < b.records[i.record].expiresAt
  }

  function Claimed(c: Card, now: int): Card {
    if c.status == Approving then c else c.(status := Approving, claimedAt := Some(now))
  }

  function Linked(c: Card, record: int, req: Request, now: int): Card {
    c.(record := Some(record), geometry := Some(req.geometry), version := req.version,
       approvedAt := Some(now), approvalPrice := Some(RoundPrice(req.limit)))
  }

  function Policed(c: Card, policy: Option<string>): Card {
    if policy.Some? then c.(exitPolicy := policy) else c
  }

  function NewRecord(id: int, req: Request, now: int): Record {
    Record(id, Upper(req.symbol), Approval, Some(req.card), req.version, req.geometry,
           req.admission, req.evidence, req.fingerprint, req.request, now + RECORD_TTL)
  }

  function NewIntent(id: int, record: int, req: Request): Intent {
    Intent(id, req.card, req.symbol, req.account, RoundQty(req.qty), RoundPrice(req.limit), RoundPrice(req.stop),
           record, req.geometry, req.request, req.fingerprint, Created)
  }

  /** The tables after a first approval. */
  function Approved(b: Books, req: Request, record: int, intent: int, now: int): Books
    requires req.card in b.cards
  {
    Books(b.cards[req.card := Policed(Linked(Claimed(b.cards[req.card], now), record, req, now), req.exitPolicy)],
          b.records[record := NewRecord(record, req, now)],
          b.intents + [NewIntent(intent, record, req)])
  }

  // ---- What an approval writes, field by field ---------------------------------------------------

  /** The card after an approval that succeeded, or that was relinked. */
  ghost predicate CardWritten(before: Card, after: Card, req: Request, record: int, created: bool, now: int) {
    && after.id == before.id && after.symbol == before.symbol && after.createdAt == before.createdAt
    && after.version == req.version && after.status == Approving
    && after.claimedAt == (if before.status == Approving then before.claimedAt else Some(now))
    && after.record == Some(record) && after.geometry == Some(req.geometry) && after.approvedAt == Some(now)
    && after.approvalPrice.Some? && NearestTick(req.limit, after.approvalPrice.value)
    && after.exitPolicy == (if created && req.exitPolicy.Some? then req.exitPolicy else before.exitPolicy)
  }

  /** A new admission record: the evidence of the request, valid for a quarter of an hour. */
  ghost predicate RecordMade(r: Record, req: Request, now: int) {
    && |r.symbol| == |req.symbol| && (forall i | 0 <= i < |r.symbol| :: r.symbol[i] == UpperChar(req.symbol[i]))
    && r.phase == Approval && r.card == Some(req.card) && r.version == req.version && r.geometry == req.geometry
    && r.admission == req.admission && r.evidence == req.evidence
    && r.fingerprint == req.fingerprint && r.request == req.request && r.expiresAt == now + 15 * 60 * 1_000_000
  }

  /** A new entry intent: the requested order on its lots and ticks, not yet submitted. */
  ghost predicate IntentMade(i: Intent, req: Request, record: int) {
    && i.card == req.card && i.symbol == req.symbol && i.account == req.account && i.record == record
    && NearestLot(req.qty, i.qty) && NearestTick(req.limit, i.limit) && NearestTick(req.stop, i.stop)
    && i.geometry == req.geometry && i.request == req.request && i.fingerprint == req.fingerprint
    && i.status == Created
  }

  lemma LinkedIsWritten(c: Card, record: int, req: Request, created: bool, now: int)
    ensures var linked := Linked(Claimed(c, now), record, req, now);
            CardWritten(c, if created then Policed(linked, req.exitPolicy) else linked, req, record, created, now)
  {
    hide NearestTick;
  }

  lemma NewIsMade(id: int, record: int, req: Request, now: int)
    ensures RecordMade(NewRecord(record, req, now), req, now) && NewRecord(record, req, now).id == record
    ensures IntentMade(NewIntent(id, record, req), req, record) && NewIntent(id, record, req).id == id
  {
    hide NearestTick, NearestLot;
  }

  lemma CreateIsSound(b: Books, req: Request, record: int, intent: int, now: int)
    requires Sound(b) && CanCreate(b, req) && record !in b.records
    ensures Sound(Approved(b, req, record, intent, now))
  {
    var after := Approved(b, req, record, intent, now);
    var made := NewIntent(intent, record, req);
    assert made in after.intents;
    UpperIsIdempotent(req.symbol);
    forall i | i in after.intents ensures Backed(after, i) {
      if i in b.intents {
        assert Backed(b, i) && i.card != req.card;
      }
    }
    assert forall card | HasIntent(b.intents, card) :: HasIntent(after.intents, card);
    assert HasIntent(after.intents, req.card);
  }

  lemma ReuseIsSound(b: Books, req: Request, i: Intent, now: int)
    requires Sound(b) && Admissible(b, req) && i in b.intents && Retries(b, req, i, now)
    ensures Sound(b.(cards := b.cards[req.card := Linked(Claimed(b.cards[req.card], now), i.record, req, now)]))
  {
    var after := b.(cards := b.cards[req.card := Linked(Claimed(b.cards[req.card], now), i.record, req, now)]);
    assert Backed(b, i);
    assert HasIntent(b.intents, req.card);
    forall j | j in after.intents ensures Backed(after, j) {
      assert Backed(b, j);
      if j.card == req.card {
        OnlyPrior(b.intents, i);
        assert j in PriorOf(b.intents, i.card);
      }
    }
  }

  /** The two ways to succeed exclude each other. */
  lemma CreateOrReuse(b: Books, req: Request, now: int)
    requires Sound(b)
    ensures !(CanCreate(b, req) && CanReuse(b, req, now))
  {
  }

  /** No approval was ever recorded for the card. */
  ghost predicate Unrecorded(records: map<int, Record>, card: int) {
    forall j | j in records :: records[j].phase == Approval ==> records[j].card != Some(card)
  }

  lemma UnusedCard(b: Books, card: int)
    requires Sound(b) && card in b.cards && !HasIntent(b.intents, card)
    ensures b.cards[card].id == card
    ensures Unrecorded(b.records, card)
  {
  }

  /** The chain refuses a first approval on exactly the points `CanCreate` names. */
  lemma NewIsAuthorized(card: Card, req: Request, record: int, intent: int, now: int)
    requires card.id == req.card && req.account != ""
    ensures var linked := Policed(Linked(Claimed(card, now), record, req, now), req.exitPolicy);
            Authority(NewRecord(record, req, now), linked, NewIntent(intent, record, req), now).None? <==>
              && req.geometry != "" && req.admission == Admission(true, true, true)
              && Upper(req.symbol) == Upper(card.symbol)
              && Matches(req.evidence, RoundQty(req.qty), RoundPrice(req.limit), RoundPrice(req.stop))
  {
    UpperIsIdempotent(req.symbol);
    var linked := Policed(Linked(Claimed(card, now), record, req, now), req.exitPolicy);
    AuthorityMeansAgreement(NewRecord(record, req, now), linked, NewIntent(intent, record, req), now);
  }

  lemma RetryIsAuthorized(b: Books, req: Request, i: Intent, now: int)
    requires Sound(b) && i in b.intents && i.card == req.card
    ensures i.card in b.cards && i.record in b.records
    ensures Authority(b.records[i.record], Linked(Claimed(b.cards[i.card], now), i.record, req, now), i, now).None? <==>
              req.geometry == i.geometry && now < b.records[i.record].expiresAt
    ensures b.records[i.record].fingerprint == i.fingerprint != "" && i.request.Some?
  {
    assert Backed(b, i);
    AuthorityMeansAgreement(b.records[i.record], Linked(Claimed(b.cards[i.card], now), i.record, req, now), i, now);
  }

  lemma RecordId(b: Books, id: int)
    requires Sound(b) && id in b.records
    ensures b.records[id].id == id
  {
  }

  /** The unresolved intent of a card is its only one, so a retry can only mean that one. */
  lemma OnlyOne(b: Books, i: Intent)
    requires Sound(b) && i in b.intents
    ensures forall j | j in b.intents && j.card == i.card :: j == i
    ensures HasIntent(b.intents, i.card)
  {
    assert forall j | j in b.intents && j.card == i.card :: j in PriorOf(b.intents, i.card);
    OnlyPrior(b.intents, i);
  }

  lemma RetriesMeans(b: Books, req: Request, now: int)
    ensures forall i | Retries(b, req, i, now) :: i.card == req.card && Unresolved(i.status)
  {
  }

  ghost predicate OwnIds(intents: seq<Intent>) {
    forall j, k | 0 <= j < k < |intents| :: intents[j].id != intents[k].id
  }

  /** A lifecycle step of one stored intent. */
  lemma MoveIsSound(b: Books, k: nat, to: IntentStatus)
    requires Sound(b) && k < |b.intents|
    ensures Sound(b.(intents := b.intents[k := b.intents[k].(status := to)]))
  {
    var moved := b.intents[k].(status := to);
    var after := b.(intents := b.intents[k := moved]);
    assert after.intents[k] == moved && b.intents[k] in b.intents;
    forall i | i in after.intents ensures Backed(after, i) {
      assert i == moved || i in b.intents;
      assert Backed(b, if i == moved then b.intents[k] else i);
    }
    forall card | HasIntent(b.intents, card) ensures HasIntent(after.intents, card) {
      var i :| i in b.intents && i.card == card;
      var j :| 0 <= j < |b.intents| && b.intents[j] == i;
      assert after.intents[j] in after.intents && after.intents[j].card == card;
    }
  }

  /** Status writes elsewhere never claim a card for approval, so they cannot break the books. */
  predicate Restatused(c: Card, c': Card) {
    c' == c.(status := c'.status, claimedAt := c'.claimedAt) && (c'.status == Approving ==> c.status == Approving)
  }

  lemma RestatusIsSound(b: Books, cards: map<int, Card>)
    requires Sound(b) && cards.Keys == b.cards.Keys && forall id | id in cards :: Restatused(b.cards[id], cards[id])
    ensures Sound(b.(cards := cards))
  {
    var after := b.(cards := cards);
    forall i | i in after.intents ensures Backed(after, i) {
      assert Backed(b, i) && Restatused(b.cards[i.card], cards[i.card]);
    }
  }

  /** The card a stale approval leaves behind. */
  function Released(c: Card, cutoff: int): Card {
    if c.status == Approving && (c.claimedAt.None? || c.claimedAt.value <= cutoff)
    then c.(status := Awaiting, claimedAt := None) else c
  }

  /** The card can be approved again; all but its status and its claim is as it was. */
  predicate BackOnOffer(c: Card, r: Card) {
    r.status == Awaiting && r.claimedAt.None? && r.(status := c.status, claimedAt := c.claimedAt) == c
  }

  function AllReleased(cards: map<int, Card>, cutoff: int): map<int, Card> {
    map id | id in cards :: Released(cards[id], cutoff)
  }

  lemma ReleaseIsSound(b: Books, cutoff: int)
    requires Sound(b)
    ensures Sound(b.(cards := AllReleased(b.cards, cutoff)))
  {
    RestatusIsSound(b, AllReleased(b.cards, cutoff));
  }

  /** Releasing, partway: the cards in `done` have been looked at, those in `moved` released. */
  ghost predicate PartlyReleased(start: map<int, Card>, after: map<int, Card>, done: set<int>, moved: set<int>,
      cutoff: int)
  {
    && after.Keys == start.Keys
    && (forall id | id in start :: after[id] == if id in done then Released(start[id], cutoff) else start[id])
    && moved == set id | id in start && id in done && Released(start[id], cutoff) != start[id]
  }

  lemma PartlyReleasedStart(start: map<int, Card>, cutoff: int)
    ensures PartlyReleased(start, start, {}, {}, cutoff)
  {
  }

  lemma PartlyReleasedStep(start: map<int, Card>, after: map<int, Card>, done: set<int>, moved: set<int>, id: int,
      cutoff: int)
    requires PartlyReleased(start, after, done, moved, cutoff) && id in start && id !in done
    ensures id !in moved
    ensures Released(start[id], cutoff) == start[id] ==> PartlyReleased(start, after, done + {id}, moved, cutoff)
    ensures Released(start[id], cutoff) != start[id] ==>
      PartlyReleased(start, after[id := Released(start[id], cutoff)], done + {id}, moved + {id}, cutoff)
  {
  }

  lemma PartlyReleasedMeans(start: map<int, Card>, after: map<int, Card>, done: set<int>, moved: set<int>, cutoff: int)
    requires PartlyReleased(start, after, done, moved, cutoff) && forall id | id in start :: id in done
    ensures after == AllReleased(start, cutoff)
    ensures moved == set id | id in start && Released(start[id], cutoff) != start[id]
  {
    forall id | id in start ensures after[id] == AllReleased(start, cutoff)[id] {}
    assert after.Keys == AllReleased(start, cutoff).Keys;
    var stale := set id | id in start && Released(start[id], cutoff) != start[id];
    assert forall id :: id in moved <==> id in stale;
    assert moved == stale;
  }

  lemma NewCardIsSound(b: Books, c: Card)
    requires Sound(b) && c.id !in b.cards && c.status == Awaiting
    ensures Sound(b.(cards := b.cards[c.id := c]))
  {
    forall i | i in b.intents ensures Backed(b.(cards := b.cards[c.id := c]), i) {
      assert Backed(b, i);
    }
  }

  lemma OtherRecordIsSound(b: Books, r: Record)
    requires Sound(b) && r.phase != Approval && r.id !in b.records
    ensures Sound(b.(records := b.records[r.id := r]))
  {
    forall i | i in b.intents ensures Backed(b.(records := b.records[r.id := r]), i) {
      assert Backed(b, i);
    }
  }

  /** Which opportunities were ever entered, in order. */
  function CardsOf(intents: seq<Intent>): (cards: seq<int>)
    ensures |cards| == |intents| && forall k | 0 <= k < |cards| :: cards[k] == intents[k].card
  {
    seq(|intents|, k requires 0 <= k < |intents| => intents[k].card)
  }

  /** The record's evaluation key: phase, opportunity, decision version and geometry. */
  predicate Fills(r: Record, card: int, version: int, geometry: string) {
    r.phase == Approval && r.card == Some(card) && r.version == version && r.geometry == geometry
  }

  // ---- Reading the tables ------------------------------------------------------------------------

  /** The stored intents of one card, by idempotency-key prefix. */
  method Prior(intents: seq<Intent>, card: int) returns (prior: seq<Intent>)
    ensures prior == PriorOf(intents, card)
  {
    prior := [];
    for k := 0 to |intents|
      invariant prior == PriorOf(intents[..k], card)
    {
      assert intents[..k + 1][..k] == intents[..k];
      if intents[k].card == card {
        prior := prior + [intents[k]];
      }
    }
    assert intents[..|intents|] == intents;
  }

  /** The admission record of an evaluation slot, if one was ever written. */
  method FindRecord(records: map<int, Record>, card: int, version: int, geometry: string) returns (found: Option<int>)
    ensures found.Some? ==> found.value in records && Fills(records[found.value], card, version, geometry)
    ensures found.None? ==> forall id | id in records :: !Fills(records[id], card, version, geometry)
  {
    var left := records.Items;
    while left != {}
      invariant left <= records.Items
      invariant forall id | id in records && (id, records[id]) !in left :: !Fills(records[id], card, version, geometry)
    {
      var item :| item in left;
      if Fills(item.1, card, version, geometry) {
        return Some(item.0);
      }
      left := left - {item};
    }
    return None;
  }

  /** The approval record of exactly this opportunity, decision version and geometry. */
  predicate SameEvaluation(r: Record, req: Request) {
    match (r.phase, r.card)
    case (Approval, Some(card)) => card == req.card && (r.version, r.geometry) == (req.version, req.geometry)
    case _ => false
  }

  /** What the record answers to a request for the same evaluation. */
  predicate Answers(r: Result<Record, Error>, record: Record, req: Request, now: int) {
    && (r.Ok? <==> now < record.expiresAt && record.fingerprint == req.fingerprint)
    && (r.Ok? ==> r.value == record)
    && (r.Err? ==> r.error == if now >= record.expiresAt then RecordExpired else EvaluationMismatch)
  }

  /** The stored evaluation that stands in the way of a first approval. */
  ghost predicate InTheWay(records: map<int, Record>, req: Request, k: int) {
    req.geometry != "" && k in records && SameEvaluation(records[k], req)
  }

  /** A first approval: no click, nothing to approve, a stored evaluation in the way, or a broken chain. */
  ghost predicate FirstWarranted(records: map<int, Record>, req: Request, e: Error, now: int) {
    match e
    case RequestIdRequired => req.request.None?
    case IntentNeedsAdmission => req.request.Some? && req.geometry == ""
    case RecordExpired => exists k :: InTheWay(records, req, k) && records[k].expiresAt <= now
    case EvaluationMismatch => exists k :: InTheWay(records, req, k) && records[k].fingerprint != req.fingerprint
    case Unauthorized(_) => req.geometry != ""
    case _ => false
  }

  lemma ChainWarranted(records: map<int, Record>, req: Request, now: int)
    ensures req.request.Some? && req.geometry == "" ==> FirstWarranted(records, req, IntentNeedsAdmission, now)
    ensures req.request.None? ==> FirstWarranted(records, req, RequestIdRequired, now)
    ensures req.geometry != "" ==> forall why :: FirstWarranted(records, req, Unauthorized(why), now)
  {
  }

  /** How stored records answer a first approval, and what it is answered without one. */
  ghost predicate Recorded(records: map<int, Record>, req: Request, id: int, now: int, r: Result<Record, Error>) {
    if exists k :: InTheWay(records, req, k)
    then exists k :: InTheWay(records, req, k) && Answers(r, records[k], req, now)
    else if req.request.None? then r == Err(RequestIdRequired)
    else r.Ok? && r.value.id == id && RecordMade(r.value, req, now)
  }

  /**
    The admission record of this approval, inside the caller's transaction: a new one, or the
    unexpired one already stored for the same evaluation with the same fingerprint.
   */
  method RecordInSession(records: map<int, Record>, req: Request, id: int, now: int)
    returns (r: Result<Record, Error>)
    ensures r.Ok? ==>
      || r.value == NewRecord(id, req, now)
      || (r.value in records.Values && r.value.fingerprint == req.fingerprint && now < r.value.expiresAt)
    ensures Unrecorded(records, req.card) ==>
      r == if req.request.None? then Err(RequestIdRequired) else Ok(NewRecord(id, req, now))
    // A record of the evaluation answers whenever there is one, and a request without any makes its own.
    ensures Recorded(records, req, id, now, r)
    ensures r.Err? ==> FirstWarranted(records, req, r.error, now)
    ensures r.Ok? && req.geometry == "" ==> req.request.Some?
  {
    if req.request.Some? {
      NewIsMade(id, id, req, now);
    }
    assert forall k | k in records :: SameEvaluation(records[k], req) <==>
        Fills(records[k], req.card, req.version, req.geometry);
    hide SameEvaluation, Fills, RecordMade;
    if req.geometry != "" {
      var existing := FindRecord(records, req.card, req.version, req.geometry);
      if existing.Some? {
        var key := existing.value;
        var record := records[key];
        assert key in records.Keys && InTheWay(records, req, key);
        if record.expiresAt <= now {
          return Err(RecordExpired);
        }
        if record.fingerprint != req.fingerprint {
          return Err(EvaluationMismatch);
        }
        return Ok(record);
      }
    }
    if req.request.None? {
      return Err(RequestIdRequired);
    }
    return Ok(NewRecord(id, req, now));
  }

  /** The oldest unresolved intent. */
  function LiveOf(prior: seq<Intent>): (live: Option<Intent>)
    ensures live.Some? ==> live.value in prior && Unresolved(live.value.status)
    ensures live.None? ==> forall i | i in prior :: !Unresolved(i.status)
  {
    if |prior| == 0 then None
    else
      var earlier := LiveOf(prior[..|prior| - 1]);
      if earlier.Some? then earlier
      else if Unresolved(prior[|prior| - 1].status) then Some(prior[|prior| - 1])
      else None
  }

  lemma {:induction false} LiveOfPrefix(prior: seq<Intent>, k: nat)
    requires k < |prior| && LiveOf(prior[..k]).None? && Unresolved(prior[k].status)
    ensures LiveOf(prior) == Some(prior[k])
    decreases |prior|
  {
    if k == |prior| - 1 {
    } else {
      assert prior[..|prior| - 1][..k] == prior[..k];
      LiveOfPrefix(prior[..|prior| - 1], k);
    }
  }

  method FirstUnresolved(prior: seq<Intent>) returns (live: Option<Intent>)
    ensures live == LiveOf(prior)
    ensures live.Some? ==> live.value in prior && Unresolved(live.value.status)
    ensures live.None? ==> forall i | i in prior :: !Unresolved(i.status)
  {
    for k := 0 to |prior|
      invariant LiveOf(prior[..k]).None?
    {
      assert prior[..k + 1][..k] == prior[..k];
      if Unresolved(prior[k].status) {
        LiveOfPrefix(prior, k);
        return Some(prior[k]);
      }
    }
    assert prior[..|prior|] == prior;
    return None;
  }

  // ---- Why an approval is refused ----------------------------------------------------------------

  /** Another click, the same click with other evidence, no click and another geometry, or a broken chain. */
  predicate RetryWarranted(records: map<int, Record>, i: Intent, req: Request, e: Error) {
    match e
    case EntryInFlight => req.request.Some? && i.request.Some? && i.request != req.request
    case IdempotencyConflict =>
      req.request.Some? && i.request == req.request &&
      (i.fingerprint != req.fingerprint || (i.record in records && records[i.record].fingerprint != req.fingerprint))
    case IntentGeometryMismatch => (req.request.None? || i.request.None?) && i.geometry != req.geometry
    case RecordMissing => i.record !in records
    case RecordFingerprintMismatch =>
      (req.request.None? || i.request.None?) && i.record in records && records[i.record].fingerprint != req.fingerprint
    case Unauthorized(_) => i.record in records
    case _ => false
  }

  ghost predicate HasLive(intents: seq<Intent>, card: int) {
    exists i :: i in intents && i.card == card && Unresolved(i.status)
  }

  /** The one error an attempt is refused with, or, past the first checks, one that is true of it. */
  ghost predicate Warranted(b: Books, req: Request, e: Error, now: int) {
    if req.environment != "paper" then e == EnvironmentBlocked
    else if req.account == "" then e == AccountRequired
    else if req.card !in b.cards || b.cards[req.card].status.Closed? then e == MissingOrClaimed
    else if b.cards[req.card].version != req.version then e == StaleVersion
    else if HasLive(b.intents, req.card) then
      exists i :: i in b.intents && i.card == req.card && Unresolved(i.status) && RetryWarranted(b.records, i, req, e)
    else if HasIntent(b.intents, req.card) then e == EntryIntentExists
    else if b.cards[req.card].status == Approving then e == StillApproving
    else FirstWarranted(b.records, req, e, now)
  }

  class Desk {
    var cards: map<int, Card>
    var records: map<int, Record>
    var intents: seq<Intent>
    var nextId: int

    ghost function Now(): Books
      reads this
    {
      Books(cards, records, intents)
    }

    ghost predicate Valid()
      reads this
    {
      && Sound(Now()) && (forall id | id in records :: id < nextId)
      && (forall i | i in intents :: i.id < nextId) && OwnIds(intents)
    }

    constructor ()
      ensures Valid() && Now() == Books(map[], map[], [])
    {
      cards, records, intents, nextId := map[], map[], [], 0;
    }

    /** A first approval of a claimed card. Nothing is stored unless every check passes. */
    method Create(req: Request, now: int) returns (r: Result<Bundle, Error>)
      requires Valid() && Admissible(Now(), req) && cards[req.card].status == Awaiting && !HasIntent(intents, req.card)
      modifies this
      ensures Valid()
      ensures r.Err? ==> Now() == old(Now())
      ensures r.Ok? <==> CanCreate(old(Now()), req)
      ensures r.Ok? ==>
        && r.value.created && r.value.record.id !in old(records) && req.card in cards && r.value.card == cards[req.card]
        && r.value.record == NewRecord(r.value.record.id, req, now)
        && r.value.intent == NewIntent(r.value.intent.id, r.value.record.id, req)
        && Now() == Approved(old(Now()), req, r.value.record.id, r.value.intent.id, now)
      ensures r.Ok? ==>
        && CardWritten(old(cards)[req.card], r.value.card, req, r.value.record.id, true, now)
        && RecordMade(r.value.record, req, now) && IntentMade(r.value.intent, req, r.value.record.id)
        && cards == old(cards)[req.card := r.value.card]
        && records == old(records)[r.value.record.id := r.value.record] && intents == old(intents) + [r.value.intent]
      ensures r.Err? ==> FirstWarranted(old(records), req, r.error, now)
    {
      hide Authority, Agrees, Matches, OneEach, CardWritten, RecordMade, IntentMade, Recorded, FirstWarranted;
      ChainWarranted(records, req, now);
      LinkedIsWritten(cards[req.card], nextId, req, true, now);
      NewIsMade(nextId + 1, nextId, req, now);
      var recordId, intentId := nextId, nextId + 1;
      UnusedCard(Now(), req.card);
      var recorded := RecordInSession(records, req, recordId, now);
      if recorded.Err? {
        return Err(recorded.error);
      }
      var record := recorded.value;
      var card := Policed(Linked(Claimed(cards[req.card], now), record.id, req, now), req.exitPolicy);
      var intent := NewIntent(intentId, record.id, req);
      if req.geometry == "" {
        return Err(IntentNeedsAdmission);
      }
      if req.request.None? {
        return Err(RequestIdRequired);
      }
      var refusal := Authority(record, card, intent, now);
      NewIsAuthorized(cards[req.card], req, recordId, intentId, now);
      if refusal.Some? {
        return Err(Unauthorized(refusal.value));
      }
      CreateIsSound(Now(), req, recordId, intentId, now);
      cards, records, intents := cards[req.card := card], records[record.id := record], intents + [intent];
      nextId := nextId + 2;
      return Ok(Bundle(card, record, intent, true));
    }

    /** A card that already has an unresolved entry intent: hand that one back, or refuse. */
    method Reuse(req: Request, live: Intent, now: int) returns (r: Result<Bundle, Error>)
      requires Valid() && Admissible(Now(), req) && live in intents && live.card == req.card && Unresolved(live.status)
      modifies this
      ensures Valid()
      ensures r.Err? ==> Now() == old(Now())
      ensures r.Ok? <==> Retries(old(Now()), req, live, now)
      ensures req.request.Some? && req.request != live.request ==> r == Err(EntryInFlight)
      ensures req.request == live.request && req.fingerprint != live.fingerprint ==> r == Err(IdempotencyConflict)
      ensures r.Ok? ==>
        && req.card in cards && live.record in records
        && r.value == Bundle(cards[req.card], records[live.record], live, false)
      ensures r.Ok? ==>
        Now() == old(Now()).(cards :=
          old(cards)[req.card := Linked(Claimed(old(cards)[req.card], now), live.record, req, now)])
      ensures r.Ok? ==>
        && CardWritten(old(cards)[req.card], r.value.card, req, r.value.record.id, false, now)
        && cards == old(cards)[req.card := r.value.card] && records == old(records) && intents == old(intents)
      ensures r.Err? ==> RetryWarranted(old(records), live, req, r.error)
    {
      hide Authority, Agrees, Backed, OneEach, CardsOk, RecordsOk, CardWritten;
      LinkedIsWritten(cards[req.card], live.record, req, false, now);
      RetryIsAuthorized(Now(), req, live, now);
      if req.request.Some? && live.request.Some? {
        if live.request != req.request {
          return Err(EntryInFlight);
        }
        if live.fingerprint != req.fingerprint {
          return Err(IdempotencyConflict);
        }
      } else if live.geometry != req.geometry {
        return Err(IntentGeometryMismatch);
      }
      if live.record !in records {
        return Err(RecordMissing);
      }
      var record := records[live.record];
      if record.fingerprint != "" && record.fingerprint != req.fingerprint {
        return Err(if req.request.Some? && live.request == req.request then IdempotencyConflict
            else RecordFingerprintMismatch);
      }
      var card := Linked(Claimed(cards[req.card], now), record.id, req, now);
      RecordId(Now(), live.record);
      var refusal := Authority(record, card, live, now);
      if refusal.Some? {
        return Err(Unauthorized(refusal.value));
      }
      ReuseIsSound(Now(), req, live, now);
      cards := cards[req.card := card];
      return Ok(Bundle(card, record, live, false));
    }

    /**
      One approval attempt. It succeeds exactly when the card can be approved for the first time or
      the request retries the unresolved intent it made; any refusal leaves the tables alone.
     */
    method Commit(req: Request, now: int) returns (r: Result<Bundle, Error>)
      requires Valid()
      modifies this
      ensures Valid()
      ensures r.Err? ==> Now() == old(Now())
      ensures r.Ok? && r.value.created <==> CanCreate(old(Now()), req)
      ensures r.Ok? && !r.value.created <==> CanReuse(old(Now()), req, now)
      ensures r.Ok? && r.value.created ==>
        && r.value.record.id !in old(records)
        && r.value.intent == NewIntent(r.value.intent.id, r.value.record.id, req)
        && Now() == Approved(old(Now()), req, r.value.record.id, r.value.intent.id, now)
      ensures r.Ok? && !r.value.created ==>
        && r.value.intent in old(intents) && Retries(old(Now()), req, r.value.intent, now)
        && Now() == old(Now()).(cards :=
             old(cards)[req.card := Linked(Claimed(old(cards)[req.card], now), r.value.intent.record, req, now)])
      ensures r.Ok? ==>
        && req.card in cards && r.value.card == cards[req.card] && r.value.card.status == Approving
        && r.value.intent in intents && r.value.intent.record in records
        && r.value.record == records[r.value.intent.record]
      // Field by field, what was written.
      ensures r.Ok? ==>
        && req.card in old(cards)
        && CardWritten(old(cards)[req.card], r.value.card, req, r.value.record.id, r.value.created, now)
        && cards == old(cards)[req.card := r.value.card]
      ensures r.Ok? && r.value.created ==>
        && RecordMade(r.value.record, req, now) && IntentMade(r.value.intent, req, r.value.record.id)
        && records == old(records)[r.value.record.id := r.value.record] && intents == old(intents) + [r.value.intent]
      ensures r.Ok? && !r.value.created ==> records == old(records) && intents == old(intents)
      // A card whose entry intent is resolved is never entered again.
      ensures Admissible(old(Now()), req) && HasIntent(old(intents), req.card) ==>
        (forall i | i in old(intents) && i.card == req.card :: !Unresolved(i.status)) ==> r == Err(EntryIntentExists)
      ensures r.Err? ==> Warranted(old(Now()), req, r.error, now)
    {
      hide FirstWarranted, RetryWarranted, Retries, Sound, OneEach, Matches, Agrees, Backed;
      hide CardWritten, RecordMade, IntentMade;
      if req.environment != "paper" {
        return Err(EnvironmentBlocked);
      }
      if req.account == "" {
        return Err(AccountRequired);
      }
      if req.card !in cards || cards[req.card].status !in {Awaiting, Approving} {
        return Err(MissingOrClaimed);
      }
      if cards[req.card].version != req.version {
        return Err(StaleVersion);
      }
      var prior := Prior(intents, req.card);
      var live := FirstUnresolved(prior);
      RetriesMeans(Now(), req, now);
      if live.Some? {
        OnlyOne(Now(), live.value);
        assert CanReuse(Now(), req, now) <==> Retries(Now(), req, live.value, now);
        r := Reuse(req, live.value, now);
        return;
      }
      if prior != [] {
        assert prior[0] in prior;
        return Err(EntryIntentExists);
      }
      assert forall i | i in intents :: i.card == req.card ==> i in prior;
      if cards[req.card].status == Approving {
        return Err(StillApproving);
      }
      r := Create(req, now);
    }

    /** A lifecycle transition, checked against the stored status. */
    method MoveIntent(id: int, to: IntentStatus) returns (moved: bool)
      requires Valid()
      modifies this
      ensures Valid() && cards == old(cards) && records == old(records) && CardsOf(intents) == CardsOf(old(intents))
      ensures moved <==>
        exists k :: 0 <= k < |old(intents)| && old(intents)[k].id == id && to in NextStatuses(old(intents)[k].status)
      ensures !moved ==> intents == old(intents)
      ensures forall k | 0 <= k < |intents| ::
        intents[k] == if moved && old(intents)[k].id == id then old(intents)[k].(status := to) else old(intents)[k]
    {
      hide Sound, NextStatuses;
      for k := 0 to |intents|
        invariant intents == old(intents) && Valid()
        invariant forall j | 0 <= j < k :: intents[j].id != id
      {
        if intents[k].id == id {
          if to !in NextStatuses(intents[k].status) {
            return false;
          }
          MoveIsSound(Now(), k, to);
          intents := intents[k := intents[k].(status := to)];
          return true;
        }
      }
      return false;
    }

    /** A compare-and-swap of a card's status by any other part of the desk. */
    method ClaimCard(id: int, from: CardStatus, to: CardStatus) returns (won: bool)
      requires Valid() && to != Approving
      modifies this
      ensures Valid() && records == old(records) && intents == old(intents)
      ensures won <==> id in old(cards) && old(cards)[id].status == from
      ensures !won ==> cards == old(cards)
      ensures won ==> cards == old(cards)[id := old(cards)[id].(status := to,
        claimedAt := if from == Approving then None else old(cards)[id].claimedAt)]
    {
      hide Sound;
      if id !in cards || cards[id].status != from {
        return false;
      }
      var c := cards[id];
      var after := cards[id := c.(status := to, claimedAt := if from == Approving then None else c.claimedAt)];
      RestatusIsSound(Now(), after);
      cards := after;
      return true;
    }

    /** Cards stuck in APPROVING go back on offer. */
    method ReleaseStale(cutoff: int) returns (released: nat)
      requires Valid()
      modifies this
      ensures Valid() && records == old(records) && intents == old(intents)
      ensures cards == AllReleased(old(cards), cutoff)
      ensures released == |set id | id in old(cards) && Released(old(cards)[id], cutoff) != old(cards)[id]|
      // The cards claimed at the cutoff or before, or at no known time, and only those.
      ensures cards.Keys == old(cards.Keys) && forall id | id in old(cards) ::
        var c := old(cards)[id];
        if c.status != Approving || (c.claimedAt.Some? && cutoff < c.claimedAt.value) then cards[id] == c
        else BackOnOffer(c, cards[id])
    {
      hide Sound;
      var after: map<int, Card>;
      after, released := ReleaseEach(cards, cutoff);
      ReleaseIsSound(Now(), cutoff);
      cards := after;
    }

    static method ReleaseEach(start: map<int, Card>, cutoff: int) returns (after: map<int, Card>, released: nat)
      ensures after == AllReleased(start, cutoff)
      ensures released == |set id | id in start && Released(start[id], cutoff) != start[id]|
    {
      hide Released, PartlyReleased, AllReleased;
      ghost var done, moved: set<int> := {}, {};
      var left := start.Items;
      after, released := start, 0;
      PartlyReleasedStart(start, cutoff);
      while left != {}
        invariant left <= start.Items && forall id | id in start :: id in done || (id, start[id]) in left
        invariant forall item | item in left :: item.0 !in done
        invariant PartlyReleased(start, after, done, moved, cutoff) && released == |moved|
      {
        var item :| item in left;
        var id := item.0;
        PartlyReleasedStep(start, after, done, moved, id, cutoff);
        if Released(item.1, cutoff) != item.1 {
          after := after[id := Released(item.1, cutoff)];
          released := released + 1;
          moved := moved + {id};
        }
        done := done + {id};
        left := left - {item};
      }
      PartlyReleasedMeans(start, after, done, moved, cutoff);
    }

    method CreateCard(id: int, symbol: string, version: int, now: int)
      requires Valid() && id !in cards
      modifies this
      ensures Valid() && records == old(records) && intents == old(intents)
      ensures cards == old(cards)[id := Card(id, symbol, Awaiting, version, now, None, None, None, None, None, None)]
    {
      hide Sound;
      var c := Card(id, symbol, Awaiting, version, now, None, None, None, None, None, None);
      NewCardIsSound(Now(), c);
      cards := cards[id := c];
    }

    /** An admission record of another phase; the watch loop and the scanner write those. */
    method RecordOther(r: Record)
      requires Valid() && r.phase != Approval
      modifies this
      ensures Valid() && cards == old(cards) && intents == old(intents)
      ensures records == old(records)[old(nextId) := r.(id := old(nextId))]
    {
      hide Sound;
      OtherRecordIsSound(Now(), r.(id := nextId));
      records := records[nextId := r.(id := nextId)];
      nextId := nextId + 1;
    }
  }

  datatype Op =
    | NewCard(id: int, symbol: string, version: int, now: int)
    | Approve(req: Request, now: int)
    | Move(intent: int, to: IntentStatus)
    | Claim(card: int, from: CardStatus, target: CardStatus)
    | Release(cutoff: int)
    | Other(record: Record)

  /** One operation; `entered` tells when it created an entry intent. */
  method Apply(d: Desk, op: Op) returns (entered: seq<int>)
    requires d.Valid()
    modifies d
    ensures d.Valid() && CardsOf(d.intents) == CardsOf(old(d.intents)) + entered
  {
    hide Sound, CanCreate, CanReuse, Retries, Admissible, OneEach, OwnIds, NextStatuses;
    entered := [];
    match op
    case NewCard(id, symbol, version, now) =>
      if id !in d.cards {
        d.CreateCard(id, symbol, version, now);
      }
    case Approve(req, now) =>
      var r := d.Commit(req, now);
      if r.Ok? && r.value.created {
        entered := [req.card];
      }
    case Move(intent, to) =>
      var _ := d.MoveIntent(intent, to);
    case Claim(card, from, target) =>
      if target != Approving {
        var _ := d.ClaimCard(card, from, target);
      }
    case Release(cutoff) =>
      var _ := d.ReleaseStale(cutoff);
    case Other(record) =>
      if record.phase != Approval {
        d.RecordOther(record);
      }
  }

  /**
    Any run: `entered` lists the opportunities for which a commit created an entry intent. None
    appears twice, whatever happened to the intents meanwhile.
   */
  method Run(ops: seq<Op>) returns (d: Desk, entered: seq<int>)
    ensures d.Valid() && entered == CardsOf(d.intents)
    ensures forall j, k | 0 <= j < k < |entered| :: entered[j] != entered[k]
  {
    hide Sound, OneEach, OwnIds;
    d := new Desk();
    entered := [];
    for i := 0 to |ops|
      invariant fresh(d) && d.Valid() && entered == CardsOf(d.intents)
    {
      var more := Apply(d, ops[i]);
      entered := entered + more;
    }
    EnteredOnce(d.Now());
  }

  lemma EnteredOnce(b: Books)
    requires Sound(b)
    ensures forall j, k | 0 <= j < k < |b.intents| :: CardsOf(b.intents)[j] != CardsOf(b.intents)[k]
  {
  }

  /**
    A card in APPROVING has exactly one entry intent, and the card, its record and that intent agree
    on every link of the authority chain.
   */
  lemma ApprovingIsBacked(b: Books, card: int) returns (i: Intent)
    requires Sound(b) && card in b.cards && b.cards[card].status == Approving
    ensures i in b.intents && i.card == card && forall j | j in b.intents && j.card == card :: j == i
    ensures i.record in b.records && b.cards[card].record == Some(i.record) && b.records[i.record].card == Some(card)
    ensures b.cards[card].geometry == Some(i.geometry) && b.records[i.record].geometry == i.geometry != ""
    ensures Upper(b.cards[card].symbol) == Upper(i.symbol) == Upper(b.records[i.record].symbol)
    ensures b.records[i.record].fingerprint == i.fingerprint && b.records[i.record].request == i.request
  {
    i :| i in b.intents && i.card == card;
    assert Backed(b, i);
    OnlyOne(b, i);
  }

  /** The same request again, while its intent is open and its record valid, gets the same intent back. */
  lemma RetryFindsItsIntent(b: Books, req: Request, record: int, intent: int, now: int, later: int)
    requires Sound(b) && CanCreate(b, req) && record !in b.records && later < now + RECORD_TTL
    ensures var after := Approved(b, req, record, intent, now);
            CanReuse(after, req, later) && Retries(after, req, NewIntent(intent, record, req), later)
  {
    var after := Approved(b, req, record, intent, now);
    assert NewIntent(intent, record, req) in after.intents;
  }
}
