/**
  What one approval writes: the opportunity it claims, the admission record it persists and the
  entry intent it creates, and the chain of authority between the three.
 */
module ApprovalRecords {
  import opened Basics
  import opened Wrappers

  /** Seconds an approval admission stays valid, in microseconds. */
  const RECORD_TTL: int := 900_000_000

  // ---- Money ------------------------------------------------------------------------------------

  predicate Whole(x: real) {
    x.Floor as real == x
  }

  /** The nearest whole cent from a dollar up, the nearest hundredth of a cent below, halves up. */
  predicate NearestTick(price: real, tick: real) {
    && (price <= 0.0 ==> tick == price)
    && (0.0 < price < 1.0 ==> Whole(tick * 10_000.0) && -0.00005 <= price - tick < 0.00005)
    && (1.0 <= price ==> Whole(tick * 100.0) && -0.005 <= price - tick < 0.005)
  }

  function RoundPrice(price: real): (tick: real)
    ensures NearestTick(price, tick)
  {
    if price <= 0.0 then price
    else if price >= 1.0 then (price * 100.0 + 0.5).Floor as real / 100.0
    else (price * 10000.0 + 0.5).Floor as real / 10000.0
  }

  /** The most ten-thousandths of a share that do not exceed the quantity, on either side of zero. */
  predicate NearestLot(qty: real, lot: real) {
    && Whole(lot * 10_000.0)
    && (0.0 <= qty ==> 0.0 <= lot <= qty < lot + 0.0001)
    && (qty < 0.0 ==> lot - 0.0001 < qty <= lot <= 0.0)
  }

  function LotBelow(qty: real): (lot: real)
    requires 0.0 <= qty
    ensures NearestLot(qty, lot)
  {
    (qty * 10000.0).Floor as real / 10000.0
  }

  lemma NegatedLot(qty: real, lot: real)
    requires 0.0 < qty && NearestLot(qty, lot)
    ensures NearestLot(-qty, -lot)
  {
    var n := (lot * 10_000.0).Floor;
    assert -lot * 10_000.0 == (-n) as real;
  }

  /** Four decimals, toward zero. */
  function RoundQty(qty: real): (q: real)
    ensures NearestLot(qty, q)
  {
    if qty >= 0.0 then LotBelow(qty)
    else
      NegatedLot(-qty, LotBelow(-qty));
      -LotBelow(-qty)
  }

  // ---- Rows --------------------------------------------------------------------------------------

  datatype CardStatus = Awaiting | Approving | Closed(name: string)

  datatype Card = Card(
    id: int, symbol: string, status: CardStatus, version: int, createdAt: int, claimedAt: Option<int>,
    record: Option<int>, geometry: Option<string>, approvedAt: Option<int>, approvalPrice: Option<real>,
    exitPolicy: Option<string>)

  /** The frozen facts of the evaluation that the authority check compares with the intent. */
  datatype Evidence = Evidence(qty: Option<real>, limit: Option<real>, stop: Option<real>)

  datatype Admission = Admission(buyAllowed: bool, admitted: bool, healthy: bool)

  datatype Phase = Creation | WatchRevalidation | Approval

  datatype Record = Record(
    id: int, symbol: string, phase: Phase, card: Option<int>, version: int, geometry: string,
    admission: Admission, evidence: Evidence, fingerprint: string, request: Option<int>, expiresAt: int)

  datatype IntentStatus =
    | Created | Submitting | Submitted | Acknowledged | PartiallyFilled | CancelPending | Unknown
    | Filled | Canceled | Rejected | Lapsed

  predicate Unresolved(s: IntentStatus) {
    !(s == Filled || s == Canceled || s == Rejected || s == Lapsed)
  }

  function NextStatuses(s: IntentStatus): set<IntentStatus> {
    match s
    case Created => {Submitting, Rejected}
    case Submitting => {Submitted, Rejected, Unknown}
    case Submitted => {Acknowledged, PartiallyFilled, Filled, CancelPending, Canceled, Rejected, Lapsed, Unknown}
    case Acknowledged => {PartiallyFilled, Filled, CancelPending, Canceled, Rejected, Lapsed, Unknown}
    case PartiallyFilled => {PartiallyFilled, Filled, CancelPending, Canceled, Lapsed, Unknown}
    case CancelPending => {Canceled, Filled, PartiallyFilled, Unknown}
    case Unknown => {Submitted, Acknowledged, PartiallyFilled, Filled, Canceled, Rejected, Lapsed}
    case _ => {}
  }

  /** The lifecycle read from the other end. */
  function PriorStatuses(s: IntentStatus): set<IntentStatus> {
    match s
    case Created => {}
    case Submitting => {Created}
    case Submitted => {Submitting, Unknown}
    case Acknowledged => {Submitted, Unknown}
    case PartiallyFilled => {Submitted, Acknowledged, PartiallyFilled, CancelPending, Unknown}
    case CancelPending => {Submitted, Acknowledged, PartiallyFilled}
    case Unknown => {Submitting, Submitted, Acknowledged, PartiallyFilled, CancelPending}
    case Filled => {Submitted, Acknowledged, PartiallyFilled, CancelPending, Unknown}
    case Canceled => {Submitted, Acknowledged, PartiallyFilled, CancelPending, Unknown}
    case Rejected => {Created, Submitting, Submitted, Acknowledged, Unknown}
    case Lapsed => {Submitted, Acknowledged, PartiallyFilled, Unknown}
  }

  /** Both readings name the same edges, and an intent is unresolved as long as there is one to take. */
  lemma LifecycleBothWays(s: IntentStatus, next: IntentStatus)
    ensures next in NextStatuses(s) <==> s in PriorStatuses(next)
    ensures Unresolved(s) <==> NextStatuses(s) != {}
  {
    assert Unresolved(s) ==> Rejected in NextStatuses(s) || Unknown in NextStatuses(s) || Filled in NextStatuses(s);
  }

  datatype Intent = Intent(
    id: int, card: int, symbol: string, account: string, qty: real, limit: real, stop: real,
    record: int, geometry: string, request: Option<int>, fingerprint: string, status: IntentStatus)

  // ---- The authority chain -----------------------------------------------------------------------

  datatype Refusal =
    | WrongPhase | CardMismatch | IntentCardMismatch | CardUnlinked | CardLinkMismatch | IntentLinkMismatch
    | GeometryMissing | GeometryMismatch | SymbolMismatch | IntentSymbolMismatch | BuyRejected | RecordOverdue
    | AccountMissing | FingerprintMismatch | RequestMismatch | SizingMismatch | LimitMismatch | StopMismatch

  /** The checks before a broker may be contacted, in the order they are made. */
  function Authority(record: Record, card: Card, intent: Intent, now: int): Option<Refusal> {
    if record.phase != Approval then Some(WrongPhase)
    else if record.card != Some(card.id) then Some(CardMismatch)
    else if intent.card != card.id then Some(IntentCardMismatch)
    else if card.record.None? then Some(CardUnlinked)
    else if card.record.value != record.id then Some(CardLinkMismatch)
    else if record.id != intent.record then Some(IntentLinkMismatch)
    else if record.geometry == "" || card.geometry.GetOr("") == "" || intent.geometry == "" then Some(GeometryMissing)
    else if record.geometry != card.geometry.GetOr("") || card.geometry.GetOr("") != intent.geometry
        then Some(GeometryMismatch)
    else if Upper(record.symbol) != Upper(card.symbol) then Some(SymbolMismatch)
    else if Upper(intent.symbol) != Upper(card.symbol) then Some(IntentSymbolMismatch)
    else if !(record.admission.buyAllowed && record.admission.admitted && record.admission.healthy)
        then Some(BuyRejected)
    else if record.expiresAt <= now then Some(RecordOverdue)
    else if intent.account == "" then Some(AccountMissing)
    else if record.fingerprint != "" && intent.fingerprint != "" && record.fingerprint != intent.fingerprint
    then Some(FingerprintMismatch)
    else if intent.request.Some? && record.request.Some? && intent.request != record.request then Some(RequestMismatch)
    else if record.evidence.qty.Some? && intent.qty != RoundQty(record.evidence.qty.value) then Some(SizingMismatch)
    else if record.evidence.limit.Some? && intent.limit != RoundPrice(record.evidence.limit.value)
        then Some(LimitMismatch)
    else if record.evidence.stop.Some? && intent.stop != RoundPrice(record.evidence.stop.value) then Some(StopMismatch)
    else None
  }

  /** The agreement the chain stands for, apart from expiry. */
  ghost predicate Agrees(record: Record, card: Card, intent: Intent) {
    && record.phase == Approval && record.card == Some(card.id) && intent.card == card.id
    && card.record == Some(record.id) && intent.record == record.id
    && record.geometry == intent.geometry && card.geometry == Some(intent.geometry) && intent.geometry != ""
    && Upper(record.symbol) == Upper(card.symbol) == Upper(intent.symbol)
    && record.admission == Admission(true, true, true)
    && intent.account != ""
    && (record.fingerprint == "" || intent.fingerprint == "" || record.fingerprint == intent.fingerprint)
    && (record.request.None? || intent.request.None? || record.request == intent.request)
    && Matches(record.evidence, intent.qty, intent.limit, intent.stop)
  }

  /** The intent carries the evaluated quantity and prices, rounded as orders are. */
  predicate Matches(e: Evidence, qty: real, limit: real, stop: real) {
    && (e.qty.Some? ==> qty == RoundQty(e.qty.value))
    && (e.limit.Some? ==> limit == RoundPrice(e.limit.value))
    && (e.stop.Some? ==> stop == RoundPrice(e.stop.value))
  }

  /** Each refusal names a point on which the chain really fails. */
  lemma RefusalIsTrue(record: Record, card: Card, intent: Intent, now: int)
    ensures match Authority(record, card, intent, now)
      case None => true
      case Some(why) =>
        match why
        case WrongPhase => record.phase != Approval
        case CardMismatch => record.card != Some(card.id)
        case IntentCardMismatch => intent.card != card.id
        case CardUnlinked => card.record == None
        case CardLinkMismatch => card.record.Some? && card.record != Some(record.id)
        case IntentLinkMismatch => intent.record != record.id
        case GeometryMissing => "" in {record.geometry, intent.geometry} || card.geometry in {None, Some("")}
        case GeometryMismatch => !(card.geometry == Some(record.geometry) && record.geometry == intent.geometry)
        case SymbolMismatch => Upper(record.symbol) != Upper(card.symbol)
        case IntentSymbolMismatch => Upper(intent.symbol) != Upper(card.symbol)
        case BuyRejected => record.admission != Admission(true, true, true)
        case RecordOverdue => now >= record.expiresAt
        case AccountMissing => intent.account == ""
        case FingerprintMismatch => record.fingerprint != intent.fingerprint
        case RequestMismatch => record.request != intent.request
        case SizingMismatch => !(record.evidence.qty.Some? && NearestLot(record.evidence.qty.value, intent.qty))
        case LimitMismatch => !(record.evidence.limit.Some? && NearestTick(record.evidence.limit.value, intent.limit))
        case StopMismatch => !(record.evidence.stop.Some? && NearestTick(record.evidence.stop.value, intent.stop))
  {
    if record.evidence.qty.Some? {
      LotIsUnique(record.evidence.qty.value, intent.qty);
    }
    if record.evidence.limit.Some? {
      TickIsUnique(record.evidence.limit.value, intent.limit);
    }
    if record.evidence.stop.Some? {
      TickIsUnique(record.evidence.stop.value, intent.stop);
    }
    hide NearestTick, NearestLot, RoundPrice, RoundQty, Upper;
  }

  /** There is one nearest tick, and one nearest lot. */
  lemma TickIsUnique(price: real, tick: real)
    ensures NearestTick(price, tick) <==> tick == RoundPrice(price)
  {
    if NearestTick(price, tick) && price > 0.0 {
      var unit := if price >= 1.0 then 100.0 else 10_000.0;
      assert (tick * unit).Floor == (RoundPrice(price) * unit).Floor;
    }
  }

  lemma LotIsUnique(qty: real, lot: real)
    ensures NearestLot(qty, lot) <==> lot == RoundQty(qty)
  {
    if NearestLot(qty, lot) {
      assert (lot * 10_000.0).Floor == (RoundQty(qty) * 10_000.0).Floor;
    }
  }

  lemma AuthorityMeansAgreement(record: Record, card: Card, intent: Intent, now: int)
    ensures Authority(record, card, intent, now).None? <==> Agrees(record, card, intent) && now < record.expiresAt
  {
  }
}
