/**
  What the watch desk must keep true, as statements about its state: the rows, the admission claims,
  the BUY cards of the opportunity store, the history of status writes per watch, the cards each
  watch had stored for it (`issues`) and those among them whose attempt ended without CONVERTED
  (`incidents`).
 */
module WatchLedger {
  import opened Wrappers
  import opened WatchLifecycle

  /** One admission claim per trigger of a watch. */
  datatype Claim = Claim(id: int, trigger: nat)

  /** A BUY card: `open` while AWAITING_CONFIRMATION, `left` once it was ever anything else. */
  datatype Card = Card(symbol: string, open: bool, left: bool)

  /** A card that a publication attempt stored for one trigger of a watch. */
  datatype Issue = Issue(claim: Claim, card: nat)

  /** Cards are numbered in order of creation. */
  datatype Desk = Desk(
    rows: map<int, Watch>, claims: set<Claim>, cards: seq<Card>,
    trails: map<int, seq<Status>>, issues: set<Issue>, incidents: set<Issue>)

  function ClaimOf(w: Watch): Claim {
    Claim(w.id, w.triggerVersion)
  }

  // ---- The cards -------------------------------------------------------------------------------

  /** A card that is not open has left AWAITING_CONFIRMATION. */
  predicate BoardOk(cards: seq<Card>) {
    forall i | 0 <= i < |cards| :: cards[i].open || cards[i].left
  }

  /** The newest open card of a symbol. */
  function OpenCard(cards: seq<Card>, symbol: string): (found: Option<nat>)
    ensures found.Some? ==> found.value < |cards| && cards[found.value].open && cards[found.value].symbol == symbol
    ensures found.None? ==> forall i | 0 <= i < |cards| && cards[i].symbol == symbol :: !cards[i].open
  {
    if |cards| == 0 then None
    else if cards[|cards| - 1].open && cards[|cards| - 1].symbol == symbol then Some(|cards| - 1)
    else OpenCard(cards[..|cards| - 1], symbol)
  }

  /** Cards are never removed or renamed, and a card that left stays one that left. */
  ghost predicate BoardGrew(a: seq<Card>, b: seq<Card>) {
    |a| <= |b| && forall i | 0 <= i < |a| :: b[i].symbol == a[i].symbol && (a[i].left ==> b[i].left)
  }

  // ---- Invariants ------------------------------------------------------------------------------

  /** A row agrees with its key, its lease rule and a legal history that began with WAITING. */
  ghost predicate RowOk(id: int, w: Watch, trail: seq<Status>) {
    && w.id == id && LeaseOk(w)
    && |trail| > 0 && trail[0] == Waiting && trail[|trail| - 1] == w.status && Legal(trail)
  }

  ghost predicate Inv(d: Desk) {
    && d.trails.Keys == d.rows.Keys
    && forall id | id in d.rows :: RowOk(id, d.rows[id], d.trails[id])
  }

  /** The claim of a watch that carries an opportunity. */
  ghost predicate Earned(rows: map<int, Watch>, c: Claim) {
    c.id in rows && rows[c.id].opportunity.Some? && c.trigger == rows[c.id].triggerVersion
  }

  /** The watch the card was stored for carries it, for the same trigger. */
  ghost predicate Carried(rows: map<int, Watch>, i: Issue) {
    i.claim.id in rows && rows[i.claim.id].opportunity == Some(i.card)
        && i.claim.trigger == rows[i.claim.id].triggerVersion
  }

  /** The card exists and is one of its watch's symbol. */
  ghost predicate Issued(rows: map<int, Watch>, cards: seq<Card>, i: Issue) {
    i.claim.id in rows && i.card < |cards| && cards[i.card].symbol == rows[i.claim.id].symbol
  }

  /**
    No card was stored twice; of two cards of one symbol the older has left AWAITING_CONFIRMATION,
    and of two cards stored for one watch the older is an incident.
   */
  ghost predicate InTurn(cards: seq<Card>, issues: set<Issue>, incidents: set<Issue>) {
    && (forall i | i in issues :: i.card < |cards|)
    && (forall i, j | i in issues && j in issues && i.card == j.card :: i == j)
    && (forall i, j | i in issues && j in issues && i.card < j.card ::
          && (cards[i.card].symbol == cards[j.card].symbol ==> cards[i.card].left)
          && (i.claim.id == j.claim.id ==> i in incidents))
  }

  /** A watch carries an opportunity exactly when CONVERTED, and the stored cards are in turn. */
  ghost predicate Balanced(d: Desk) {
    && (forall id | id in d.rows :: d.rows[id].id == id)
    && (forall id | id in d.rows :: d.rows[id].opportunity.Some? <==> d.rows[id].status == Converted)
    && (forall i | i in d.issues :: Issued(d.rows, d.cards, i))
    && InTurn(d.cards, d.issues, d.incidents)
  }

  /** Every stored card is carried by its watch, or its attempt went wrong, or it is `pending`. */
  ghost predicate Explained(d: Desk, pending: Option<Issue>) {
    forall i | i in d.issues :: Carried(d.rows, i) || i in d.incidents || pending == Some(i)
  }

  /** The books balance, every stored card is explained, and the claims held are exactly the earned ones. */
  ghost predicate Exact(d: Desk) {
    Balanced(d) && Explained(d, None) && forall c :: c in d.claims <==> Earned(d.rows, c)
  }

  /** Exact but for the claim of watch `id`, held while it is being published, and its stored card. */
  ghost predicate Holding(d: Desk, id: int, pending: Option<Issue>) {
    && Balanced(d) && id in d.rows && d.rows[id].opportunity.None?
    && Explained(d, pending) && (pending.Some? ==> pending.value.claim == ClaimOf(d.rows[id]))
    && forall c :: c in d.claims <==> Earned(d.rows, c) || c == ClaimOf(d.rows[id])
  }

  // ---- How the desk moves ----------------------------------------------------------------------

  /** Writing one row, recording the status write if it is one. */
  ghost function Put(d: Desk, w: Watch): Desk {
    d.(rows := d.rows[w.id := w],
       trails := if w.id in d.rows && w.id in d.trails
                 then (if d.rows[w.id].status == w.status then d.trails
                     else d.trails[w.id := d.trails[w.id] + [w.status]])
                 else d.trails[w.id := [w.status]])
  }

  /** Nothing is forgotten: rows, histories, cards, issues and incidents only grow, and rows stay legal. */
  ghost predicate Grew(d: Desk, d': Desk) {
    && d.rows.Keys <= d'.rows.Keys && d.trails.Keys <= d'.trails.Keys
    && (forall id | id in d.trails :: d.trails[id] <= d'.trails[id])
    && d.issues <= d'.issues && d.incidents <= d'.incidents && BoardGrew(d.cards, d'.cards)
    && (Inv(d) ==> Inv(d'))
  }

  /** Nothing was stored or earned: a balanced desk stays balanced, claim by claim and card by card. */
  ghost predicate Level(d: Desk, d': Desk) {
    && d'.issues == d.issues && d'.incidents == d.incidents
    && (Balanced(d) ==>
          && Balanced(d')
          && (forall c :: Earned(d'.rows, c) <==> Earned(d.rows, c))
          && (forall i :: Carried(d.rows, i) ==> Carried(d'.rows, i)))
  }

  lemma GrewTrans(a: Desk, b: Desk, c: Desk)
    requires Grew(a, b) && Grew(b, c)
    ensures Grew(a, c)
  {
    hide Inv;
    forall id | id in a.trails ensures a.trails[id] <= c.trails[id] {
      assert id in b.trails;
    }
  }

  lemma LevelTrans(a: Desk, b: Desk, c: Desk)
    requires Level(a, b) && Level(b, c)
    ensures Level(a, c)
  {
    hide Balanced, Earned, Carried;
  }

  /** With the same claims, a level move keeps exactness. */
  lemma LevelIsExact(d: Desk, d': Desk)
    requires Level(d, d') && d'.claims == d.claims
    ensures Exact(d) ==> Exact(d')
  {
    hide Balanced, Earned, Carried;
  }

  /** Only watch `id` moved, and nothing was stored. */
  ghost predicate Step(d: Desk, d': Desk, id: int) {
    && id in d.rows && id in d.trails && id in d'.rows && id in d'.trails
    && d'.rows == d.rows[id := d'.rows[id]] && d'.trails == d.trails[id := d'.trails[id]]
    && d.trails[id] <= d'.trails[id] && d'.rows[id].symbol == d.rows[id].symbol && d'.cards == d.cards
    && (Inv(d) ==> Inv(d')) && Level(d, d') && (Exact(d) ==> Exact(d'))
  }

  lemma StepTrans(a: Desk, b: Desk, c: Desk, id: int)
    requires Step(a, b, id) && Step(b, c, id)
    ensures Step(a, c, id)
  {
    hide Inv, Exact, Level;
    LevelTrans(a, b, c);
  }

  lemma StepStay(d: Desk, id: int)
    requires id in d.rows && id in d.trails
    ensures Step(d, d, id)
  {
    assert d.rows == d.rows[id := d.rows[id]] && d.trails == d.trails[id := d.trails[id]];
  }

  lemma StepGrew(d: Desk, d': Desk, id: int)
    requires Step(d, d', id)
    ensures Grew(d, d')
  {
    hide Inv, Exact;
    forall j | j in d.trails ensures d.trails[j] <= d'.trails[j] {
      if j != id {
        assert d'.trails[j] == d.trails[j];
      }
    }
  }

  /** A row write that changes neither identity nor opportunity, along a legal edge. */
  ghost predicate Mild(w: Watch, w': Watch) {
    && w'.id == w.id && w'.symbol == w.symbol && w'.opportunity == w.opportunity
    && (w'.triggerVersion == w.triggerVersion || w.status == Waiting)
    && (LeaseOk(w) ==> LeaseOk(w'))
    && (w'.status == w.status || (w'.status in Allowed(w.status) && w'.status != Converted))
  }

  lemma PutKeepsInv(d: Desk, w': Watch)
    requires w'.id in d.rows && Inv(d) && LeaseOk(w')
    requires w'.status == d.rows[w'.id].status || w'.status in Allowed(d.rows[w'.id].status)
    ensures Inv(Put(d, w'))
  {
    var id := w'.id;
    assert RowOk(id, d.rows[id], d.trails[id]);
    if w'.status != d.rows[id].status {
      LegalAppend(d.trails[id], w'.status);
    }
    var d' := Put(d, w');
    forall j | j in d'.rows ensures RowOk(j, d'.rows[j], d'.trails[j]) {
      if j != id {
        assert RowOk(j, d.rows[j], d.trails[j]);
      }
    }
  }

  lemma PutIsLevel(d: Desk, w': Watch)
    requires w'.id in d.rows && Mild(d.rows[w'.id], w')
    ensures Level(d, Put(d, w'))
  {
    hide InTurn, LeaseOk;
  }

  lemma PutStep(d: Desk, w': Watch)
    requires w'.id in d.rows && w'.id in d.trails && d.rows[w'.id].id == w'.id && Mild(d.rows[w'.id], w')
    ensures Step(d, Put(d, w'), w'.id)
  {
    hide Level, Exact;
    var d' := Put(d, w');
    if Inv(d) {
      assert RowOk(w'.id, d.rows[w'.id], d.trails[w'.id]);
      PutKeepsInv(d, w');
    }
    PutIsLevel(d, w');
    LevelIsExact(d, d');
    assert d'.trails == d.trails[w'.id := d'.trails[w'.id]];
  }

  /** A step from a state exactness rules out: an opportunity on a watch that is not CONVERTED. */
  lemma PutFinish(d: Desk, w': Watch)
    requires w'.id in d.rows && w'.id in d.trails && d.rows[w'.id].id == w'.id
    requires d.rows[w'.id].opportunity.Some? && d.rows[w'.id].status != Converted
    requires LeaseOk(d.rows[w'.id]) ==> LeaseOk(w')
    requires w'.status in Allowed(d.rows[w'.id].status) && w'.symbol == d.rows[w'.id].symbol
    ensures Step(d, Put(d, w'), w'.id)
  {
    var d' := Put(d, w');
    if Inv(d) {
      assert RowOk(w'.id, d.rows[w'.id], d.trails[w'.id]);
      PutKeepsInv(d, w');
    }
    assert !Balanced(d);
    assert d'.trails == d.trails[w'.id := d'.trails[w'.id]];
  }

  /** Dropping an unpublished claim keeps exactness: there was none to drop. */
  lemma ReleaseKeeps(d: Desk, id: int)
    requires id in d.rows && id in d.trails && d.rows[id].id == id && d.rows[id].opportunity.None?
    ensures Step(d, d.(claims := d.claims - {ClaimOf(d.rows[id])}), id)
  {
    var d' := d.(claims := d.claims - {ClaimOf(d.rows[id])});
    assert d'.rows == d.rows[id := d'.rows[id]] && d'.trails == d.trails[id := d'.trails[id]];
    if Exact(d) {
      assert ClaimOf(d.rows[id]) !in d.claims;
      assert d'.claims == d.claims;
    }
  }

  /** At most one WAITING or TRIGGERED watch per symbol. */
  predicate Standing(s: Status) {
    s == Waiting || s == Triggered
  }

  ghost predicate OnePerSymbol(rows: map<int, Watch>) {
    forall a, b | a in rows && b in rows && Standing(rows[a].status) && Standing(rows[b].status) ::
      rows[a].symbol == rows[b].symbol ==> a == b
  }

  /** Any number of steps of any watches that store nothing. */
  ghost predicate Kept(d: Desk, d': Desk) {
    && d'.rows.Keys == d.rows.Keys && d'.trails.Keys == d.trails.Keys && d'.cards == d.cards
    && Grew(d, d') && Level(d, d') && (Exact(d) ==> Exact(d'))
  }

  lemma KeptStay(d: Desk)
    ensures Kept(d, d)
  {
  }

  lemma KeptTrans(a: Desk, b: Desk, c: Desk)
    requires Kept(a, b) && Kept(b, c)
    ensures Kept(a, c)
  {
    hide Grew, Level, Exact;
    GrewTrans(a, b, c);
    LevelTrans(a, b, c);
  }

  lemma StepIsKept(d: Desk, d': Desk, id: int)
    requires Step(d, d', id)
    ensures Kept(d, d')
  {
    hide Grew, Level, Exact, Inv;
    StepGrew(d, d', id);
    assert d'.rows.Keys == d.rows.Keys + {id} && d'.trails.Keys == d.trails.Keys + {id};
  }

  /** The same, leaving the claims alone. */
  ghost predicate Safe(d: Desk, d': Desk) {
    Kept(d, d') && d'.claims == d.claims
  }

  lemma SafeTrans(a: Desk, b: Desk, c: Desk)
    requires Safe(a, b) && Safe(b, c)
    ensures Safe(a, c)
  {
    hide Kept;
    KeptTrans(a, b, c);
  }

  lemma SafeMeans(d: Desk, d': Desk)
    requires Safe(d, d')
    ensures Kept(d, d') && d'.claims == d.claims
  {
  }

  lemma SafeStay(d: Desk)
    ensures Safe(d, d)
  {
  }

  lemma StepIsSafe(d: Desk, d': Desk, id: int)
    requires Step(d, d', id) && d'.claims == d.claims
    ensures Safe(d, d')
  {
    hide Kept, Step;
    StepIsKept(d, d', id);
  }

  lemma PutSafe(d: Desk, w': Watch)
    requires w'.id in d.rows && w'.id in d.trails && d.rows[w'.id].id == w'.id && Mild(d.rows[w'.id], w')
    ensures Safe(d, Put(d, w'))
  {
    hide Step, Mild;
    PutStep(d, w');
    StepIsSafe(d, Put(d, w'), w'.id);
  }

  lemma KeptBooks(d: Desk, d': Desk)
    requires Kept(d, d')
    ensures d'.issues == d.issues && d'.incidents == d.incidents && d'.cards == d.cards
  {
  }

  /** Any number of operations: nothing is forgotten and both invariants hold on. */
  ghost predicate Onward(d: Desk, d': Desk) {
    Grew(d, d') && (Exact(d) ==> Exact(d'))
  }

  lemma OnwardStay(d: Desk)
    ensures Onward(d, d)
  {
  }

  lemma OnwardTrans(a: Desk, b: Desk, c: Desk)
    requires Onward(a, b) && Onward(b, c)
    ensures Onward(a, c)
  {
    hide Grew, Exact;
    GrewTrans(a, b, c);
  }

  lemma KeptIsOnward(d: Desk, d': Desk)
    requires Kept(d, d')
    ensures Onward(d, d')
  {
  }

  lemma StepIsOnward(d: Desk, d': Desk, id: int)
    requires Step(d, d', id)
    ensures Onward(d, d')
  {
    StepGrew(d, d', id);
    hide Grew, Exact;
  }

  lemma OnwardKeepsExact(d: Desk, d': Desk)
    requires Onward(d, d')
    ensures Exact(d) ==> Exact(d')
  {
  }

  lemma OnwardMeans(d: Desk, d': Desk)
    requires Onward(d, d') && Inv(d) && Exact(d)
    ensures Inv(d') && Exact(d')
  {
  }

  /** In exact books a watch that is not CONVERTED carries no opportunity and holds no claim. */
  lemma ExactMeansFree(d: Desk, id: int)
    requires Exact(d) && id in d.rows && d.rows[id].status != Converted
    ensures d.rows[id].opportunity.None? && ClaimOf(d.rows[id]) !in d.claims
  {
    assert d.rows[id].id == id;
    assert !Earned(d.rows, ClaimOf(d.rows[id]));
  }

  /** A brand-new WAITING watch. */
  lemma CreateKeeps(d: Desk, w: Watch)
    requires w.id !in d.rows && w.id !in d.trails && w.status == Waiting && LeaseOk(w) && w.opportunity.None?
    ensures Grew(d, Put(d, w)) && Level(d, Put(d, w))
  {
    hide Inv, Level;
    if Inv(d) {
      CreateKeepsInv(d, w);
    }
    CreateIsLevel(d, w);
  }

  lemma CreateIsLevel(d: Desk, w: Watch)
    requires w.id !in d.rows && w.status == Waiting && w.opportunity.None?
    ensures Level(d, Put(d, w))
  {
    hide InTurn;
  }

  lemma CreateKeepsInv(d: Desk, w: Watch)
    requires w.id !in d.rows && w.id !in d.trails && w.status == Waiting && LeaseOk(w)
    requires Inv(d)
    ensures Inv(Put(d, w))
  {
    var d' := Put(d, w);
    forall id | id in d'.rows ensures RowOk(id, d'.rows[id], d'.trails[id]) {
      if id != w.id {
        assert RowOk(id, d.rows[id], d.trails[id]);
      }
    }
  }

  // ---- What others do meanwhile ----------------------------------------------------------------

  ghost predicate Repriced(w: Watch, w': Watch) {
    w' == w.(lastPrice := w'.lastPrice)
  }

  /** What other parts of the desk may do to a watch: a standing one may be superseded or expire. */
  ghost predicate Drifted(w: Watch, w': Watch) {
    && w'.id == w.id && w'.symbol == w.symbol && w'.opportunity == w.opportunity
    && w'.triggerVersion == w.triggerVersion
    && (if Standing(w.status) then w'.status in {w.status, Invalidated, Expired} else Repriced(w, w'))
  }

  /** Other watches may appear, but only the drift of a watch and no lease comes from outside its turn. */
  ghost predicate Drift(rows: map<int, Watch>, rows': map<int, Watch>) {
    && (forall id | id in rows :: id in rows' && Drifted(rows[id], rows'[id]))
    && (forall id | id in rows' && id !in rows :: !Leased(rows'[id].status))
  }

  lemma DriftTrans(a: map<int, Watch>, b: map<int, Watch>, c: map<int, Watch>)
    requires Drift(a, b) && Drift(b, c)
    ensures Drift(a, c)
  {
    forall id | id in a ensures id in c && Drifted(a[id], c[id]) {
      assert id in b;
    }
    forall id | id in c && id !in a ensures !Leased(c[id].status) {
      if id in b {
        assert Drifted(b[id], c[id]);
      }
    }
  }

  /** What any number of foreign store calls do: no claim, no stored card, and no more than drift. */
  ghost predicate Apart(d: Desk, d': Desk) {
    Grew(d, d') && Level(d, d') && d'.claims == d.claims && Drift(d.rows, d'.rows)
  }

  lemma ApartTrans(a: Desk, b: Desk, c: Desk)
    requires Apart(a, b) && Apart(b, c)
    ensures Apart(a, c)
  {
    hide Grew, Level, Drift;
    GrewTrans(a, b, c);
    LevelTrans(a, b, c);
    DriftTrans(a.rows, b.rows, c.rows);
  }

  lemma ApartStay(d: Desk)
    ensures Apart(d, d)
  {
  }

  lemma SafeIsApart(d: Desk, d': Desk)
    requires Safe(d, d') && Drift(d.rows, d'.rows)
    ensures Apart(d, d')
  {
    hide Grew, Level, Drift, Exact;
  }

  lemma ApartIsOnward(d: Desk, d': Desk)
    requires Apart(d, d')
    ensures Onward(d, d') && d'.issues == d.issues && d'.incidents == d.incidents
  {
    LevelIsExact(d, d');
    hide Grew, Drift, Exact, Balanced, Earned, Carried;
  }

  /** A watch that is not standing keeps everything but its price. */
  lemma ApartKeepsRow(d: Desk, d': Desk, id: int)
    requires Apart(d, d') && id in d.rows && !Standing(d.rows[id].status)
    ensures id in d'.rows && Repriced(d.rows[id], d'.rows[id])
  {
    assert Drifted(d.rows[id], d'.rows[id]);
  }

  /** Opening, closing and reopening cards elsewhere disturbs no book. */
  lemma BoardIsApart(d: Desk, cards: seq<Card>)
    requires BoardGrew(d.cards, cards)
    ensures Apart(d, d.(cards := cards))
  {
    var d' := d.(cards := cards);
    assert Inv(d) ==> Inv(d');
  }

  // ---- One turn --------------------------------------------------------------------------------

  /** While watch `id` has its turn, the others do no more than drift. */
  ghost predicate Aside(rows: map<int, Watch>, rows': map<int, Watch>, id: int) {
    && id in rows && id in rows' && rows'[id].symbol == rows[id].symbol
    && (forall j | j in rows && j != id :: j in rows' && Drifted(rows[j], rows'[j]))
    && (forall j | j in rows' && j !in rows :: !Leased(rows'[j].status))
  }

  lemma AsideTrans(a: map<int, Watch>, b: map<int, Watch>, c: map<int, Watch>, id: int)
    requires Aside(a, b, id) && Aside(b, c, id)
    ensures Aside(a, c, id)
  {
    forall j | j in a && j != id ensures j in c && Drifted(a[j], c[j]) {
      assert j in b;
    }
    forall j | j in c && j !in a ensures !Leased(c[j].status) {
      if j in b {
        assert Drifted(b[j], c[j]);
      }
    }
  }

  /** Any part of the turn of watch `id`, foreign operations included. */
  ghost predicate Move(d: Desk, d': Desk, id: int) {
    Onward(d, d') && Aside(d.rows, d'.rows, id)
  }

  lemma MoveTrans(a: Desk, b: Desk, c: Desk, id: int)
    requires Move(a, b, id) && Move(b, c, id)
    ensures Move(a, c, id)
  {
    hide Onward, Aside;
    OnwardTrans(a, b, c);
    AsideTrans(a.rows, b.rows, c.rows, id);
  }

  lemma StepIsMove(d: Desk, d': Desk, id: int)
    requires Step(d, d', id)
    ensures Move(d, d', id)
  {
    StepIsOnward(d, d', id);
    hide Onward, Inv, Exact, Level;
  }

  lemma ApartIsMove(d: Desk, d': Desk, id: int)
    requires Apart(d, d') && id in d.rows
    ensures Move(d, d', id)
  {
    ApartIsOnward(d, d');
    hide Onward, Grew, Level;
  }

  lemma MoveMeans(d: Desk, d': Desk, id: int)
    requires Move(d, d', id)
    ensures Onward(d, d') && Aside(d.rows, d'.rows, id) && (Exact(d) ==> Exact(d'))
  {
  }

  /** Nothing but prices changed. */
  ghost predicate Still(rows: map<int, Watch>, rows': map<int, Watch>) {
    rows'.Keys == rows.Keys && forall j | j in rows :: Repriced(rows[j], rows'[j])
  }

  /** Nothing but prices changed, outside watch `id`. */
  ghost predicate StillBut(rows: map<int, Watch>, rows': map<int, Watch>, id: int) {
    rows'.Keys == rows.Keys && forall j | j in rows && j != id :: Repriced(rows[j], rows'[j])
  }

  lemma StillButTrans(a: map<int, Watch>, b: map<int, Watch>, c: map<int, Watch>, id: int)
    requires StillBut(a, b, id) && StillBut(b, c, id)
    ensures StillBut(a, c, id)
  {
  }

  lemma StillButStay(rows: map<int, Watch>, id: int)
    ensures StillBut(rows, rows, id)
  {
  }

  lemma StillIsStillBut(rows: map<int, Watch>, rows': map<int, Watch>, id: int)
    requires Still(rows, rows')
    ensures StillBut(rows, rows', id)
  {
  }

  lemma StepIsStill(d: Desk, d': Desk, id: int)
    requires Step(d, d', id)
    ensures StillBut(d.rows, d'.rows, id) && d'.rows[id].symbol == d.rows[id].symbol
    ensures d'.issues == d.issues && d'.incidents == d.incidents
  {
    hide Inv, Exact, Balanced;
    assert d'.rows.Keys == d.rows.Keys + {id};
  }

  /** One row was written and no other. */
  lemma RowIsAside(rows: map<int, Watch>, rows': map<int, Watch>, id: int)
    requires id in rows && id in rows' && rows' == rows[id := rows'[id]] && rows'[id].symbol == rows[id].symbol
    ensures Aside(rows, rows', id) && StillBut(rows, rows', id)
  {
  }

  lemma StepMeans(d: Desk, d': Desk, id: int)
    requires Step(d, d', id)
    ensures Aside(d.rows, d'.rows, id) && StillBut(d.rows, d'.rows, id) && d'.rows[id].symbol == d.rows[id].symbol
    ensures d'.issues == d.issues && d'.incidents == d.incidents && d'.cards == d.cards
  {
    StepIsStill(d, d', id);
    RowIsAside(d.rows, d'.rows, id);
    hide Inv, Exact, Balanced;
  }

  lemma ApartIsAside(d: Desk, d': Desk, id: int)
    requires Apart(d, d') && id in d.rows
    ensures id in d'.rows && Aside(d.rows, d'.rows, id) && Drifted(d.rows[id], d'.rows[id])
    ensures d'.claims == d.claims && d'.issues == d.issues && d'.incidents == d.incidents
  {
    hide Grew, Balanced;
  }

  /** The cards stored for watch `id` in between, and whether they became incidents. */
  ghost predicate Issuing(d: Desk, d': Desk, id: int, stored: Option<nat>) {
    && id in d.rows && id in d'.rows
    && d'.issues == d.issues + (if stored.Some? then {Issue(ClaimOf(d.rows[id]), stored.value)} else {})
    && d'.incidents == d.incidents +
       (if stored.Some? && d'.rows[id].status != Converted then {Issue(ClaimOf(d.rows[id]), stored.value)} else {})
  }

  // ---- Publication -----------------------------------------------------------------------------

  /** A desk without the claim of watch `id`. */
  ghost function Freed(d: Desk, id: int): Desk
    requires id in d.rows
  {
    d.(claims := d.claims - {ClaimOf(d.rows[id])})
  }

  /** A claim is kept exactly by a watch that carries an opportunity. */
  ghost function Released(d: Desk, id: int): Desk
    requires id in d.rows
  {
    if d.rows[id].opportunity.Some? then d else Freed(d, id)
  }

  /** A publishing attempt of watch `id`, whose claim was held: it settles into exact books. */
  ghost predicate Served(d: Desk, d': Desk, id: int, pending: Option<Issue>) {
    && id in d.rows && id in d'.rows && Grew(d, d')
    && (Holding(d, id, pending) ==> Exact(Released(d', id)))
  }

  /** A held claim that is simply freed. */
  lemma HoldingFreed(d: Desk, id: int)
    requires Holding(d, id, None)
    ensures Exact(Freed(d, id))
  {
    hide Balanced;
    var k := ClaimOf(d.rows[id]);
    BalancedId(d, id);
    assert !Earned(d.rows, k);
    forall c ensures c in Freed(d, id).claims <==> Earned(d.rows, c) {
      assert c in d.claims <==> Earned(d.rows, c) || c == k;
    }
    FreedIsBalanced(d, id);
  }

  lemma BalancedId(d: Desk, id: int)
    requires Balanced(d) && id in d.rows
    ensures d.rows[id].id == id
  {
  }

  lemma FreedIsBalanced(d: Desk, id: int)
    requires Balanced(d) && id in d.rows
    ensures Balanced(Freed(d, id))
  {
  }

  /** Nothing happened: the claim is simply freed. */
  lemma StayServed(d: Desk, id: int)
    requires id in d.rows
    ensures Served(d, d, id, None)
  {
    hide Exact, Holding;
    if Holding(d, id, None) {
      HoldingMeans(d, id, None);
      HoldingFreed(d, id);
    }
  }

  lemma HoldingMeans(d: Desk, id: int, pending: Option<Issue>)
    requires Holding(d, id, pending)
    ensures id in d.rows && d.rows[id].opportunity.None? && Balanced(d) && d.rows[id].id == id
  {
  }

  /** Level moves that leave claim and opportunity of the watch alone keep its claim held. */
  lemma LevelHolds(d: Desk, d': Desk, id: int, pending: Option<Issue>)
    requires Level(d, d') && d'.claims == d.claims && id in d.rows && id in d'.rows
    requires d'.rows[id].opportunity == d.rows[id].opportunity && ClaimOf(d'.rows[id]) == ClaimOf(d.rows[id])
    ensures Holding(d, id, pending) ==> Holding(d', id, pending)
  {
    hide Balanced, Earned, Carried;
  }

  /** ... and settled books stay settled. */
  lemma LevelSettles(d: Desk, d': Desk, id: int)
    requires Level(d, d') && d'.claims == d.claims && id in d.rows && id in d'.rows
    requires d'.rows[id].opportunity == d.rows[id].opportunity && ClaimOf(d'.rows[id]) == ClaimOf(d.rows[id])
    ensures Exact(Released(d, id)) ==> Exact(Released(d', id))
  {
    var e, e' := Released(d, id), Released(d', id);
    ReleasedIsLevel(d, d', id);
    LevelIsExact(e, e');
  }

  lemma ReleasedIsLevel(d: Desk, d': Desk, id: int)
    requires Level(d, d') && d'.claims == d.claims && id in d.rows && id in d'.rows
    requires d'.rows[id].opportunity == d.rows[id].opportunity && ClaimOf(d'.rows[id]) == ClaimOf(d.rows[id])
    ensures Level(Released(d, id), Released(d', id)) && Released(d', id).claims == Released(d, id).claims
  {
    hide InTurn, Earned, Carried, Issued;
    var e, e' := Released(d, id), Released(d', id);
    assert Balanced(e) <==> Balanced(d);
    assert Balanced(e') <==> Balanced(d');
  }

  lemma ApartThenServed(a: Desk, b: Desk, c: Desk, id: int, pending: Option<Issue>)
    requires Apart(a, b) && id in a.rows && !Standing(a.rows[id].status) && Served(b, c, id, pending)
    ensures Served(a, c, id, pending)
  {
    hide Grew, Level, Drift, Holding, Exact;
    ApartKeepsRow(a, b, id);
    GrewTrans(a, b, c);
    LevelHolds(a, b, id, pending);
  }

  lemma ServedThenApart(a: Desk, b: Desk, c: Desk, id: int, pending: Option<Issue>)
    requires Served(a, b, id, pending) && Apart(b, c)
    ensures Served(a, c, id, pending)
  {
    hide Grew, Level, Holding, Exact, Released;
    GrewTrans(a, b, c);
    assert id in c.rows && Drifted(b.rows[id], c.rows[id]);
    LevelSettles(b, c, id);
  }

  lemma StepThenServed(a: Desk, b: Desk, c: Desk, id: int, pending: Option<Issue>)
    requires Step(a, b, id) && b.claims == a.claims && Served(b, c, id, pending)
    requires b.rows[id].opportunity == a.rows[id].opportunity && ClaimOf(b.rows[id]) == ClaimOf(a.rows[id])
    ensures Served(a, c, id, pending)
  {
    StepGrew(a, b, id);
    hide Grew, Level, Holding, Exact, Inv;
    GrewTrans(a, b, c);
    LevelHolds(a, b, id, pending);
  }

  /** An attempt that stored no card: the claim may already be free. */
  lemma StepServed(d: Desk, d': Desk, id: int)
    requires Step(d, d', id) && d'.claims in {d.claims, d.claims - {ClaimOf(d.rows[id])}}
    requires d'.rows[id].opportunity == d.rows[id].opportunity && ClaimOf(d'.rows[id]) == ClaimOf(d.rows[id])
    ensures Served(d, d', id, None)
  {
    StepGrew(d, d', id);
    if Holding(d, id, None) {
      var held := d'.(claims := d.claims);
      HeldIsLevel(d, d', id);
      LevelHolds(d, held, id, None);
      HoldingFreed(held, id);
      assert Freed(d', id) == Freed(held, id);
    }
  }

  lemma HeldIsLevel(d: Desk, d': Desk, id: int)
    requires Step(d, d', id)
    ensures Level(d, d'.(claims := d.claims))
  {
    hide Inv, InTurn, Exact;
  }

  /** The cards stored for watches of one symbol have all left AWAITING_CONFIRMATION. */
  ghost predicate AllLeft(d: Desk, symbol: string) {
    forall i | i in d.issues && i.card < |d.cards| && d.cards[i.card].symbol == symbol :: d.cards[i.card].left
  }

  lemma NoneOpenLeft(d: Desk, symbol: string)
    requires BoardOk(d.cards) && OpenCard(d.cards, symbol).None?
    ensures AllLeft(d, symbol)
  {
    hide OpenCard;
  }

  lemma LeftStays(d: Desk, d': Desk, symbol: string)
    requires AllLeft(d, symbol) && Balanced(d) && BoardGrew(d.cards, d'.cards) && d'.issues == d.issues
    ensures AllLeft(d', symbol)
  {
    forall i | i in d'.issues ensures i.card < |d.cards| {}
  }

  /** A new card stored for watch `id`. */
  ghost function Stored(d: Desk, id: int): Desk
    requires id in d.rows
  {
    var w := d.rows[id];
    d.(cards := d.cards + [Card(w.symbol, true, false)], issues := d.issues + {Issue(ClaimOf(w), |d.cards|)})
  }

  lemma StoredHolds(d: Desk, id: int)
    requires Holding(d, id, None) && AllLeft(d, d.rows[id].symbol)
    ensures Holding(Stored(d, id), id, Some(Issue(ClaimOf(d.rows[id]), |d.cards|)))
  {
    var d', i := Stored(d, id), Issue(ClaimOf(d.rows[id]), |d.cards|);
    forall j | j in d'.issues ensures Issued(d'.rows, d'.cards, j) {
      if j != i {
        assert Issued(d.rows, d.cards, j);
      }
    }
    StoredInTurn(d, id);
  }

  lemma StoredInTurn(d: Desk, id: int)
    requires Holding(d, id, None) && AllLeft(d, d.rows[id].symbol)
    ensures InTurn(Stored(d, id).cards, Stored(d, id).issues, d.incidents)
  {
    hide Earned;
    var d', k := Stored(d, id), |d.cards|;
    assert InTurn(d.cards, d.issues, d.incidents);
    forall i, j | i in d'.issues && j in d'.issues && i.card < j.card
      ensures d'.cards[i.card].symbol == d'.cards[j.card].symbol ==> d'.cards[i.card].left
      ensures i.claim.id == j.claim.id ==> i in d.incidents
    {
      assert i in d.issues && i.card < k;
      if j.card == k && i.claim.id == id {
        assert !Carried(d.rows, i);
      }
    }
  }

  lemma StoredGrew(d: Desk, id: int)
    requires id in d.rows
    ensures Grew(d, Stored(d, id))
  {
    assert Inv(d) ==> Inv(Stored(d, id));
  }

  /**
    Storing a card for a watch whose symbol had none open. `a` is the desk when the cards were
    looked at, `b` the desk when the card is stored.
   */
  lemma StoreServes(a: Desk, b: Desk, c: Desk, id: int)
    requires id in a.rows && !Standing(a.rows[id].status) && Apart(a, b) && id in b.rows
    requires BoardOk(a.cards) && OpenCard(a.cards, a.rows[id].symbol).None?
    requires Served(Stored(b, id), c, id, Some(Issue(ClaimOf(b.rows[id]), |b.cards|)))
    ensures Served(a, c, id, None)
  {
    ApartKeepsRow(a, b, id);
    StoredGrew(b, id);
    GrewTrans(b, Stored(b, id), c);
    GrewTrans(a, b, c);
    if Holding(a, id, None) {
      LevelHolds(a, b, id, None);
      NoneOpenLeft(a, a.rows[id].symbol);
      ApartBooks(a, b);
      LeftStays(a, b, a.rows[id].symbol);
      hide Grew, Holding, Exact, AllLeft, Drift, Level;
      StoredHolds(b, id);
    }
  }

  lemma ApartBooks(d: Desk, d': Desk)
    requires Apart(d, d')
    ensures d'.issues == d.issues && d'.incidents == d.incidents && BoardGrew(d.cards, d'.cards)
  {
  }

  /** The CONVERTED mark: the held claim becomes an earned one, and the pending card a carried one. */
  lemma ConvertServes(d: Desk, w': Watch, id: int, pending: Option<Issue>)
    requires id in d.rows && id in d.trails && w'.id == id && w'.status == Converted && d.rows[id].status == Converting
    requires w'.symbol == d.rows[id].symbol && w'.triggerVersion == d.rows[id].triggerVersion && w'.opportunity.Some?
    requires pending.Some? ==> w'.opportunity == Some(pending.value.card)
    requires LeaseOk(d.rows[id]) ==> LeaseOk(w')
    ensures Served(d, Put(d, w'), id, pending)
  {
    hide Grew, Explained, Balanced, LeaseOk;
    var d' := Put(d, w');
    PutGrew(d, w');
    if Holding(d, id, pending) {
      ConvertExplains(d, w', id, pending);
      ConvertBalances(d, w', id);
      BalancedId(d, id);
      forall c ensures c in d'.claims <==> Earned(d'.rows, c) {
        assert c in d.claims <==> Earned(d.rows, c) || c == ClaimOf(d.rows[id]);
      }
    }
  }

  lemma ConvertBalances(d: Desk, w': Watch, id: int)
    requires Balanced(d) && id in d.rows && w'.id == id && w'.status == Converted && w'.opportunity.Some?
    requires w'.symbol == d.rows[id].symbol
    ensures Balanced(Put(d, w'))
  {
    hide InTurn;
  }

  lemma PutGrew(d: Desk, w': Watch)
    requires w'.id in d.rows && w'.id in d.trails && w'.status in Allowed(d.rows[w'.id].status)
    requires LeaseOk(d.rows[w'.id]) ==> LeaseOk(w')
    ensures Grew(d, Put(d, w'))
  {
    if Inv(d) {
      assert RowOk(w'.id, d.rows[w'.id], d.trails[w'.id]);
      PutKeepsInv(d, w');
    }
    hide Inv;
  }

  lemma ConvertExplains(d: Desk, w': Watch, id: int, pending: Option<Issue>)
    requires Holding(d, id, pending) && w'.id == id && w'.opportunity.Some?
    requires w'.triggerVersion == d.rows[id].triggerVersion
    requires pending.Some? ==> w'.opportunity == Some(pending.value.card)
    ensures Explained(Put(d, w'), None)
  {
    hide Earned, InTurn;
    var d' := Put(d, w');
    forall i | i in d'.issues ensures Carried(d'.rows, i) || i in d'.incidents {
      assert Carried(d.rows, i) || i in d.incidents || pending == Some(i);
    }
  }

  /** A stored card whose attempt went wrong. */
  ghost function Mishap(d: Desk, i: Issue): Desk {
    d.(incidents := d.incidents + {i})
  }

  /** A card was stored, but its publication raised or its CONVERTED mark was refused. */
  lemma IncidentServes(d: Desk, id: int, i: Issue)
    requires id in d.rows
    ensures Served(d, Mishap(d, i), id, Some(i))
  {
    var d' := Mishap(d, i);
    assert Inv(d) ==> Inv(d');
    if Holding(d, id, Some(i)) {
      assert Holding(d', id, None) by {
        hide Earned, Carried;
        assert Balanced(d');
      }
      HoldingFreed(d', id);
    }
  }

  /** Taking the claim of a watch, an attempt, and freeing the claim unless it was earned. */
  lemma ClaimedOnward(d: Desk, d': Desk, id: int)
    requires id in d.rows && d.rows[id].status != Converted && ClaimOf(d.rows[id]) !in d.claims
    requires Served(d.(claims := d.claims + {ClaimOf(d.rows[id])}), d', id, None)
    ensures Onward(d, Released(d', id))
  {
    var k := ClaimOf(d.rows[id]);
    var held := d.(claims := d.claims + {k});
    assert Grew(d, Released(d', id)) by {
      hide Exact, Holding;
      assert Inv(d) ==> Inv(held);
      assert Inv(d') ==> Inv(Released(d', id));
    }
    if Exact(d) {
      ExactMeansFree(d, id);
      ClaimHolds(d, id);
    }
  }

  lemma ClaimHolds(d: Desk, id: int)
    requires Exact(d) && id in d.rows && d.rows[id].opportunity.None?
    ensures Holding(d.(claims := d.claims + {ClaimOf(d.rows[id])}), id, None)
  {
    hide InTurn, Earned, Carried;
  }

  // ---- Duplicate watches -----------------------------------------------------------------------

  function Rank(w: Watch): int {
    if w.status == Triggered then 0 else 1
  }

  /** The sort key of duplicate collapsing: TRIGGERED before WAITING, then the newest. */
  predicate Before(a: Watch, b: Watch) {
    Rank(a) < Rank(b) || (Rank(a) == Rank(b) && a.createdAt > b.createdAt)
  }

  /** The standing watches of one symbol, in store order. */
  function Duplicates(rows: map<int, Watch>, order: seq<int>, symbol: string): (ids: seq<int>)
    ensures forall id :: id in ids <==>
      id in order && id in rows && Standing(rows[id].status) && rows[id].symbol == symbol
  {
    if |order| == 0 then []
    else
      var id := order[|order| - 1];
      var rest := Duplicates(rows, order[..|order| - 1], symbol);
      if id in rows && Standing(rows[id].status) && rows[id].symbol == symbol then rest + [id] else rest
  }

  /** What a stable sort by `Before` puts first. */
  function First(rows: map<int, Watch>, ids: seq<int>): (best: int)
    requires |ids| > 0 && forall id | id in ids :: id in rows
    ensures best in ids
  {
    var last := ids[|ids| - 1];
    if |ids| == 1 then last
    else
      var best := First(rows, ids[..|ids| - 1]);
      if Before(rows[last], rows[best]) then last else best
  }

  /** The watch that survives collapsing is the best of its symbol. */
  lemma {:induction false} FirstIsBest(rows: map<int, Watch>, ids: seq<int>)
    requires |ids| > 0 && forall id | id in ids :: id in rows
    ensures forall id | id in ids :: !Before(rows[id], rows[First(rows, ids)])
  {
    if |ids| > 1 {
      FirstIsBest(rows, ids[..|ids| - 1]);
      forall id | id in ids ensures !Before(rows[id], rows[First(rows, ids)]) {
        assert id in ids[..|ids| - 1] || id == ids[|ids| - 1];
      }
    }
  }

  lemma {:induction false} FirstAgrees(rows: map<int, Watch>, rows': map<int, Watch>, ids: seq<int>)
    requires |ids| > 0 && forall id | id in ids :: id in rows && id in rows' && rows[id] == rows'[id]
    ensures First(rows, ids) == First(rows', ids)
  {
    if |ids| > 1 {
      FirstAgrees(rows, rows', ids[..|ids| - 1]);
    }
  }

  function Superseded(w: Watch): Watch {
    w.(status := Invalidated)
  }

  lemma SupersededIsMild(w: Watch)
    requires Standing(w.status)
    ensures Mild(w, Superseded(w)) && Superseded(w).id == w.id
    ensures Mild(Superseded(w), Superseded(w)) && Superseded(Superseded(w)) == Superseded(w)
  {
  }

  lemma ExpiringIsMild(w: Watch, now: int)
    ensures Mild(w, Expiring(w, now)) && Expiring(w, now).id == w.id
    ensures !(w.status == Waiting && w.validUntil <= now) ==> Expiring(w, now) == w
    ensures Mild(Expiring(w, now), Expiring(w, now)) && Expiring(Expiring(w, now), now) == Expiring(w, now)
  {
  }

  /** Collapsing one group, partway: the duplicates in `done` other than `best` are superseded. */
  ghost predicate Partly(start: map<int, Watch>, now: map<int, Watch>, done: set<int>, best: int) {
    now.Keys == start.Keys &&
    forall id | id in now :: now[id] == if id in done && id != best then Superseded(start[id]) else start[id]
  }

  lemma PartlyStart(start: map<int, Watch>, best: int)
    ensures Partly(start, start, {}, best)
  {
  }

  lemma PartlyMeans(start: map<int, Watch>, now: map<int, Watch>, done: set<int>, best: int)
    requires Partly(start, now, done, best)
    ensures now.Keys == start.Keys
    ensures forall id | id in now :: now[id] == if id in done && id != best then Superseded(start[id]) else start[id]
  {
  }

  lemma PartlyStep(start: map<int, Watch>, now: map<int, Watch>, done: set<int>, best: int, id: int)
    requires Partly(start, now, done, best) && id in start && start[id].id == id && Standing(start[id].status)
    ensures id in now && now[id].id == id && Mild(now[id], Superseded(now[id])) && Superseded(now[id]).id == id
    ensures id != best ==> Partly(start, now[id := Superseded(now[id])], done + {id}, best)
    ensures id == best ==> Partly(start, now, done + {id}, best)
  {
    SupersededIsMild(start[id]);
  }

  predicate Extra(rows: map<int, Watch>, order: seq<int>, id: int)
    requires id in rows
  {
    Standing(rows[id].status) && id in order &&
    id != First(rows, Duplicates(rows, order, rows[id].symbol))
  }

  /** The rows after collapsing: every duplicate but the best is INVALIDATED, nothing else moves. */
  function Collapsed(rows: map<int, Watch>, order: seq<int>): (after: map<int, Watch>)
    ensures after.Keys == rows.Keys
  {
    map id | id in rows :: if Extra(rows, order, id) then Superseded(rows[id]) else rows[id]
  }

  /** Collapsing, one symbol at a time. */
  lemma CollapsedOf(rows: map<int, Watch>, order: seq<int>, symbol: string)
    requires forall id | id in rows :: id in order
    ensures forall id | id in rows && rows[id].symbol == symbol ::
      Collapsed(rows, order)[id] ==
      if id in Duplicates(rows, order, symbol) && id != First(rows, Duplicates(rows, order, symbol))
      then Superseded(rows[id]) else rows[id]
  {
  }

  lemma CollapsedIsUnique(rows: map<int, Watch>, order: seq<int>)
    requires forall id | id in rows :: id in order
    ensures OnePerSymbol(Collapsed(rows, order))
  {
  }

  /** Collapsing loses no symbol: a symbol with a standing watch keeps exactly its best one. */
  lemma CollapsedKeepsBest(rows: map<int, Watch>, order: seq<int>, symbol: string)
    requires forall id | id in rows :: id in order
    requires exists id :: id in rows && Standing(rows[id].status) && rows[id].symbol == symbol
    ensures var ids := Duplicates(rows, order, symbol);
            && |ids| > 0
            && var best := First(rows, ids);
               && Collapsed(rows, order)[best] == rows[best] && Standing(rows[best].status)
               && rows[best].symbol == symbol
               && forall id | id in rows && Standing(rows[id].status) && rows[id].symbol == symbol ::
                    !Before(rows[id], rows[best]) && (id != best ==> Collapsed(rows, order)[id].status == Invalidated)
  {
    var id :| id in rows && Standing(rows[id].status) && rows[id].symbol == symbol;
    assert id in Duplicates(rows, order, symbol);
    FirstIsBest(rows, Duplicates(rows, order, symbol));
  }

  // ---- Collapsing, spelled out -------------------------------------------------------------------

  ghost predicate Earlier(order: seq<int>, a: int, b: int) {
    exists p, q :: 0 <= p < q < |order| && order[p] == a && order[q] == b
  }

  /** TRIGGERED goes before WAITING, then the watch created later, then the one first in store order. */
  ghost predicate Outranks(rows: map<int, Watch>, order: seq<int>, a: int, b: int) {
    && a in rows && b in rows && a != b && rows[a].symbol == rows[b].symbol
    && ((rows[a].status == Triggered && rows[b].status == Waiting) ||
        (rows[a].status == rows[b].status && rows[b].status in {Triggered, Waiting} &&
         (rows[a].createdAt > rows[b].createdAt ||
          (rows[a].createdAt == rows[b].createdAt && Earlier(order, a, b)))))
  }

  /** A duplicate another watch of its symbol outranks is INVALIDATED, every other row stays. */
  ghost function Swept(rows: map<int, Watch>, order: seq<int>, id: int): Watch
    requires id in rows
  {
    if exists a :: Outranks(rows, order, a, id) then rows[id].(status := Invalidated) else rows[id]
  }

  /** ... and a WAITING watch left over is EXPIRED at its deadline. */
  ghost function Tidied(rows: map<int, Watch>, order: seq<int>, now: int, id: int): Watch
    requires id in rows
  {
    var w := Swept(rows, order, id);
    if w.status == Waiting && w.validUntil <= now then w.(status := Expired) else w
  }

  ghost predicate SweptTo(before: map<int, Watch>, order: seq<int>, after: map<int, Watch>) {
    after.Keys == before.Keys && forall id | id in before :: after[id] == Swept(before, order, id)
  }

  ghost predicate TidiedTo(before: map<int, Watch>, order: seq<int>, now: int, after: map<int, Watch>) {
    after.Keys == before.Keys && forall id | id in before :: after[id] == Tidied(before, order, now, id)
  }

  lemma OutranksLater(rows: map<int, Watch>, pre: seq<int>, order: seq<int>, a: int, b: int)
    requires pre <= order && Outranks(rows, pre, a, b)
    ensures Outranks(rows, order, a, b)
  {
    if Earlier(pre, a, b) {
      var p, q :| 0 <= p < q < |pre| && pre[p] == a && pre[q] == b;
      assert order[p] == a && order[q] == b;
    }
  }

  lemma {:induction false} FirstOutranks(rows: map<int, Watch>, order: seq<int>, symbol: string)
    requires NoDuplicates(order) && Duplicates(rows, order, symbol) != []
    ensures var ids := Duplicates(rows, order, symbol);
            forall id | id in ids && id != First(rows, ids) :: Outranks(rows, order, First(rows, ids), id)
  {
    var n := |order| - 1;
    var pre, last := order[..n], order[n];
    var rest, ids := Duplicates(rows, pre, symbol), Duplicates(rows, order, symbol);
    assert last !in pre;
    if rest != [] {
      FirstOutranks(rows, pre, symbol);
      assert ids != rest ==> ids[..|ids| - 1] == rest;
      forall id | id in ids && id != First(rows, ids) ensures Outranks(rows, order, First(rows, ids), id) {
        FirstOutranksStep(rows, order, symbol, id);
      }
    }
  }

  lemma FirstOutranksStep(rows: map<int, Watch>, order: seq<int>, symbol: string, id: int)
    requires NoDuplicates(order) && |order| > 0
    requires var pre := order[..|order| - 1];
             var rest := Duplicates(rows, pre, symbol);
             rest != [] && forall j | j in rest && j != First(rows, rest) :: Outranks(rows, pre, First(rows, rest), j)
    requires var ids := Duplicates(rows, order, symbol); id in ids && id != First(rows, ids)
    ensures Outranks(rows, order, First(rows, Duplicates(rows, order, symbol)), id)
  {
    var n := |order| - 1;
    var pre, last := order[..n], order[n];
    var rest, ids := Duplicates(rows, pre, symbol), Duplicates(rows, order, symbol);
    var best := First(rows, rest);
    if id in rest && id != best {
      OutranksLater(rows, pre, order, best, id);
    }
    if ids != rest {
      assert ids[..|ids| - 1] == rest && ids[|ids| - 1] == last;
      assert best in pre;
      var p :| 0 <= p < n && pre[p] == best;
      assert order[p] == best && order[n] == last;
      assert Earlier(order, best, last);
    }
  }

  /** What collapsing leaves, without any notion of a best watch. */
  lemma CollapsedSpelledOut(rows: map<int, Watch>, order: seq<int>)
    requires NoDuplicates(order) && forall id | id in rows :: id in order
    ensures SweptTo(rows, order, Collapsed(rows, order))
  {
    forall id | id in rows ensures Collapsed(rows, order)[id] == Swept(rows, order, id) {
      CollapsedSpelledOutAt(rows, order, id);
    }
  }

  lemma CollapsedSpelledOutAt(rows: map<int, Watch>, order: seq<int>, id: int)
    requires NoDuplicates(order) && (forall j | j in rows :: j in order) && id in rows
    ensures Collapsed(rows, order)[id] == Swept(rows, order, id)
  {
    hide First, Duplicates, Outranks, NoDuplicates;
    var ids := Duplicates(rows, order, rows[id].symbol);
    if Standing(rows[id].status) {
      assert id in ids;
      FirstOutranks(rows, order, rows[id].symbol);
      if id == First(rows, ids) {
        forall a ensures !Outranks(rows, order, a, id) {
          OutranksMeans(rows, order, a, id);
          if a in ids && a != id {
            assert Outranks(rows, order, id, a);
            OutranksOneWay(rows, order, a, id);
          }
        }
      }
    } else {
      forall a ensures !Outranks(rows, order, a, id) {
        OutranksMeans(rows, order, a, id);
      }
    }
  }

  lemma OutranksMeans(rows: map<int, Watch>, order: seq<int>, a: int, b: int)
    requires forall j | j in rows :: j in order
    ensures Outranks(rows, order, a, b) ==>
      && a in rows && b in rows && a != b && Standing(rows[b].status)
      && a in Duplicates(rows, order, rows[b].symbol)
  {
  }

  lemma OutranksOneWay(rows: map<int, Watch>, order: seq<int>, a: int, b: int)
    requires NoDuplicates(order)
    ensures !(Outranks(rows, order, a, b) && Outranks(rows, order, b, a))
  {
  }

  lemma TidiedSpelledOut(rows: map<int, Watch>, order: seq<int>, now: int)
    requires NoDuplicates(order) && forall id | id in rows :: id in order
    ensures TidiedTo(rows, order, now, Lapsed(Collapsed(rows, order), now))
  {
    hide Swept, NoDuplicates, Collapsed;
    CollapsedSpelledOut(rows, order);
  }

  /** Who is left of a symbol: never a WAITING watch beside a TRIGGERED one, nor an older one beside a newer. */
  lemma SurvivorSpelledOut(rows: map<int, Watch>, order: seq<int>, id: int)
    requires id in rows && rows[id].status in {Waiting, Triggered} && Swept(rows, order, id) == rows[id]
    ensures rows[id].status == Waiting ==>
      forall j | j in rows && rows[j].symbol == rows[id].symbol :: rows[j].status != Triggered
    ensures forall j | j in rows && rows[j].symbol == rows[id].symbol && rows[j].status == rows[id].status ::
      rows[j].createdAt <= rows[id].createdAt
  {
    forall j ensures !Outranks(rows, order, j, id) {}
    forall j | j in rows && rows[j].symbol == rows[id].symbol
      ensures rows[id].status == Waiting ==> rows[j].status != Triggered
      ensures rows[j].status == rows[id].status ==> rows[j].createdAt <= rows[id].createdAt
    {
      assert !Outranks(rows, order, j, id);
    }
  }

  /** Collapsing is drift. */
  lemma CollapsedDrifts(rows: map<int, Watch>, order: seq<int>)
    ensures Drift(rows, Collapsed(rows, order))
  {
    hide First, Duplicates;
  }

  ghost predicate NoDuplicates(ids: seq<int>) {
    forall i, j | 0 <= i < j < |ids| :: ids[i] != ids[j]
  }

  /** The statuses the background poller touches. */
  predicate Actionable(s: Status) {
    !Terminal(s)
  }

  /** The statuses that keep a symbol's slot occupied for `find_open`. */
  predicate Open(s: Status) {
    Actionable(s) && s != Revalidating
  }

  function Expiring(w: Watch, now: int): Watch {
    if w.status == Waiting && w.validUntil <= now then w.(status := Expired) else w
  }

  /** The rows after TTL expiry. */
  function Lapsed(rows: map<int, Watch>, now: int): (after: map<int, Watch>)
    ensures after.Keys == rows.Keys
  {
    map id | id in rows :: Expiring(rows[id], now)
  }

  /** Expiry is drift. */
  lemma LapsedDrifts(rows: map<int, Watch>, now: int)
    ensures Drift(rows, Lapsed(rows, now))
  {
  }

  lemma RowDrifts(rows: map<int, Watch>, w: Watch)
    requires if w.id in rows then Drifted(rows[w.id], w) else !Leased(w.status)
    ensures Drift(rows, rows[w.id := w])
  {
  }

  /** The watches in statuses the poller touches, in store order. */
  function ActionableIn(rows: map<int, Watch>, order: seq<int>): (ids: seq<int>)
    ensures forall id :: id in ids <==> id in order && id in rows && Actionable(rows[id].status)
  {
    if |order| == 0 then []
    else
      var id := order[|order| - 1];
      var rest := ActionableIn(rows, order[..|order| - 1]);
      if id in rows && Actionable(rows[id].status) then rest + [id] else rest
  }

  lemma LapsedIsUnique(rows: map<int, Watch>, now: int)
    requires OnePerSymbol(rows)
    ensures OnePerSymbol(Lapsed(rows, now))
  {
  }

  /** TTL expiry, partway: the watches in `done` have been looked at. */
  ghost predicate PartlyLapsed(start: map<int, Watch>, now: map<int, Watch>, done: set<int>, clock: int) {
    now.Keys == start.Keys && forall id | id in now ::
        now[id] == if id in done then Expiring(start[id], clock) else start[id]
  }

  lemma PartlyLapsedStart(start: map<int, Watch>, clock: int)
    ensures PartlyLapsed(start, start, {}, clock)
  {
  }

  lemma PartlyLapsedStep(start: map<int, Watch>, now: map<int, Watch>, done: set<int>, clock: int, id: int)
    requires PartlyLapsed(start, now, done, clock) && id in start && start[id].id == id
    ensures id in now && now[id].id == id && Mild(now[id], Expiring(now[id], clock))
      && Expiring(now[id], clock).id == id
    ensures !(now[id].status == Waiting && now[id].validUntil <= clock) ==> PartlyLapsed(start, now, done + {id}, clock)
    ensures PartlyLapsed(start, now[id := Expiring(now[id], clock)], done + {id}, clock)
  {
    ExpiringIsMild(start[id], clock);
  }

  lemma PartlyLapsedMeans(start: map<int, Watch>, now: map<int, Watch>, done: set<int>, clock: int)
    requires PartlyLapsed(start, now, done, clock) && forall id | id in start :: id in done
    ensures now == Lapsed(start, clock)
  {
    assert now.Keys == Lapsed(start, clock).Keys;
    forall id | id in now ensures now[id] == Lapsed(start, clock)[id] {}
  }
}
