/**
  One-minute vendor bars, the five-minute bars built from them, and the reference meaning of
  the minute stream: every message is ingested on its own, against the durable table, with no
  cache. Times are microseconds since the epoch; prices and volumes are exact reals.
 */
module MarketBars {
  import opened Basics
  import opened Wrappers

  const MINUTE: int := 60_000_000
  const WINDOW: int := 5 * MINUTE

  datatype Timeframe = Min1 | Min5

  datatype Bar = Bar(symbol: string, ts: int, open: real, high: real, low: real, close: real, volume: real)

  /** Primary key of the durable bar table. */
  datatype RowKey = RowKey(feed: string, symbol: string, timeframe: Timeframe, ts: int)

  type Table = map<RowKey, Bar>

  /** Key of a five-minute window. */
  datatype WindowKey = WindowKey(symbol: string, start: int)

  /** OHLC ordering, a positive low and a non-negative volume. */
  predicate ValidBar(b: Bar) {
    && b.low > 0.0
    && b.low <= b.open && b.low <= b.close
    && b.high >= b.open && b.high >= b.close
    && b.volume >= 0.0
  }

  // ---- Parsing one vendor message ------------------------------------------------------------

  /** A numeric field as the vendor sent it: absent or unreadable, a number, or NaN/Infinity. */
  datatype Field = Missing | Number(value: real) | NotFinite

  /** `ts` is None when the timestamp is absent, unreadable or carries no time zone. */
  datatype Message = Message(
    kind: string, symbol: Option<string>, ts: Option<int>,
    open: Field, high: Field, low: Field, close: Field, volume: Field)

  datatype Parsed = Skipped | Minute(bar: Bar) | Raises

  function ParseMinute(m: Message, now: int): Parsed {
    if m.symbol.None? || (m.kind != "b" && m.kind != "u") || m.ts.None? then Skipped
    else if m.open.Missing? || m.high.Missing? || m.low.Missing? || m.close.Missing? || m.volume.Missing? then Skipped
    else if m.open.NotFinite? || m.high.NotFinite? || m.low.NotFinite? || m.close.NotFinite? || m.volume.NotFinite?
        then Raises
    else if !(1 <= |m.symbol.value| <= 16) then Raises
    else
      var b := Bar(Upper(m.symbol.value), m.ts.value,
                   m.open.value, m.high.value, m.low.value, m.close.value, m.volume.value);
      if b.ts % MINUTE != 0 || b.ts + MINUTE > now || !ValidBar(b) then Skipped else Minute(b)
  }

  /** The minutes a batch contributes, in arrival order. */
  function Minutes(messages: seq<Message>, now: int): (bars: seq<Bar>)
    ensures forall b | b in bars :: ValidBar(b) && b.ts % MINUTE == 0
  {
    if |messages| == 0 then []
    else
      var rest := Minutes(messages[..|messages| - 1], now);
      match ParseMinute(messages[|messages| - 1], now)
      case Minute(b) => rest + [b]
      case _ => rest
  }

  predicate AnyRaises(messages: seq<Message>, now: int) {
    exists i :: 0 <= i < |messages| && ParseMinute(messages[i], now).Raises?
  }

  lemma MinutesOfOne(m: Message, now: int)
    ensures Minutes([m], now) == match ParseMinute(m, now) case Minute(b) => [b] case _ => []
  {
    assert [m][..0] == [];
    assert Minutes([m][..0], now) == [];
  }

  /** A usable minute: a bar or corrected bar, whole, over, with ordered positive prices. */
  predicate GoodMinute(m: Message, now: int) {
    && (m.kind == "b" || m.kind == "u") && m.symbol.Some? && m.ts.Some?
    && m.open.Number? && m.high.Number? && m.low.Number? && m.close.Number? && m.volume.Number?
    && 1 <= |m.symbol.value| <= 16
    && m.ts.value % 60_000_000 == 0 && m.ts.value + 60_000_000 <= now
    && 0.0 < m.low.value && m.low.value <= m.open.value <= m.high.value
    && m.low.value <= m.close.value <= m.high.value && 0.0 <= m.volume.value
  }

  /** A message on which the bar schema raises: all there, but a number not finite or a symbol of no length. */
  predicate BadMessage(m: Message) {
    && (m.kind == "b" || m.kind == "u") && m.symbol.Some? && m.ts.Some?
    && !m.open.Missing? && !m.high.Missing? && !m.low.Missing? && !m.close.Missing? && !m.volume.Missing?
    && (m.open.NotFinite? || m.high.NotFinite? || m.low.NotFinite? || m.close.NotFinite? || m.volume.NotFinite?
        || |m.symbol.value| == 0 || |m.symbol.value| > 16)
  }

  /** The bar carries the fields of the message, each in its place. */
  predicate Carries(b: Bar, m: Message) {
    && m.symbol.Some? && |b.symbol| == |m.symbol.value|
    && (forall i | 0 <= i < |b.symbol| :: b.symbol[i] == UpperChar(m.symbol.value[i]))
    && Some(b.ts) == m.ts && Number(b.open) == m.open && Number(b.high) == m.high && Number(b.low) == m.low
    && Number(b.close) == m.close && Number(b.volume) == m.volume
  }

  /** Which messages are minutes, which raise, and what a minute holds. */
  lemma ParsedFieldByField(m: Message, now: int)
    ensures ParseMinute(m, now).Minute? <==> GoodMinute(m, now)
    ensures ParseMinute(m, now).Raises? <==> BadMessage(m)
    ensures ParseMinute(m, now).Minute? ==> Carries(ParseMinute(m, now).bar, m)
  {
  }

  /** The bars are, in order, the usable messages at the indices `picks`, and no usable one is left out. */
  ghost predicate Picks(messages: seq<Message>, now: int, bars: seq<Bar>, picks: seq<nat>) {
    && |picks| == |bars|
    && (forall j, k | 0 <= j < k < |picks| :: picks[j] < picks[k])
    && (forall j | 0 <= j < |picks| ::
          picks[j] < |messages| && GoodMinute(messages[picks[j]], now) && Carries(bars[j], messages[picks[j]]))
    && (forall i: nat | i < |messages| && GoodMinute(messages[i], now) :: i in picks)
  }

  lemma {:induction false} MinutesArePicked(messages: seq<Message>, now: int)
    returns (picks: seq<nat>)
    ensures Picks(messages, now, Minutes(messages, now), picks)
  {
    picks := [];
    if |messages| > 0 {
      var n := |messages| - 1;
      var pre := messages[..n];
      picks := MinutesArePicked(pre, now);
      ParsedFieldByField(messages[n], now);
      hide GoodMinute, Carries, ParseMinute;
      assert forall i | 0 <= i < n :: pre[i] == messages[i];
      if ParseMinute(messages[n], now).Minute? {
        var longer := picks + [n];
        forall i: nat | i < |messages| && GoodMinute(messages[i], now) ensures i in longer {
          if i < n {
            assert i in picks;
          } else {
            assert longer[|picks|] == i;
          }
        }
        picks := longer;
      } else {
        forall i: nat | i < |messages| && GoodMinute(messages[i], now) ensures i in picks {
          assert i < n;
        }
      }
    }
  }

  lemma RaisingIsBad(messages: seq<Message>, now: int)
    ensures AnyRaises(messages, now) <==> exists i :: 0 <= i < |messages| && BadMessage(messages[i])
  {
    if i :| 0 <= i < |messages| && ParseMinute(messages[i], now).Raises? {
      ParsedFieldByField(messages[i], now);
    }
    if i :| 0 <= i < |messages| && BadMessage(messages[i]) {
      ParsedFieldByField(messages[i], now);
    }
  }

  // ---- Windows and five-minute bars ----------------------------------------------------------

  function WindowStart(ts: int): int {
    ts - ts % WINDOW
  }

  function WindowOf(b: Bar): WindowKey {
    WindowKey(b.symbol, WindowStart(b.ts))
  }

  function MinuteKey(feed: string, b: Bar): RowKey {
    RowKey(feed, b.symbol, Min1, b.ts)
  }

  function FiveKey(feed: string, w: WindowKey): RowKey {
    RowKey(feed, w.symbol, Min5, w.start)
  }

  /** The stored minutes of one window, by timestamp. */
  ghost function WindowRows(t: Table, feed: string, w: WindowKey): map<int, Bar> {
    map ts: int | w.start <= ts < w.start + WINDOW && RowKey(feed, w.symbol, Min1, ts) in t
      :: t[RowKey(feed, w.symbol, Min1, ts)]
  }

  function Stamps(start: int): set<int> {
    {start, start + MINUTE, start + 2 * MINUTE, start + 3 * MINUTE, start + 4 * MINUTE}
  }

  predicate Complete(rows: map<int, Bar>, start: int) {
    rows.Keys == Stamps(start)
  }

  /** The five-minute bar of five complete minutes. */
  function Aggregate(w: WindowKey, rows: map<int, Bar>): Bar
    requires Complete(rows, w.start)
  {
    var s := w.start;
    var b0, b1, b2, b3, b4 :=
      rows[s], rows[s + MINUTE], rows[s + 2 * MINUTE], rows[s + 3 * MINUTE], rows[s + 4 * MINUTE];
    Bar(w.symbol, s, b0.open,
        Max(Max(Max(Max(b0.high, b1.high), b2.high), b3.high), b4.high),
        Min(Min(Min(Min(b0.low, b1.low), b2.low), b3.low), b4.low),
        b4.close,
        b0.volume + b1.volume + b2.volume + b3.volume + b4.volume)
  }

  /** What aggregation means: the range covers every minute and is attained by one of them. */
  lemma AggregateCovers(w: WindowKey, rows: map<int, Bar>)
    requires Complete(rows, w.start)
    requires forall ts | ts in rows :: ValidBar(rows[ts])
    ensures var a := Aggregate(w, rows);
            && ValidBar(a)
            && (forall ts | ts in rows :: a.low <= rows[ts].low && rows[ts].high <= a.high)
            && (exists ts | ts in rows :: a.low == rows[ts].low)
            && (exists ts | ts in rows :: a.high == rows[ts].high)
            && a.volume == rows[w.start].volume + rows[w.start + MINUTE].volume + rows[w.start + 2 * MINUTE].volume +
                           rows[w.start + 3 * MINUTE].volume + rows[w.start + 4 * MINUTE].volume
            && a.open == rows[w.start].open && a.close == rows[w.start + 4 * MINUTE].close
  {
    var s := w.start;
    assert s in rows && s + MINUTE in rows && s + 2 * MINUTE in rows && s + 3 * MINUTE in rows
        && s + 4 * MINUTE in rows;
    forall ts | ts in rows
      ensures Aggregate(w, rows).low <= rows[ts].low && rows[ts].high <= Aggregate(w, rows).high
    {
      assert ts in Stamps(s);
    }
  }

  /** Every row sits under its own symbol and timestamp, and is a valid bar. */
  ghost predicate TableOk(t: Table) {
    forall k | k in t :: t[k].symbol == k.symbol && t[k].ts == k.ts && ValidBar(t[k])
  }

  /** A window may be published once its five minutes are all present and in the past. */
  ghost predicate Closed(t: Table, feed: string, now: int, w: WindowKey) {
    w.start + WINDOW <= now && Complete(WindowRows(t, feed, w), w.start)
  }

  ghost function FiveBar(t: Table, env: Env, w: WindowKey): Bar
    requires Closed(t, env.feed, env.now, w)
  {
    Aggregate(w, WindowRows(t, env.feed, w))
  }

  // ---- Reference meaning: one message at a time, no cache ------------------------------------

  /** Durable rows plus the freshness marks the strategy reads. */
  datatype Desk = Desk(table: Table, latest: map<string, int>, completed: map<string, int>)

  /** The feed, the subscription time of the live connection (if any) and the clock. */
  datatype Env = Env(feed: string, connectedAt: Option<int>, now: int)

  predicate Fresh(env: Env, w: WindowKey) {
    env.connectedAt.Some? && w.start >= env.connectedAt.value
  }

  function Later(marks: map<string, int>, symbol: string, ts: int): map<string, int> {
    marks[symbol := if symbol in marks && marks[symbol] > ts then marks[symbol] else ts]
  }

  ghost function IngestOne(d: Desk, env: Env, b: Bar): Desk {
    var minute := d.table[MinuteKey(env.feed, b) := b];
    var w := WindowOf(b);
    var closed := Closed(minute, env.feed, env.now, w);
    Desk(
      if closed then minute[FiveKey(env.feed, w) := FiveBar(minute, env, w)] else minute,
      Later(d.latest, b.symbol, b.ts + MINUTE),
      if closed && Fresh(env, w) then Later(d.completed, w.symbol, w.start) else d.completed)
  }

  ghost function IngestEach(d: Desk, env: Env, bars: seq<Bar>): Desk {
    if |bars| == 0 then d
    else IngestOne(IngestEach(d, env, bars[..|bars| - 1]), env, bars[|bars| - 1])
  }

  // ---- Closed form of a batch ----------------------------------------------------------------

  ghost function Touched(bars: seq<Bar>): (r: set<WindowKey>)
    ensures forall w :: w in r <==> exists i :: 0 <= i < |bars| && WindowOf(bars[i]) == w
  {
    set i | 0 <= i < |bars| :: WindowOf(bars[i])
  }

  ghost function UpsertEach(t: Table, feed: string, bars: seq<Bar>): Table {
    if |bars| == 0 then t
    else UpsertEach(t, feed, bars[..|bars| - 1])[MinuteKey(feed, bars[|bars| - 1]) := bars[|bars| - 1]]
  }

  /** The windows of `among` that a batch ending in table `t` publishes. */
  ghost function Closing(t: Table, env: Env, among: set<WindowKey>): set<WindowKey> {
    set w | w in among && Closed(t, env.feed, env.now, w)
  }

  /** The bars those windows publish. */
  ghost function FiveBars(t: Table, env: Env, ws: set<WindowKey>): map<WindowKey, Bar>
    requires forall w | w in ws :: Closed(t, env.feed, env.now, w)
  {
    map w | w in ws :: FiveBar(t, env, w)
  }

  /** Five-minute bars as rows of the durable table. */
  ghost function AsRows(feed: string, bars: map<WindowKey, Bar>): (t: Table)
    ensures forall k :: k in t <==> k.feed == feed && k.timeframe == Min5 && WindowKey(k.symbol, k.ts) in bars
  {
    var keys := set w | w in bars :: FiveKey(feed, w);
    assert forall k: RowKey | k.feed == feed && k.timeframe == Min5 && WindowKey(k.symbol, k.ts) in bars ::
        k == FiveKey(feed, WindowKey(k.symbol, k.ts));
    map k | k in keys && WindowKey(k.symbol, k.ts) in bars :: bars[WindowKey(k.symbol, k.ts)]
  }

  lemma AsRowsStep(feed: string, bars: map<WindowKey, Bar>, w: WindowKey, b: Bar)
    ensures AsRows(feed, bars[w := b]) == AsRows(feed, bars)[FiveKey(feed, w) := b]
  {
    assert AsRows(feed, bars[w := b]).Keys == AsRows(feed, bars)[FiveKey(feed, w) := b].Keys;
  }

  /** `after` is `before` raised, symbol by symbol, to the latest of the window starts in `ws`. */
  ghost predicate Raised(before: map<string, int>, after: map<string, int>, ws: set<WindowKey>) {
    && (forall s | s in before :: s in after && after[s] >= before[s])
    && (forall w | w in ws :: w.symbol in after && after[w.symbol] >= w.start)
    && (forall s | s in after ::
          (s in before && after[s] == before[s]) || WindowKey(s, after[s]) in ws)
  }

  lemma RaisedIsUnique(before: map<string, int>, a: map<string, int>, b: map<string, int>, ws: set<WindowKey>)
    requires Raised(before, a, ws) && Raised(before, b, ws)
    ensures a == b
  {
    forall s ensures s in a <==> s in b {}
    assert a.Keys == b.Keys;
    forall s | s in a ensures a[s] == b[s] {}
  }

  ghost function FreshOf(env: Env, ws: set<WindowKey>): set<WindowKey> {
    set w | w in ws && Fresh(env, w)
  }

  /** Rows of another window, and a window that loses none of its rows, are untouched by one upsert. */
  lemma UpsertWindow(t: Table, feed: string, b: Bar, w: WindowKey)
    requires w.start % WINDOW == 0
    ensures var t' := t[MinuteKey(feed, b) := b];
            WindowRows(t', feed, w) ==
            if w == WindowOf(b) then WindowRows(t, feed, w)[b.ts := b] else WindowRows(t, feed, w)
  {
    var t' := t[MinuteKey(feed, b) := b];
    if w == WindowOf(b) {
      assert w.start <= b.ts < w.start + WINDOW;
    } else if w.symbol == b.symbol {
      SameWindow(w.start, b.ts);
    }
    var wanted := if w == WindowOf(b) then WindowRows(t, feed, w)[b.ts := b] else WindowRows(t, feed, w);
    forall ts ensures ts in WindowRows(t', feed, w) <==> ts in wanted {}
    assert WindowRows(t', feed, w).Keys == wanted.Keys;
    assert WindowRows(t', feed, w) == wanted;
  }

  /** Windows tile the time line. */
  lemma SameWindow(start: int, ts: int)
    requires start % WINDOW == 0
    ensures start <= ts < start + WINDOW <==> WindowStart(ts) == start
  {
    var q := start / WINDOW;
    var r := ts / WINDOW;
    assert start == q * WINDOW && ts == r * WINDOW + ts % WINDOW;
  }

  lemma StartAligned(b: Bar)
    ensures WindowOf(b).start % WINDOW == 0
    ensures WindowOf(b).start <= b.ts < WindowOf(b).start + WINDOW
  {
    var r := b.ts / WINDOW;
    assert b.ts - b.ts % WINDOW == r * WINDOW;
  }

  lemma FiveLeavesWindows(t: Table, t': Table, feed: string, w: WindowKey)
    requires forall k: RowKey | k.timeframe == Min1 :: (k in t <==> k in t') && (k in t ==> t[k] == t'[k])
    ensures WindowRows(t, feed, w) == WindowRows(t', feed, w)
  {
    forall ts ensures ts in WindowRows(t, feed, w) <==> ts in WindowRows(t', feed, w) {}
    assert WindowRows(t, feed, w).Keys == WindowRows(t', feed, w).Keys;
  }

  ghost predicate Aligned(bars: seq<Bar>) {
    forall b | b in bars :: b.ts % MINUTE == 0
  }

  /** One more minute closes at most its own window, and reopens none. */
  lemma ClosingStep(t: Table, env: Env, bars: seq<Bar>, b: Bar)
    requires b.ts % MINUTE == 0
    ensures var t' := t[MinuteKey(env.feed, b) := b];
            var w := WindowOf(b);
            && Closing(t', env, Touched(bars + [b])) ==
               Closing(t, env, Touched(bars)) + (if Closed(t', env.feed, env.now, w) then {w} else {})
            && (forall v | v in Closing(t, env, Touched(bars)) && v != w ::
                  WindowRows(t, env.feed, v) == WindowRows(t', env.feed, v))
  {
    var t' := t[MinuteKey(env.feed, b) := b];
    var w := WindowOf(b);
    TouchedStep(bars, b);
    forall v | v in Touched(bars + [b])
      ensures v != w ==> WindowRows(t, env.feed, v) == WindowRows(t', env.feed, v)
      ensures v == w && Closed(t, env.feed, env.now, v) ==> Closed(t', env.feed, env.now, v)
    {
      StartAligned(if v == w then b else bars[TouchedBy(bars, v)]);
      UpsertWindow(t, env.feed, b, v);
      if v == w && Closed(t, env.feed, env.now, v) {
        StampOf(b);
      }
    }
  }

  lemma TouchedStep(bars: seq<Bar>, b: Bar)
    ensures Touched(bars + [b]) == Touched(bars) + {WindowOf(b)}
  {
    var all := bars + [b];
    forall v ensures v in Touched(all) <==> v in Touched(bars) + {WindowOf(b)} {
      if v in Touched(bars) {
        var i :| 0 <= i < |bars| && WindowOf(bars[i]) == v;
        assert WindowOf(all[i]) == v;
      }
      if v == WindowOf(b) {
        assert WindowOf(all[|bars|]) == v;
      }
    }
  }

  ghost function TouchedBy(bars: seq<Bar>, v: WindowKey): (i: int)
    requires v in Touched(bars)
    ensures 0 <= i < |bars| && WindowOf(bars[i]) == v
  {
    var i :| 0 <= i < |bars| && WindowOf(bars[i]) == v; i
  }

  lemma StampOf(b: Bar)
    requires b.ts % MINUTE == 0
    ensures b.ts in Stamps(WindowOf(b).start)
  {
    StartAligned(b);
    var d := b.ts - WindowOf(b).start;
    var q := b.ts / MINUTE;
    var r := WindowOf(b).start / WINDOW;
    assert d == (q - 5 * r) * MINUTE;
  }

  /**
    The batch theorem. Ingesting minutes one at a time, publishing a five-minute bar whenever a
    window is complete, leaves the same rows as upserting all minutes first and publishing each
    touched complete window once; the completion marks rise by exactly the published windows.
   */
  lemma {:induction false} EachIsBatch(d: Desk, env: Env, bars: seq<Bar>)
    requires Aligned(bars)
    ensures var e := IngestEach(d, env, bars);
            var t := UpsertEach(d.table, env.feed, bars);
            var ws := Closing(t, env, Touched(bars));
            e.table == t + AsRows(env.feed, FiveBars(t, env, ws)) && Raised(d.completed, e.completed, FreshOf(env, ws))
  {
    if |bars| == 0 {
      var ws := Closing(d.table, env, Touched(bars));
      assert ws == {};
    } else {
      var pre, b := bars[..|bars| - 1], bars[|bars| - 1];
      assert bars == pre + [b];
      EachIsBatch(d, env, pre);
      var t := UpsertEach(d.table, env.feed, pre);
      var e := IngestEach(d, env, pre);
      TableStep(e, t, env, pre, b);
      MarksStep(d, e, t, env, pre, b);
    }
  }

  lemma MarksStep(d: Desk, e: Desk, t: Table, env: Env, pre: seq<Bar>, b: Bar)
    requires b.ts % MINUTE == 0
    requires Raised(d.completed, e.completed, FreshOf(env, Closing(t, env, Touched(pre))))
    requires Closed(e.table[MinuteKey(env.feed, b) := b], env.feed, env.now, WindowOf(b)) <==>
             Closed(t[MinuteKey(env.feed, b) := b], env.feed, env.now, WindowOf(b))
    ensures var t' := t[MinuteKey(env.feed, b) := b];
            Raised(d.completed, IngestOne(e, env, b).completed, FreshOf(env, Closing(t', env, Touched(pre + [b]))))
  {
    hide Closed, WindowRows, Touched;
    ClosingStep(t, env, pre, b);
  }

  /** The five-minute bars after one more minute: the old ones, and its own window's if closed. */
  lemma FiveStep(t: Table, env: Env, pre: seq<Bar>, b: Bar)
    requires b.ts % MINUTE == 0
    ensures var t' := t[MinuteKey(env.feed, b) := b];
            var w := WindowOf(b);
            var old5 := FiveBars(t, env, Closing(t, env, Touched(pre)));
            FiveBars(t', env, Closing(t', env, Touched(pre + [b]))) ==
            if Closed(t', env.feed, env.now, w) then old5[w := FiveBar(t', env, w)] else old5
  {
    hide Aggregate, WindowRows, Touched;
    ClosingStep(t, env, pre, b);
  }

  /** Published rows never hide a minute: the reference sees the windows the batch sees. */
  lemma MinuteStep(e: Desk, t: Table, env: Env, five: Table, b: Bar)
    requires forall k | k in five :: k.timeframe == Min5
    requires e.table == t + five
    ensures var minute, t' := e.table[MinuteKey(env.feed, b) := b], t[MinuteKey(env.feed, b) := b];
            var w := WindowOf(b);
            && minute == t' + five
            && WindowRows(minute, env.feed, w) == WindowRows(t', env.feed, w)
  {
    var minute, t' := e.table[MinuteKey(env.feed, b) := b], t[MinuteKey(env.feed, b) := b];
    assert minute == t' + five;
    FiveLeavesWindows(minute, t', env.feed, WindowOf(b));
  }

  lemma TableStep(e: Desk, t: Table, env: Env, pre: seq<Bar>, b: Bar)
    requires b.ts % MINUTE == 0
    requires e.table == t + AsRows(env.feed, FiveBars(t, env, Closing(t, env, Touched(pre))))
    ensures var t' := t[MinuteKey(env.feed, b) := b];
            && IngestOne(e, env, b).table ==
                t' + AsRows(env.feed, FiveBars(t', env, Closing(t', env, Touched(pre + [b]))))
            && (Closed(e.table[MinuteKey(env.feed, b) := b], env.feed, env.now, WindowOf(b)) <==>
                Closed(t', env.feed, env.now, WindowOf(b)))
  {
    var t' := t[MinuteKey(env.feed, b) := b];
    var w := WindowOf(b);
    var five := FiveBars(t, env, Closing(t, env, Touched(pre)));
    var rows := AsRows(env.feed, five);
    MinuteStep(e, t, env, rows, b);
    FiveStep(t, env, pre, b);
    if Closed(t', env.feed, env.now, w) {
      AsRowsStep(env.feed, five, w, FiveBar(t', env, w));
      PutRight(t', rows, FiveKey(env.feed, w), FiveBar(t', env, w));
    }
  }

  lemma PutRight(t: Table, rows: Table, k: RowKey, b: Bar)
    ensures (t + rows)[k := b] == t + rows[k := b]
  {
  }

  lemma {:induction false} UpsertOk(t: Table, feed: string, bars: seq<Bar>)
    requires TableOk(t) && forall b | b in bars :: ValidBar(b)
    ensures TableOk(UpsertEach(t, feed, bars))
  {
    if |bars| > 0 {
      UpsertOk(t, feed, bars[..|bars| - 1]);
    }
  }

  /** An aggregate of stored minutes is always publishable. */
  lemma FiveBarOk(t: Table, env: Env, w: WindowKey)
    requires TableOk(t) && Closed(t, env.feed, env.now, w)
    ensures var b := FiveBar(t, env, w); b.symbol == w.symbol && b.ts == w.start && ValidBar(b)
  {
    AggregateCovers(w, WindowRows(t, env.feed, w));
  }

  lemma FiveRowsOk(t: Table, env: Env, ws: set<WindowKey>)
    requires TableOk(t) && forall w | w in ws :: Closed(t, env.feed, env.now, w)
    ensures TableOk(t + AsRows(env.feed, FiveBars(t, env, ws)))
  {
    var t' := t + AsRows(env.feed, FiveBars(t, env, ws));
    forall k | k in t' ensures t'[k].symbol == k.symbol && t'[k].ts == k.ts && ValidBar(t'[k]) {
      if k in AsRows(env.feed, FiveBars(t, env, ws)) {
        FiveBarOk(t, env, WindowKey(k.symbol, k.ts));
      }
    }
  }
}
