/**
  The production writer of the minute stream: batches, a bounded least-recently-used cache of
  five-minute windows, write-through to the durable table and publication of complete windows.
 */
module StreamAssembler {
  import opened Wrappers
  import opened MarketBars
  import opened BarStore

  const STREAM_WINDOWS: nat := 8192

  /** The freshness marks the strategy reads, and when the live subscription was confirmed. */
  class Freshness {
    var latest: map<string, int>
    var completed: map<string, int>
    var connectedAt: Option<int>

    constructor (connectedAt: Option<int>)
      ensures latest == map[] && completed == map[] && this.connectedAt == connectedAt
    {
      latest, completed := map[], map[];
      this.connectedAt := connectedAt;
    }

    /** Raises the completion mark of every published window of the live connection. */
    method MarkCompleted(bars: map<string, seq<Bar>>, ghost env: Env, ghost ws: set<WindowKey>)
      requires env.connectedAt == connectedAt
      requires forall w :: w in ws <==> w.symbol in bars && exists b :: b in bars[w.symbol] && b.ts == w.start
      modifies this`completed
      ensures Raised(old(completed), completed, FreshOf(env, ws))
    {
      var symbols := bars.Keys;
      ghost var done: set<WindowKey> := {};
      while symbols != {}
        invariant symbols <= bars.Keys
        invariant forall w :: w in done <==> w in ws && w.symbol !in symbols
        invariant Raised(old(completed), completed, FreshOf(env, done))
      {
        var s :| s in symbols;
        done := MarkSymbol(s, bars[s], env, done, old(completed));
        symbols := symbols - {s};
      }
      assert done == ws;
    }

    method MarkSymbol(s: string, bars: seq<Bar>, ghost env: Env, ghost before: set<WindowKey>,
        ghost marks: map<string, int>)
      returns (ghost done: set<WindowKey>)
      requires env.connectedAt == connectedAt && Raised(marks, completed, FreshOf(env, before))
      modifies this`completed
      ensures forall w :: w in done <==> w in before || (w.symbol == s && exists b :: b in bars && b.ts == w.start)
      ensures Raised(marks, completed, FreshOf(env, done))
    {
      done := before;
      for i := 0 to |bars|
        invariant forall w :: w in done <==>
          w in before || (w.symbol == s && exists b :: b in bars[..i] && b.ts == w.start)
        invariant Raised(marks, completed, FreshOf(env, done))
      {
        var w := WindowKey(s, bars[i].ts);
        assert bars[..i + 1] == bars[..i] + [bars[i]];
        RaiseMore(marks, completed, env, done, w);
        if connectedAt.Some? && bars[i].ts >= connectedAt.value {
          completed := Later(completed, s, bars[i].ts);
        }
        done := done + {w};
      }
      assert bars[..|bars|] == bars;
    }

    lemma RaiseMore(marks: map<string, int>, now: map<string, int>, env: Env, done: set<WindowKey>, w: WindowKey)
      requires Raised(marks, now, FreshOf(env, done))
      ensures Raised(marks, if Fresh(env, w) then Later(now, w.symbol, w.start) else now, FreshOf(env, done + {w}))
    {
      assert FreshOf(env, done + {w}) == FreshOf(env, done) + (if Fresh(env, w) then {w} else {});
    }

    method MarkLatest(minutes: seq<Bar>, ghost d: Desk, ghost env: Env)
      requires latest == d.latest
      modifies this`latest
      ensures latest == IngestEach(d, env, minutes).latest
    {
      for i := 0 to |minutes|
        invariant latest == IngestEach(d, env, minutes[..i]).latest
      {
        assert minutes[..i + 1][..i] == minutes[..i];
        latest := Later(latest, minutes[i].symbol, minutes[i].ts + MINUTE);
      }
      assert minutes[..|minutes|] == minutes;
    }
  }

  ghost predicate NoRepeat(order: seq<WindowKey>) {
    |order| == 0 || (order[|order| - 1] !in order[..|order| - 1] && NoRepeat(order[..|order| - 1]))
  }

  /** The recency order of an OrderedDict: each key once, least recently used first. */
  ghost predicate OrderOf(order: seq<WindowKey>, keys: set<WindowKey>) {
    NoRepeat(order) && (forall w :: w in order <==> w in keys)
  }

  function Without(order: seq<WindowKey>, w: WindowKey): seq<WindowKey> {
    if |order| == 0 then []
    else
      var rest := Without(order[..|order| - 1], w);
      if order[|order| - 1] == w then rest else rest + [order[|order| - 1]]
  }

  lemma {:induction false} WithoutKeeps(order: seq<WindowKey>, w: WindowKey)
    ensures forall v :: v in Without(order, w) <==> v in order && v != w
    ensures NoRepeat(order) ==> NoRepeat(Without(order, w))
  {
    if |order| > 0 {
      var pre, last := order[..|order| - 1], order[|order| - 1];
      assert order == pre + [last];
      WithoutKeeps(pre, w);
      assert (Without(pre, w) + [last])[..|Without(pre, w)|] == Without(pre, w);
    }
  }

  lemma OrderSize(order: seq<WindowKey>, keys: set<WindowKey>)
    requires OrderOf(order, keys)
    ensures |order| == |keys|
  {
    if |order| > 0 {
      var last := order[|order| - 1];
      assert order == order[..|order| - 1] + [last];
      OrderSize(order[..|order| - 1], keys - {last});
    } else {
      assert keys == {};
    }
  }

  /** The bars of `completed` are exactly the five-minute bars of the windows `ws`. */
  ghost predicate Publishes(completed: map<string, seq<Bar>>, t: Table, env: Env, ws: set<WindowKey>)
    requires forall w | w in ws :: Closed(t, env.feed, env.now, w)
  {
    && (forall s, i | s in completed && 0 <= i < |completed[s]| ::
          WindowKey(s, completed[s][i].ts) in ws &&
          completed[s][i] == FiveBar(t, env, WindowKey(s, completed[s][i].ts)))
    && (forall w | w in ws :: w.symbol in completed && FiveBar(t, env, w) in completed[w.symbol])
  }

  lemma {:induction false} LastWinsOf(rows: seq<(int, Bar)>)
    ensures forall ts :: ts in LastWins(rows) <==> exists i :: 0 <= i < |rows| && rows[i].0 == ts
    ensures forall ts | ts in LastWins(rows) ::
      exists i :: 0 <= i < |rows| && rows[i].0 == ts && rows[i].1 == LastWins(rows)[ts]
  {
    if |rows| > 0 {
      LastWinsOf(rows[..|rows| - 1]);
    }
  }

  /** One symbol's published rows, timestamp by timestamp. */
  lemma PublishedAt(completed: map<string, seq<Bar>>, t: Table, env: Env, ws: set<WindowKey>, s: string)
    requires forall w | w in ws :: Closed(t, env.feed, env.now, w)
    requires Publishes(completed, t, env, ws) && s in completed
    ensures var last := LastWins(Stamped(completed)[s]);
            forall ts :: (ts in last <==> WindowKey(s, ts) in ws) &&
                         (ts in last ==> last[ts] == FiveBar(t, env, WindowKey(s, ts)))
  {
    var rows := Stamped(completed)[s];
    LastWinsOf(rows);
    forall ts | WindowKey(s, ts) in ws ensures ts in LastWins(rows) {
      var b := FiveBar(t, env, WindowKey(s, ts));
      assert b in completed[s];
      var i :| 0 <= i < |completed[s]| && completed[s][i] == b;
      assert rows[i].0 == ts;
    }
  }

  function AddBar(completed: map<string, seq<Bar>>, b: Bar): map<string, seq<Bar>> {
    completed[b.symbol := (if b.symbol in completed then completed[b.symbol] else []) + [b]]
  }

  lemma ClosingMore(t: Table, env: Env, among: set<WindowKey>, w: WindowKey)
    ensures Closing(t, env, among + {w}) ==
            Closing(t, env, among) + (if Closed(t, env.feed, env.now, w) then {w} else {})
  {
  }

  lemma PublishMore(completed: map<string, seq<Bar>>, t: Table, env: Env, ws: set<WindowKey>, w: WindowKey)
    requires forall v | v in ws + {w} :: Closed(t, env.feed, env.now, v)
    requires Publishes(completed, t, env, ws)
    ensures Publishes(AddBar(completed, FiveBar(t, env, w)), t, env, ws + {w})
  {
    var b := FiveBar(t, env, w);
    var after := AddBar(completed, b);
    assert after[b.symbol][|after[b.symbol]| - 1] == b;
    forall v | v in ws ensures v.symbol in after && FiveBar(t, env, v) in after[v.symbol] {}
  }

  lemma PublishedRows(completed: map<string, seq<Bar>>, t: Table, env: Env, ws: set<WindowKey>)
    requires forall w | w in ws :: Closed(t, env.feed, env.now, w)
    requires Publishes(completed, t, env, ws)
    ensures Overlay(env.feed, Min5, Stamped(completed)) == AsRows(env.feed, FiveBars(t, env, ws))
  {
    var values := Stamped(completed);
    var five := FiveBars(t, env, ws);
    forall k: RowKey | k.feed == env.feed && k.timeframe == Min5
      ensures InOverlay(k, env.feed, Min5, values) <==> WindowKey(k.symbol, k.ts) in ws
      ensures InOverlay(k, env.feed, Min5, values) ==>
        LastWins(values[k.symbol])[k.ts] == five[WindowKey(k.symbol, k.ts)]
    {
      if k.symbol in completed {
        PublishedAt(completed, t, env, ws, k.symbol);
      }
    }
    OverlayIsAsRows(env.feed, values, five);
  }

  lemma OverlayIsAsRows(feed: string, values: map<string, seq<(int, Bar)>>, five: map<WindowKey, Bar>)
    requires forall k: RowKey | k.feed == feed && k.timeframe == Min5 ::
      && (InOverlay(k, feed, Min5, values) <==> WindowKey(k.symbol, k.ts) in five)
      && (InOverlay(k, feed, Min5, values) ==> LastWins(values[k.symbol])[k.ts] == five[WindowKey(k.symbol, k.ts)])
    ensures Overlay(feed, Min5, values) == AsRows(feed, five)
  {
    assert Overlay(feed, Min5, values).Keys == AsRows(feed, five).Keys;
  }

  type Cache = map<WindowKey, map<int, Bar>>

  /** Every cached window holds exactly the durable rows of that window. */
  ghost predicate Mirrors(windows: Cache, t: Table, feed: string) {
    forall w | w in windows :: w.start % WINDOW == 0 && windows[w] == WindowRows(t, feed, w)
  }

  lemma MirrorsMerge(windows: Cache, t: Table, feed: string, b: Bar)
    requires Mirrors(windows, t, feed) && WindowOf(b) in windows
    ensures Mirrors(windows[WindowOf(b) := windows[WindowOf(b)][b.ts := b]], t[MinuteKey(feed, b) := b], feed)
  {
    var t' := t[MinuteKey(feed, b) := b];
    var windows' := windows[WindowOf(b) := windows[WindowOf(b)][b.ts := b]];
    forall w | w in windows' ensures w.start % WINDOW == 0 && windows'[w] == WindowRows(t', feed, w) {
      UpsertWindow(t, feed, b, w);
    }
  }

  /** Recency after using the windows of `bars` in turn. */
  function MoveEach(order: seq<WindowKey>, bars: seq<Bar>): seq<WindowKey> {
    if |bars| == 0 then order
    else
      var w := WindowOf(bars[|bars| - 1]);
      Without(MoveEach(order, bars[..|bars| - 1]), w) + [w]
  }

  lemma OrderMoved(order: seq<WindowKey>, keys: set<WindowKey>, w: WindowKey)
    requires OrderOf(order, keys)
    ensures OrderOf(Without(order, w) + [w], keys + {w})
  {
    WithoutKeeps(order, w);
    assert (Without(order, w) + [w])[..|Without(order, w)|] == Without(order, w);
  }

  lemma {:induction false} OrderDropped(order: seq<WindowKey>, keys: set<WindowKey>)
    requires OrderOf(order, keys) && |order| > 0
    ensures OrderOf(order[1..], keys - {order[0]})
  {
    var pre, last := order[..|order| - 1], order[|order| - 1];
    assert order == pre + [last];
    if |pre| > 0 {
      OrderDropped(pre, keys - {last});
      assert order[1..][..|order[1..]| - 1] == pre[1..];
      assert order[1..] == pre[1..] + [last];
    }
    assert order == [order[0]] + order[1..];
  }

  /** An OrderedDict of windows: the dictionary and its keys, least recently used first. */
  class WindowCache {
    var windows: Cache
    var order: seq<WindowKey>

    ghost predicate Valid()
      reads this
    {
      OrderOf(order, windows.Keys)
    }

    constructor ()
      ensures Valid() && windows == map[] && order == []
    {
      windows, order := map[], [];
    }

    method Add(w: WindowKey, rows: map<int, Bar>)
      requires Valid() && w !in windows
      modifies this
      ensures Valid() && windows == old(windows)[w := rows] && order == old(order) + [w]
    {
      windows := windows[w := rows];
      order := order + [w];
    }

    /** Writes one minute into its window and moves the window to the end. */
    method Use(w: WindowKey, b: Bar)
      requires Valid() && w in windows
      modifies this
      ensures Valid() && windows == old(windows)[w := old(windows)[w][b.ts := b]]
      ensures order == Without(old(order), w) + [w]
    {
      OrderMoved(order, windows.Keys, w);
      assert windows.Keys + {w} == windows.Keys;
      windows := windows[w := windows[w][b.ts := b]];
      order := Without(order, w) + [w];
    }

    method PopOldest()
      requires Valid() && |order| > 0
      modifies this
      ensures Valid() && windows == old(windows) - {old(order)[0]} && order == old(order)[1..]
    {
      OrderDropped(order, windows.Keys);
      windows := windows - {order[0]};
      order := order[1..];
    }

    /** Drops the least recently used windows beyond the bound. */
    method Evict()
      requires Valid()
      modifies this
      ensures Valid() && |windows| <= 8192
      ensures forall w | w in windows :: w in old(windows) && windows[w] == old(windows)[w]
      ensures exists n :: 0 <= n <= |old(order)| && order == old(order)[n..] && (n > 0 ==> |order| == 8192)
    {
      ghost var n := 0;
      OrderSize(order, windows.Keys);
      while |windows| > STREAM_WINDOWS
        invariant Valid() && |order| == |windows|
        invariant 0 <= n <= |old(order)| && order == old(order)[n..]
        invariant n > 0 ==> |order| >= STREAM_WINDOWS
        invariant forall w | w in windows :: w in old(windows) && windows[w] == old(windows)[w]
        decreases |windows|
      {
        PopOldest();
        n := n + 1;
        OrderSize(order, windows.Keys);
      }
    }
  }

  class Assembler {
    const feed: string
    const store: Store
    const marks: Freshness
    const cache: WindowCache

    ghost predicate Valid()
      reads store, cache
    {
      TableOk(store.rows) && cache.Valid() && Mirrors(cache.windows, store.rows, feed)
    }

    ghost function DeskNow(): Desk
      reads store, marks
    {
      Desk(store.rows, marks.latest, marks.completed)
    }

    ghost function EnvAt(now: int): Env
      reads marks
    {
      Env(feed, marks.connectedAt, now)
    }

    constructor (feed: string, store: Store, marks: Freshness)
      requires TableOk(store.rows)
      ensures Valid() && this.feed == feed && this.store == store && this.marks == marks
      ensures fresh(cache) && cache.windows == map[]
    {
      this.feed, this.store, this.marks := feed, store, marks;
      this.cache := new WindowCache();
    }

    static method ParseAll(messages: seq<Message>, now: int) returns (r: Result<seq<Bar>, string>)
      ensures r.Err? <==> AnyRaises(messages, now)
      ensures r.Ok? ==> r.value == Minutes(messages, now)
      ensures r.Err? <==> exists i :: 0 <= i < |messages| && BadMessage(messages[i])
      ensures r.Ok? ==> exists picks :: Picks(messages, now, r.value, picks)
    {
      hide Picks, BadMessage, ParseMinute;
      RaisingIsBad(messages, now);
      ghost var picks := MinutesArePicked(messages, now);
      var bars: seq<Bar> := [];
      for i := 0 to |messages|
        invariant bars == Minutes(messages[..i], now)
        invariant forall j | 0 <= j < i :: !ParseMinute(messages[j], now).Raises?
      {
        assert messages[..i + 1][..i] == messages[..i];
        match ParseMinute(messages[i], now)
        case Raises => return Err("BAR_VALIDATION");
        case Minute(b) => bars := bars + [b];
        case Skipped =>
      }
      assert messages[..|messages|] == messages;
      return Ok(bars);
    }

    /** One read per time window for the windows the cache does not hold. */
    method LoadMissing(minutes: seq<Bar>)
      requires Valid()
      modifies cache
      ensures Valid()
      ensures cache.windows.Keys == old(cache.windows.Keys) + Touched(minutes)
    {
      var missing := Missing(minutes);
      var left := missing.Items;
      while left != {}
        invariant left <= missing.Items
        invariant Valid()
        invariant forall w :: w in cache.windows <==>
          w in old(cache.windows) ||
          (w.start in missing && (w.start, missing[w.start]) !in left && w.symbol in missing[w.start])
      {
        var item :| item in left;
        LoadStart(item.0, item.1);
        left := left - {item};
      }
    }

    /** The symbols to read, per window start. */
    method Missing(minutes: seq<Bar>) returns (missing: map<int, set<string>>)
      ensures forall w: WindowKey ::
        w.start in missing && w.symbol in missing[w.start] <==> w in Touched(minutes) && w !in cache.windows
      ensures forall start | start in missing :: start % WINDOW == 0
    {
      missing := map[];
      for i := 0 to |minutes|
        invariant forall w: WindowKey :: w.start in missing && w.symbol in missing[w.start] <==>
          w !in cache.windows && exists j :: 0 <= j < i && WindowOf(minutes[j]) == w
        invariant forall start | start in missing :: start % WINDOW == 0
      {
        var w := WindowOf(minutes[i]);
        StartAligned(minutes[i]);
        if w !in cache.windows {
          missing := missing[w.start := (if w.start in missing then missing[w.start] else {}) + {w.symbol}];
        }
      }
    }

    method LoadStart(start: int, symbols: set<string>)
      requires Valid() && start % WINDOW == 0
      requires forall s | s in symbols :: WindowKey(s, start) !in cache.windows
      modifies cache
      ensures Valid()
      ensures forall w :: w in cache.windows <==> w in old(cache.windows) || (w.start == start && w.symbol in symbols)
    {
      hide Mirrors, OrderOf, WindowRows, TableOk;
      var stored := store.LoadMany(feed, symbols, Min1, start, start + WINDOW);
      var left := symbols;
      while left != {}
        invariant left <= symbols
        invariant Valid()
        invariant forall w :: w in cache.windows <==>
          w in old(cache.windows) || (w.start == start && w.symbol in symbols && w.symbol !in left)
      {
        var s :| s in left;
        var rows := ByStamp(stored[s]);
        WindowFromPayloads(s, start, symbols, stored[s], rows);
        AddWindow(WindowKey(s, start), rows);
        left := left - {s};
      }
    }

    method AddWindow(w: WindowKey, rows: map<int, Bar>)
      requires Valid() && w !in cache.windows && w.start % WINDOW == 0
      requires rows == WindowRows(store.rows, feed, w)
      modifies cache
      ensures Valid() && cache.windows.Keys == old(cache.windows.Keys) + {w}
    {
      cache.Add(w, rows);
    }

    static method ByStamp(payloads: seq<Bar>) returns (rows: map<int, Bar>)
      ensures forall ts | ts in rows :: rows[ts] in payloads && rows[ts].ts == ts
      ensures forall b | b in payloads :: b.ts in rows
    {
      rows := map[];
      for i := 0 to |payloads|
        invariant forall ts | ts in rows :: rows[ts] in payloads && rows[ts].ts == ts
        invariant forall j | 0 <= j < i :: payloads[j].ts in rows
      {
        rows := rows[payloads[i].ts := payloads[i]];
      }
    }

    lemma WindowFromPayloads(s: string, start: int, symbols: set<string>, payloads: seq<Bar>, rows: map<int, Bar>)
      requires TableOk(store.rows) && s in symbols
      requires forall k | store.Selected(k, feed, Min1, start, start + WINDOW, symbols) && k.symbol == s ::
        store.rows[k] in payloads
      requires forall b | b in payloads ::
        exists k :: store.Selected(k, feed, Min1, start, start + WINDOW, symbols) && k.symbol == s && store.rows[k] == b
      requires forall ts | ts in rows :: rows[ts] in payloads && rows[ts].ts == ts
      requires forall b | b in payloads :: b.ts in rows
      ensures rows == WindowRows(store.rows, feed, WindowKey(s, start))
    {
      var wanted := WindowRows(store.rows, feed, WindowKey(s, start));
      forall ts ensures ts in rows <==> ts in wanted {
        if ts in wanted {
          assert store.Selected(RowKey(feed, s, Min1, ts), feed, Min1, start, start + WINDOW, symbols);
        }
      }
      assert rows.Keys == wanted.Keys;
    }

    /** Groups the minutes for the bulk save. */
    static method Group(minutes: seq<Bar>) returns (values: map<string, seq<(int, Bar)>>)
      ensures values == Grouped(minutes)
    {
      values := map[];
      for i := 0 to |minutes|
        invariant values == Grouped(minutes[..i])
      {
        assert minutes[..i + 1][..i] == minutes[..i];
        values := Append(values, minutes[i]);
      }
      assert minutes[..|minutes|] == minutes;
    }

    /** Writes the minutes into the cache, newest use last. */
    method Merge(minutes: seq<Bar>)
      requires Valid() && Touched(minutes) <= cache.windows.Keys
      modifies cache
      ensures cache.Valid() && cache.windows.Keys == old(cache.windows.Keys)
      ensures Mirrors(cache.windows, UpsertEach(store.rows, feed, minutes), feed)
      ensures cache.order == MoveEach(old(cache.order), minutes)
    {
      hide Mirrors, OrderOf, Without, WindowRows;
      for i := 0 to |minutes|
        invariant cache.Valid() && cache.windows.Keys == old(cache.windows.Keys)
        invariant Mirrors(cache.windows, UpsertEach(store.rows, feed, minutes[..i]), feed)
        invariant cache.order == MoveEach(old(cache.order), minutes[..i])
      {
        assert minutes[..i + 1][..i] == minutes[..i];
        assert WindowOf(minutes[i]) in Touched(minutes);
        MirrorsMerge(cache.windows, UpsertEach(store.rows, feed, minutes[..i]), feed, minutes[i]);
        cache.Use(WindowOf(minutes[i]), minutes[i]);
      }
      assert minutes[..|minutes|] == minutes;
    }

    /** The five-minute bars of the touched windows that are complete and over. */
    method Collect(touched: set<WindowKey>, now: int) returns (completed: map<string, seq<Bar>>)
      requires Valid() && touched <= cache.windows.Keys
      ensures Publishes(completed, store.rows, EnvAt(now), Closing(store.rows, EnvAt(now), touched))
    {
      completed := map[];
      var left := touched;
      ghost var env := EnvAt(now);
      ghost var t := store.rows;
      while left != {}
        invariant left <= touched
        invariant Publishes(completed, t, env, Closing(t, env, touched - left))
      {
        var w :| w in left;
        var rows := cache.windows[w];
        assert touched - (left - {w}) == touched - left + {w};
        ClosingMore(t, env, touched - left, w);
        if w.start + WINDOW <= now && Complete(rows, w.start) {
          assert Aggregate(w, rows) == FiveBar(t, env, w);
          PublishMore(completed, t, env, Closing(t, env, touched - left), w);
          completed := AddBar(completed, Aggregate(w, rows));
        }
        left := left - {w};
      }
      assert touched - left == touched;
    }

    /** Minutes of one batch: restart reads, cache, then the durable upsert. */
    method StoreMinutes(minutes: seq<Bar>)
      requires Valid() && forall b | b in minutes :: ValidBar(b)
      modifies store, cache
      ensures Valid() && Touched(minutes) <= cache.windows.Keys
      ensures store.rows == UpsertEach(old(store.rows), feed, minutes)
    {
      hide Mirrors, OrderOf, Overlay, Without;
      LoadMissing(minutes);
      Merge(minutes);
      var values := Group(minutes);
      GroupedIsEach(store.rows, feed, minutes);
      UpsertOk(store.rows, feed, minutes);
      store.SaveMany(feed, Min1, values);
    }

    /** Publishes the touched windows that are complete and over. */
    method PublishComplete(touched: set<WindowKey>, now: int) returns (completed: map<string, seq<Bar>>)
      requires Valid() && touched <= cache.windows.Keys
      modifies store
      ensures Valid()
      ensures var ws := Closing(old(store.rows), EnvAt(now), touched);
              && Publishes(completed, old(store.rows), EnvAt(now), ws)
              && store.rows == old(store.rows) + AsRows(feed, FiveBars(old(store.rows), EnvAt(now), ws))
    {
      completed := Collect(touched, now);
      ghost var t, env := store.rows, EnvAt(now);
      ghost var ws := Closing(t, env, touched);
      AllPublishable(completed, t, env, ws);
      var saved := store.SaveBarsMany(feed, completed);
      PublishedRows(completed, t, env, ws);
      FiveRowsOk(t, env, ws);
      MirrorsFive(cache.windows, t, AsRows(feed, FiveBars(t, env, ws)), feed);
    }

    /**
      One batch of vendor messages under one clock. A message the bar schema rejects aborts the
      batch before anything is written; otherwise the cached, batched, evicting path leaves exactly
      the rows and freshness marks of ingesting the messages one at a time without a cache.
     */
    method IngestBatch(messages: seq<Message>, now: int) returns (r: Result<seq<Bar>, string>)
      requires Valid()
      modifies store, cache, marks
      ensures Valid() && marks.connectedAt == old(marks.connectedAt)
      ensures r.Err? <==> AnyRaises(messages, now)
      ensures r.Err? ==>
        DeskNow() == old(DeskNow()) && cache.windows == old(cache.windows) && cache.order == old(cache.order)
      ensures r.Err? <==> exists i :: 0 <= i < |messages| && BadMessage(messages[i])
      ensures r.Ok? ==> exists picks :: Picks(messages, now, r.value, picks)
      ensures r.Ok? ==> r.value == Minutes(messages, now) && |cache.windows| <= 8192
      ensures r.Ok? ==> DeskNow() == IngestEach(old(DeskNow()), old(EnvAt(now)), Minutes(messages, now))
    {
      hide Picks, BadMessage;
      r := ParseAll(messages, now);
      if r.Err? {
        return;
      }
      IngestMinutes(r.value, now);
    }

    method IngestMinutes(minutes: seq<Bar>, now: int)
      requires Valid() && Aligned(minutes) && forall b | b in minutes :: ValidBar(b)
      modifies store, cache, marks
      ensures Valid() && marks.connectedAt == old(marks.connectedAt) && |cache.windows| <= 8192
      ensures DeskNow() == IngestEach(old(DeskNow()), old(EnvAt(now)), minutes)
    {
      hide Mirrors, OrderOf, TableOk, UpsertEach, Publishes, FiveBars, AsRows, Raised, IngestEach, Closed, WindowRows;
      ghost var d, env := DeskNow(), EnvAt(now);
      StoreMinutes(minutes);
      var touched := set b | b in minutes :: WindowOf(b);
      TouchedIsImage(minutes, touched);
      var completed := PublishComplete(touched, now);
      ghost var t := UpsertEach(d.table, feed, minutes);
      ghost var ws := Closing(t, env, touched);
      PublishedWindows(completed, t, env, ws);
      marks.MarkCompleted(completed, env, ws);
      marks.MarkLatest(minutes, d, env);
      EachIsBatch(d, env, minutes);
      RaisedIsUnique(d.completed, marks.completed, IngestEach(d, env, minutes).completed, FreshOf(env, ws));
      EvictCache();
    }

    method EvictCache()
      requires Valid()
      modifies cache
      ensures Valid() && |cache.windows| <= 8192
    {
      cache.Evict();
    }
  }

  lemma TouchedIsImage(bars: seq<Bar>, touched: set<WindowKey>)
    requires touched == set b | b in bars :: WindowOf(b)
    ensures touched == Touched(bars)
  {
    forall w ensures w in touched <==> w in Touched(bars) {
      if w in Touched(bars) {
        var i :| 0 <= i < |bars| && WindowOf(bars[i]) == w;
        assert bars[i] in bars;
      }
    }
  }

  lemma PublishedWindows(completed: map<string, seq<Bar>>, t: Table, env: Env, ws: set<WindowKey>)
    requires forall w | w in ws :: Closed(t, env.feed, env.now, w)
    requires Publishes(completed, t, env, ws)
    ensures forall w :: w in ws <==> w.symbol in completed && exists b :: b in completed[w.symbol] && b.ts == w.start
  {
    forall w: WindowKey | w.symbol in completed && exists b :: b in completed[w.symbol] && b.ts == w.start
      ensures w in ws
    {
      var b :| b in completed[w.symbol] && b.ts == w.start;
      var i :| 0 <= i < |completed[w.symbol]| && completed[w.symbol][i] == b;
      assert w == WindowKey(w.symbol, completed[w.symbol][i].ts);
    }
    forall w | w in ws ensures FiveBar(t, env, w) in completed[w.symbol] && FiveBar(t, env, w).ts == w.start {}
  }

  lemma AllPublishable(completed: map<string, seq<Bar>>, t: Table, env: Env, ws: set<WindowKey>)
    requires TableOk(t)
    requires forall w | w in ws :: w.start % WINDOW == 0 && Closed(t, env.feed, env.now, w)
    requires Publishes(completed, t, env, ws)
    ensures forall s, b | s in completed && b in completed[s] :: Publishable(s, b)
  {
    forall s, b | s in completed && b in completed[s] ensures Publishable(s, b) {
      var i :| 0 <= i < |completed[s]| && completed[s][i] == b;
      FiveBarOk(t, env, WindowKey(s, b.ts));
    }
  }

  lemma MirrorsFive(windows: Cache, t: Table, five: Table, feed: string)
    requires Mirrors(windows, t, feed)
    requires forall k | k in five :: k.timeframe == Min5
    ensures Mirrors(windows, t + five, feed)
  {
    forall w | w in windows ensures windows[w] == WindowRows(t + five, feed, w) {
      FiveLeavesWindows(t, t + five, feed, w);
    }
  }
}
