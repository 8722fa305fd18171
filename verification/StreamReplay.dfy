/**
  Whole runs of the minute stream. However the stream is cut into batches, the batched writer and
  the cache-free one-message writer leave the same durable rows and the same freshness marks.
 */
module StreamReplay {
  import opened Basics
  import opened Wrappers
  import opened MarketBars
  import opened BarStore
  import opened StreamAssembler

  datatype Timed = Timed(message: Message, now: int)
  datatype Batch = Batch(messages: seq<Message>, now: int)

  /** One message at a time, each under its own clock; rejected messages change nothing. */
  ghost function RunEach(d: Desk, feed: string, connectedAt: Option<int>, stream: seq<Timed>): Desk {
    if |stream| == 0 then d
    else
      var before := RunEach(d, feed, connectedAt, stream[..|stream| - 1]);
      var last := stream[|stream| - 1];
      match ParseMinute(last.message, last.now)
      case Minute(b) => IngestOne(before, Env(feed, connectedAt, last.now), b)
      case _ => before
  }

  function Stamp(messages: seq<Message>, now: int): (stream: seq<Timed>)
    ensures |stream| == |messages|
    ensures forall i | 0 <= i < |messages| :: stream[i] == Timed(messages[i], now)
  {
    seq(|messages|, i requires 0 <= i < |messages| => Timed(messages[i], now))
  }

  function Flatten(batches: seq<Batch>): seq<Timed> {
    if |batches| == 0 then []
    else
      var last := batches[|batches| - 1];
      Flatten(batches[..|batches| - 1]) + Stamp(last.messages, last.now)
  }

  /** The batches whose every message passes the bar schema. */
  ghost function Accepted(batches: seq<Batch>): seq<Batch> {
    if |batches| == 0 then []
    else
      var last := batches[|batches| - 1];
      Accepted(batches[..|batches| - 1]) + (if AnyRaises(last.messages, last.now) then [] else [last])
  }

  lemma {:induction false} RunEachConcat(d: Desk, feed: string, connectedAt: Option<int>, a: seq<Timed>, b: seq<Timed>)
    ensures RunEach(d, feed, connectedAt, a + b) == RunEach(RunEach(d, feed, connectedAt, a), feed, connectedAt, b)
  {
    hide IngestOne, ParseMinute;
    if |b| == 0 {
      assert a + b == a;
    } else {
      RunEachConcat(d, feed, connectedAt, a, b[..|b| - 1]);
      assert (a + b)[..|a + b| - 1] == a + b[..|b| - 1];
    }
  }

  lemma {:induction false} BatchIsRun(d: Desk, env: Env, messages: seq<Message>)
    ensures IngestEach(d, env, Minutes(messages, env.now)) ==
      RunEach(d, env.feed, env.connectedAt, Stamp(messages, env.now))
  {
    if |messages| > 0 {
      var pre, last := messages[..|messages| - 1], messages[|messages| - 1];
      BatchIsRun(d, env, pre);
      assert Stamp(messages, env.now)[..|messages| - 1] == Stamp(pre, env.now);
      var bars := Minutes(pre, env.now);
      match ParseMinute(last, env.now)
      case Minute(b) => assert (bars + [b])[..|bars|] == bars;
      case _ =>
    }
  }

  /** The production path: one assembler, one cache, batch after batch. */
  method ReplayBatched(a: Assembler, batches: seq<Batch>)
    requires a.Valid()
    modifies a.store, a.cache, a.marks
    ensures a.Valid()
    ensures a.DeskNow() == RunEach(old(a.DeskNow()), a.feed, old(a.marks.connectedAt), Flatten(Accepted(batches)))
  {
    ghost var d := a.DeskNow();
    for i := 0 to |batches|
      invariant a.Valid() && a.marks.connectedAt == old(a.marks.connectedAt)
      invariant a.DeskNow() == RunEach(d, a.feed, a.marks.connectedAt, Flatten(Accepted(batches[..i])))
    {
      var b := batches[i];
      ghost var before, env := a.DeskNow(), a.EnvAt(b.now);
      var r := a.IngestBatch(b.messages, b.now);
      assert batches[..i + 1][..i] == batches[..i];
      AcceptedNext(d, env, batches[..i], b);
    }
    assert batches[..|batches|] == batches;
  }

  lemma AcceptedNext(d: Desk, env: Env, done: seq<Batch>, b: Batch)
    requires env.now == b.now
    ensures var before := RunEach(d, env.feed, env.connectedAt, Flatten(Accepted(done)));
            RunEach(d, env.feed, env.connectedAt, Flatten(Accepted(done + [b]))) ==
            if AnyRaises(b.messages, b.now) then before else IngestEach(before, env, Minutes(b.messages, b.now))
  {
    var before := RunEach(d, env.feed, env.connectedAt, Flatten(Accepted(done)));
    assert (done + [b])[..|done|] == done;
    if AnyRaises(b.messages, b.now) {
      assert Accepted(done + [b]) == Accepted(done);
    } else {
      var accepted := Accepted(done);
      assert (accepted + [b])[..|accepted|] == accepted;
      assert Flatten(accepted + [b]) == Flatten(accepted) + Stamp(b.messages, b.now);
      RunEachConcat(d, env.feed, env.connectedAt, Flatten(accepted), Stamp(b.messages, b.now));
      BatchIsRun(before, env, b.messages);
    }
  }

  /** Compatibility ingestion: a fresh assembler, hence no cache, for every message. */
  method Ingest(feed: string, store: Store, marks: Freshness, message: Message, now: int)
      returns (r: Result<bool, string>)
    requires TableOk(store.rows)
    modifies store, marks
    ensures TableOk(store.rows) && marks.connectedAt == old(marks.connectedAt)
    ensures r.Ok? ==> (r.value <==> ParseMinute(message, now).Minute?)
    ensures r.Err? <==> ParseMinute(message, now).Raises?
    ensures Desk(store.rows, marks.latest, marks.completed) ==
            RunEach(old(Desk(store.rows, marks.latest, marks.completed)), feed, old(marks.connectedAt),
                [Timed(message, now)])
  {
    var a := new Assembler(feed, store, marks);
    ghost var d, env := a.DeskNow(), a.EnvAt(now);
    assert [message][0] == message;
    var batch := a.IngestBatch([message], now);
    MinutesOfOne(message, now);
    BatchIsRun(d, env, [message]);
    assert Stamp([message], now) == [Timed(message, now)];
    assert [Timed(message, now)][..0] == [];
    r := match batch case Ok(bars) => Ok(|bars| > 0) case Err(e) => Err(e);
  }

  method ReplaySingly(feed: string, store: Store, marks: Freshness, stream: seq<Timed>)
    requires TableOk(store.rows)
    modifies store, marks
    ensures TableOk(store.rows)
    ensures Desk(store.rows, marks.latest, marks.completed) ==
            RunEach(old(Desk(store.rows, marks.latest, marks.completed)), feed, old(marks.connectedAt), stream)
  {
    ghost var d := Desk(store.rows, marks.latest, marks.completed);
    for i := 0 to |stream|
      invariant TableOk(store.rows) && marks.connectedAt == old(marks.connectedAt)
      invariant Desk(store.rows, marks.latest, marks.completed) == RunEach(d, feed, marks.connectedAt, stream[..i])
    {
      var ignored := Ingest(feed, store, marks, stream[i].message, stream[i].now);
      assert stream[..i + 1] == stream[..i] + [stream[i]];
      assert [Timed(stream[i].message, stream[i].now)] == [stream[i]];
      RunEachConcat(d, feed, marks.connectedAt, stream[..i], [stream[i]]);
    }
    assert stream[..|stream|] == stream;
  }

  // ---- When a rejected batch matters -------------------------------------------------------------

  /** No later minute of the batch has the same key. */
  predicate LastOfKey(bars: seq<Bar>, i: nat) {
    i < |bars| && forall j | i < j < |bars| :: bars[j].symbol != bars[i].symbol || bars[j].ts != bars[i].ts
  }

  ghost predicate LastStored(t: Table, feed: string, bars: seq<Bar>) {
    forall i: nat | LastOfKey(bars, i) :: MinuteKey(feed, bars[i]) in t && t[MinuteKey(feed, bars[i])] == bars[i]
  }

  ghost predicate FivesStored(t: Table, env: Env, ws: set<WindowKey>)
    requires forall w | w in ws :: Closed(t, env.feed, env.now, w)
  {
    forall w | w in ws :: FiveKey(env.feed, w) in t && t[FiveKey(env.feed, w)] == FiveBar(t, env, w)
  }

  ghost predicate LatestCovered(latest: map<string, int>, bars: seq<Bar>) {
    forall i | 0 <= i < |bars| :: bars[i].symbol in latest && latest[bars[i].symbol] >= bars[i].ts + MINUTE
  }

  ghost predicate CompletedCovered(completed: map<string, int>, ws: set<WindowKey>) {
    forall w | w in ws :: w.symbol in completed && completed[w.symbol] >= w.start
  }

  /**
    The desk already holds all that these minutes would bring: the last minute received for each key,
    the five-minute bar of each window they touch that is over and complete, and marks as late.
   */
  ghost predicate Absorbed(d: Desk, env: Env, bars: seq<Bar>) {
    var ws := Closing(d.table, env, Touched(bars));
    && LastStored(d.table, env.feed, bars)
    && FivesStored(d.table, env, ws)
    && LatestCovered(d.latest, bars) && CompletedCovered(d.completed, FreshOf(env, ws))
  }

  lemma {:induction false} UpsertEachLast(t: Table, feed: string, bars: seq<Bar>)
    ensures LastStored(UpsertEach(t, feed, bars), feed, bars)
  {
    if |bars| > 0 {
      var n := |bars| - 1;
      var pre, t' := bars[..n], UpsertEach(t, feed, bars);
      UpsertEachLast(t, feed, pre);
      forall i: nat | LastOfKey(bars, i)
        ensures MinuteKey(feed, bars[i]) in t' && t'[MinuteKey(feed, bars[i])] == bars[i]
      {
        if i < n {
          assert LastOfKey(pre, i);
        }
      }
    }
  }

  /** The upserts change nothing but minutes, and nothing at all where the last values are stored. */
  lemma {:induction false} UpsertEachStays(t: Table, feed: string, bars: seq<Bar>, k: RowKey)
    ensures var t' := UpsertEach(t, feed, bars);
            && (k in t ==> k in t')
            && ((k in t') != (k in t) || (k in t && t'[k] != t[k]) ==>
                  k.timeframe == Min1 && exists i: nat :: LastOfKey(bars, i) && k == MinuteKey(feed, bars[i]))
  {
    if |bars| > 0 {
      var n := |bars| - 1;
      var pre := bars[..n];
      UpsertEachStays(t, feed, pre, k);
      if k == MinuteKey(feed, bars[n]) {
        assert LastOfKey(bars, n);
      } else if i: nat :| LastOfKey(pre, i) && k == MinuteKey(feed, pre[i]) {
        assert LastOfKey(bars, i);
      }
    }
  }

  lemma UpsertEachExactly(t: Table, feed: string, bars: seq<Bar>)
    ensures UpsertEach(t, feed, bars) == t <==> LastStored(t, feed, bars)
  {
    UpsertEachLast(t, feed, bars);
    if LastStored(t, feed, bars) {
      var t' := UpsertEach(t, feed, bars);
      forall k ensures (k in t' <==> k in t) && (k in t ==> t'[k] == t[k]) {
        UpsertEachStays(t, feed, bars, k);
        if i: nat :| LastOfKey(bars, i) && k == MinuteKey(feed, bars[i]) {
          UpsertEachHolds(t, feed, bars, i);
        }
      }
      assert t'.Keys == t.Keys;
    }
  }

  lemma UpsertEachHolds(t: Table, feed: string, bars: seq<Bar>, i: nat)
    requires LastOfKey(bars, i)
    ensures var t' := UpsertEach(t, feed, bars);
            MinuteKey(feed, bars[i]) in t' && t'[MinuteKey(feed, bars[i])] == bars[i]
  {
    hide LastOfKey, UpsertEach;
    UpsertEachLast(t, feed, bars);
  }

  /** Publishing over upserted minutes gives the old rows back exactly when both were stored. */
  lemma TableExactly(t: Table, env: Env, bars: seq<Bar>)
    ensures var t' := UpsertEach(t, env.feed, bars);
            t' + AsRows(env.feed, FiveBars(t', env, Closing(t', env, Touched(bars)))) == t <==>
            LastStored(t, env.feed, bars) && FivesStored(t, env, Closing(t, env, Touched(bars)))
  {
    hide UpsertEach, Touched, Closed, FiveBar, LastStored;
    var t' := UpsertEach(t, env.feed, bars);
    var ws := Closing(t', env, Touched(bars));
    var fives := AsRows(env.feed, FiveBars(t', env, ws));
    UpsertEachExactly(t, env.feed, bars);
    if t' + fives == t {
      forall k ensures (k in t' <==> k in t) && (k in t ==> t'[k] == t[k]) {
        UpsertEachStays(t, env.feed, bars, k);
        if k.timeframe == Min1 {
          assert k !in fives;
          assert k in t' <==> k in t' + fives;
        }
      }
      assert t'.Keys == t.Keys;
      assert t' == t;
    }
    if t' == t {
      FivesExactly(t, env, ws);
    }
  }

  lemma FivesExactly(t: Table, env: Env, ws: set<WindowKey>)
    requires forall w | w in ws :: Closed(t, env.feed, env.now, w)
    ensures t + AsRows(env.feed, FiveBars(t, env, ws)) == t <==> FivesStored(t, env, ws)
  {
    hide Closed, FiveBar;
    var fives := AsRows(env.feed, FiveBars(t, env, ws));
    if t + fives == t {
      forall w | w in ws
        ensures FiveKey(env.feed, w) in t && t[FiveKey(env.feed, w)] == FiveBar(t, env, w)
      {
        assert FiveKey(env.feed, w) in fives;
        assert (t + fives)[FiveKey(env.feed, w)] == fives[FiveKey(env.feed, w)];
      }
    }
    if FivesStored(t, env, ws) {
      forall k | k in fives ensures k in t && t[k] == fives[k] {
        assert k == FiveKey(env.feed, WindowKey(k.symbol, k.ts));
      }
      assert (t + fives).Keys == t.Keys;
    }
  }

  /** The latest marks stay exactly when none of the minutes is later. */
  lemma {:induction false} LatestStays(d: Desk, env: Env, bars: seq<Bar>)
    ensures var e := IngestEach(d, env, bars);
            && (forall s | s in d.latest :: s in e.latest && e.latest[s] >= d.latest[s])
            && LatestCovered(e.latest, bars)
            && (LatestCovered(d.latest, bars) ==> e.latest == d.latest)
  {
    hide Closed, FiveBar, FiveKey, MinuteKey;
    if |bars| > 0 {
      var pre, b := bars[..|bars| - 1], bars[|bars| - 1];
      LatestStays(d, env, pre);
      assert bars == pre + [b];
      LaterCovers(IngestEach(d, env, pre).latest, pre, b);
      if LatestCovered(d.latest, bars) {
        assert LatestCovered(d.latest, pre);
      }
    }
  }

  lemma LaterCovers(latest: map<string, int>, pre: seq<Bar>, b: Bar)
    requires LatestCovered(latest, pre)
    ensures LatestCovered(Later(latest, b.symbol, b.ts + MINUTE), pre + [b])
  {
  }

  /** The minutes of a batch change nothing exactly when the desk had absorbed them. */
  lemma AbsorbedExactly(d: Desk, env: Env, bars: seq<Bar>)
    requires Aligned(bars)
    ensures IngestEach(d, env, bars) == d <==> Absorbed(d, env, bars)
  {
    hide LastStored, FivesStored, LatestCovered, CompletedCovered, Closed, FiveBar, Touched, UpsertEach, IngestEach,
         AsRows, FiveBars, Raised, FreshOf, Aligned;
    var e, t := IngestEach(d, env, bars), UpsertEach(d.table, env.feed, bars);
    EachIsBatch(d, env, bars);
    TableExactly(d.table, env, bars);
    UpsertEachExactly(d.table, env.feed, bars);
    LatestStays(d, env, bars);
    if LastStored(d.table, env.feed, bars) {
      MarksExactly(d.completed, e.completed, FreshOf(env, Closing(d.table, env, Touched(bars))));
    }
  }

  // ---- What ingestion leaves, row by row ---------------------------------------------------------

  /** Of the five minutes from `start`, exactly the whole ones are stored for the symbol. */
  ghost predicate FiveThere(t: Table, feed: string, symbol: string, start: int) {
    forall ts: int | start <= ts < start + 300_000_000 ::
      RowKey(feed, symbol, Min1, ts) in t <==>
        ts == start || ts == start + 60_000_000 || ts == start + 120_000_000 || ts == start + 180_000_000
        || ts == start + 240_000_000
  }

  /** A five-minute bar of five minutes: open of the first, close of the last, attained extremes, all the volume. */
  ghost predicate SumsUp(five: Bar, symbol: string, start: int, a: Bar, b: Bar, c: Bar, d: Bar, e: Bar) {
    && five.symbol == symbol && five.ts == start && five.open == a.open && five.close == e.close
    && (forall m | m in [a, b, c, d, e] :: five.low <= m.low && m.high <= five.high)
    && (exists m | m in [a, b, c, d, e] :: m.low == five.low)
    && (exists m | m in [a, b, c, d, e] :: m.high == five.high)
    && five.volume == a.volume + b.volume + c.volume + d.volume + e.volume
  }

  /** The stored five-minute bar sums up the stored minutes. */
  ghost predicate FiveStored(t: Table, feed: string, symbol: string, start: int)
    requires FiveThere(t, feed, symbol, start)
  {
    RowKey(feed, symbol, Min5, start) in t &&
    SumsUp(t[RowKey(feed, symbol, Min5, start)], symbol, start,
           t[RowKey(feed, symbol, Min1, start)], t[RowKey(feed, symbol, Min1, start + 60_000_000)],
           t[RowKey(feed, symbol, Min1, start + 120_000_000)], t[RowKey(feed, symbol, Min1, start + 180_000_000)],
           t[RowKey(feed, symbol, Min1, start + 240_000_000)])
  }

  lemma WindowMeans(b: Bar, symbol: string, start: int)
    requires start % 300_000_000 == 0
    ensures WindowOf(b) == WindowKey(symbol, start) <==> b.symbol == symbol && start <= b.ts < start + 300_000_000
  {
  }

  lemma FiveThereMeans(t: Table, feed: string, symbol: string, start: int)
    ensures FiveThere(t, feed, symbol, start) <==> Complete(WindowRows(t, feed, WindowKey(symbol, start)), start)
  {
    var rows := WindowRows(t, feed, WindowKey(symbol, start));
    assert forall ts :: ts in rows.Keys <==> start <= ts < start + 300_000_000 && RowKey(feed, symbol, Min1, ts) in t;
    if FiveThere(t, feed, symbol, start) {
      assert rows.Keys == Stamps(start);
    }
    if Complete(rows, start) {
      forall ts: int | start <= ts < start + 300_000_000
        ensures RowKey(feed, symbol, Min1, ts) in t <==> ts in Stamps(start)
      {
        assert ts in rows.Keys <==> ts in Stamps(start);
      }
    }
  }

  lemma AggregateSumsUp(w: WindowKey, rows: map<int, Bar>)
    requires Complete(rows, w.start)
    ensures w.start in rows && w.start + 60_000_000 in rows && w.start + 120_000_000 in rows
    ensures w.start + 180_000_000 in rows && w.start + 240_000_000 in rows
    ensures SumsUp(Aggregate(w, rows), w.symbol, w.start, rows[w.start], rows[w.start + 60_000_000],
                   rows[w.start + 120_000_000], rows[w.start + 180_000_000], rows[w.start + 240_000_000])
  {
    var s := w.start;
    var m := [rows[s], rows[s + 60_000_000], rows[s + 120_000_000], rows[s + 180_000_000], rows[s + 240_000_000]];
    var five := Aggregate(w, rows);
    assert five.low in [m[0].low, m[1].low, m[2].low, m[3].low, m[4].low];
    assert five.high in [m[0].high, m[1].high, m[2].high, m[3].high, m[4].high];
    assert m[0] in m && m[1] in m && m[2] in m && m[3] in m && m[4] in m;
  }

  lemma FiveIsStored(t: Table, env: Env, symbol: string, start: int)
    requires FiveThere(t, env.feed, symbol, start) && Closed(t, env.feed, env.now, WindowKey(symbol, start))
    requires RowKey(env.feed, symbol, Min5, start) in t
    requires t[RowKey(env.feed, symbol, Min5, start)] == FiveBar(t, env, WindowKey(symbol, start))
    ensures FiveStored(t, env.feed, symbol, start)
  {
    hide Aggregate, SumsUp;
    AggregateSumsUp(WindowKey(symbol, start), WindowRows(t, env.feed, WindowKey(symbol, start)));
  }

  /**
    Ingesting minutes, spelled out. The last minute received for each symbol and instant is the stored
    one; a five-minute window it touches, over and with its five minutes, has its bar stored and, if it
    began since the connection, is marked complete; latest marks are a minute past each; nothing else moves.
   */
  lemma IngestedRowByRow(d: Desk, env: Env, bars: seq<Bar>)
    requires Aligned(bars)
    ensures var t := IngestEach(d, env, bars).table;
            && (forall i: nat | LastOfKey(bars, i) ::
                  RowKey(env.feed, bars[i].symbol, Min1, bars[i].ts) in t &&
                  t[RowKey(env.feed, bars[i].symbol, Min1, bars[i].ts)] == bars[i])
            && (forall k | k in d.table :: k in t)
            && (forall k | k in t && (k in d.table ==> t[k] != d.table[k]) ::
                  k.feed == env.feed && exists i :: Concerns(k, bars, i))
  {
    hide UpsertEach, Touched, Closed, FiveBar, FiveBars, IngestEach, LastOfKey, Concerns;
    var t := IngestEach(d, env, bars).table;
    EachIsBatch(d, env, bars);
    forall i: nat | LastOfKey(bars, i)
      ensures i < |bars| && RowKey(env.feed, bars[i].symbol, Min1, bars[i].ts) in t
      ensures t[RowKey(env.feed, bars[i].symbol, Min1, bars[i].ts)] == bars[i]
    {
      LastIsIndex(bars, i);
      UpsertEachHolds(d.table, env.feed, bars, i);
    }
    forall k ensures k in d.table ==> k in t {
      UpsertEachStays(d.table, env.feed, bars, k);
    }
    forall k | k in t && (k in d.table ==> t[k] != d.table[k])
      ensures k.feed == env.feed && exists i :: Concerns(k, bars, i)
    {
      ChangedBy(d, env, bars, k);
    }
  }

  lemma LastIsIndex(bars: seq<Bar>, i: nat)
    requires LastOfKey(bars, i)
    ensures i < |bars|
  {
  }

  /** A row of the minute itself, or of the five-minute window it lies in. */
  predicate Concerns(k: RowKey, bars: seq<Bar>, i: int) {
    0 <= i < |bars| && bars[i].symbol == k.symbol &&
    if k.timeframe == Min1 then bars[i].ts == k.ts else k.ts <= bars[i].ts < k.ts + 300_000_000
  }

  lemma ChangedBy(d: Desk, env: Env, bars: seq<Bar>, k: RowKey)
    requires Aligned(bars) && k in IngestEach(d, env, bars).table
    requires k in d.table ==> IngestEach(d, env, bars).table[k] != d.table[k]
    ensures k.feed == env.feed && exists i :: Concerns(k, bars, i)
  {
    hide UpsertEach, Closed, FiveBar, IngestEach;
    var t' := UpsertEach(d.table, env.feed, bars);
    EachIsBatch(d, env, bars);
    UpsertEachStays(d.table, env.feed, bars, k);
    var ws := Closing(t', env, Touched(bars));
    if k in AsRows(env.feed, FiveBars(t', env, ws)) {
      var i :| 0 <= i < |bars| && WindowOf(bars[i]) == WindowKey(k.symbol, k.ts);
      assert Concerns(k, bars, i);
    } else {
      var i: nat :| LastOfKey(bars, i) && k == MinuteKey(env.feed, bars[i]);
      assert Concerns(k, bars, i);
    }
  }

  /** A window the minutes touched, over and with its five minutes stored. */
  lemma IngestedWindow(d: Desk, env: Env, bars: seq<Bar>, i: nat, start: int)
    requires Aligned(bars) && i < |bars| && start % 300_000_000 == 0 && start <= bars[i].ts < start + 300_000_000
    ensures var (e, s) := (IngestEach(d, env, bars), bars[i].symbol);
            && s in e.latest && e.latest[s] >= bars[i].ts + 60_000_000
            && (start + 300_000_000 <= env.now && FiveThere(e.table, env.feed, s, start) ==>
                  && FiveStored(e.table, env.feed, s, start)
                  && (env.connectedAt.Some? && start >= env.connectedAt.value ==>
                        s in e.completed && e.completed[s] >= start))
  {
    hide UpsertEach, FiveBar, IngestEach, Stamps, WindowRows, FiveThere, FiveStored, Complete;
    var (e, s) := (IngestEach(d, env, bars), bars[i].symbol);
    var w := WindowKey(s, start);
    var t' := UpsertEach(d.table, env.feed, bars);
    var ws := Closing(t', env, Touched(bars));
    EachIsBatch(d, env, bars);
    LatestStays(d, env, bars);
    WindowMeans(bars[i], s, start);
    assert w in Touched(bars);
    if start + 300_000_000 <= env.now && FiveThere(e.table, env.feed, s, start) {
      FiveThereMeans(e.table, env.feed, s, start);
      FiveLeavesWindows(t', e.table, env.feed, w);
      assert w in ws && FiveKey(env.feed, w) == RowKey(env.feed, s, Min5, start);
      FiveOfSameRows(t', e.table, env, w);
      FiveIsStored(e.table, env, s, start);
    }
  }

  lemma FiveOfSameRows(a: Table, b: Table, env: Env, w: WindowKey)
    requires WindowRows(a, env.feed, w) == WindowRows(b, env.feed, w) && Closed(a, env.feed, env.now, w)
    ensures Closed(b, env.feed, env.now, w) && FiveBar(a, env, w) == FiveBar(b, env, w)
  {
  }

  lemma MarksExactly(before: map<string, int>, after: map<string, int>, ws: set<WindowKey>)
    requires Raised(before, after, ws)
    ensures after == before <==> CompletedCovered(before, ws)
  {
    if CompletedCovered(before, ws) {
      RaisedIsUnique(before, after, before, ws);
    }
  }

  /**
    A batch with a message the schema rejects is dropped whole. One-message ingestion of the same
    messages ends elsewhere exactly when one of its good minutes brings something new.
   */
  lemma RejectedBatchDiffers(d: Desk, env: Env, messages: seq<Message>)
    ensures RunEach(d, env.feed, env.connectedAt, Stamp(messages, env.now)) == d <==>
      Absorbed(d, env, Minutes(messages, env.now))
  {
    BatchIsRun(d, env, messages);
    AbsorbedExactly(d, env, Minutes(messages, env.now));
  }

  /** Every rejected batch found its good minutes absorbed. In particular no batch was rejected. */
  ghost predicate Harmless(d: Desk, feed: string, connectedAt: Option<int>, batches: seq<Batch>) {
    |batches| > 0 ==>
      var (pre, last) := (batches[..|batches| - 1], batches[|batches| - 1]);
      && Harmless(d, feed, connectedAt, pre)
      && (AnyRaises(last.messages, last.now) ==>
            Absorbed(RunEach(d, feed, connectedAt, Flatten(pre)), Env(feed, connectedAt, last.now),
                     Minutes(last.messages, last.now)))
  }

  lemma {:induction false} AcceptedIsHarmless(d: Desk, feed: string, connectedAt: Option<int>, batches: seq<Batch>)
    requires forall b | b in batches :: !AnyRaises(b.messages, b.now)
    ensures Harmless(d, feed, connectedAt, batches)
  {
    if |batches| > 0 {
      AcceptedIsHarmless(d, feed, connectedAt, batches[..|batches| - 1]);
      assert batches[|batches| - 1] in batches;
    }
  }

  /** The batched and the one-message meaning agree after the first n batches. */
  ghost predicate AgreeAfter(d: Desk, feed: string, connectedAt: Option<int>, batches: seq<Batch>, n: nat)
    requires n <= |batches|
  {
    RunEach(d, feed, connectedAt, Flatten(Accepted(batches[..n]))) ==
    RunEach(d, feed, connectedAt, Flatten(batches[..n]))
  }

  /** One batch more, from a desk on which both agree. */
  lemma AgreeNext(d: Desk, feed: string, connectedAt: Option<int>, done: seq<Batch>, b: Batch)
    requires RunEach(d, feed, connectedAt, Flatten(Accepted(done))) == RunEach(d, feed, connectedAt, Flatten(done))
    ensures var before := RunEach(d, feed, connectedAt, Flatten(done));
            RunEach(d, feed, connectedAt, Flatten(Accepted(done + [b]))) ==
            RunEach(d, feed, connectedAt, Flatten(done + [b])) <==>
            (AnyRaises(b.messages, b.now) ==>
               Absorbed(before, Env(feed, connectedAt, b.now), Minutes(b.messages, b.now)))
  {
    hide Absorbed, IngestEach, AnyRaises, Minutes;
    var env := Env(feed, connectedAt, b.now);
    var before := RunEach(d, feed, connectedAt, Flatten(done));
    AcceptedNext(d, env, done, b);
    assert (done + [b])[..|done|] == done;
    RunEachConcat(d, feed, connectedAt, Flatten(done), Stamp(b.messages, b.now));
    BatchIsRun(before, env, b.messages);
    RejectedBatchDiffers(before, env, b.messages);
  }

  /** The two writers agree after every batch exactly when every rejected batch was harmless. */
  lemma {:induction false} AgreeExactly(d: Desk, feed: string, connectedAt: Option<int>, batches: seq<Batch>)
    ensures (forall n | 0 <= n <= |batches| :: AgreeAfter(d, feed, connectedAt, batches, n)) <==>
            Harmless(d, feed, connectedAt, batches)
  {
    hide RunEach, Flatten, Accepted, Absorbed, AnyRaises, Minutes;
    if |batches| == 0 {
      assert batches[..0] == [];
      EmptyAgrees(d, feed, connectedAt);
    } else {
      var m := |batches| - 1;
      var pre, last := batches[..m], batches[m];
      AgreeExactly(d, feed, connectedAt, pre);
      assert pre + [last] == batches && batches[..m + 1] == batches && pre[..m] == pre;
      forall n | 0 <= n <= m
        ensures AgreeAfter(d, feed, connectedAt, pre, n) <==> AgreeAfter(d, feed, connectedAt, batches, n)
      {
        assert pre[..n] == batches[..n];
      }
      if AgreeAfter(d, feed, connectedAt, batches, m) {
        AgreeNext(d, feed, connectedAt, pre, last);
        assert AgreeAfter(d, feed, connectedAt, batches, m + 1) <==>
            RunEach(d, feed, connectedAt, Flatten(Accepted(pre + [last]))) ==
            RunEach(d, feed, connectedAt, Flatten(pre + [last]));
      }
    }
  }

  lemma EmptyAgrees(d: Desk, feed: string, connectedAt: Option<int>)
    ensures RunEach(d, feed, connectedAt, Flatten(Accepted([]))) == RunEach(d, feed, connectedAt, Flatten([]))
  {
  }

  /** The batched and the one-message writer, run side by side on the same stream, agree. */
  method CompareWriters(a: Assembler, store: Store, marks: Freshness, batches: seq<Batch>, stream: seq<Timed>)
    requires a.Valid() && store != a.store && marks != a.marks
    requires store.rows == a.store.rows && marks.latest == a.marks.latest && marks.completed == a.marks.completed
    requires marks.connectedAt == a.marks.connectedAt
    requires Flatten(batches) == stream
    requires Harmless(a.DeskNow(), a.feed, a.marks.connectedAt, batches)
    modifies a.store, a.cache, a.marks, store, marks
    ensures store.rows == a.store.rows && marks.latest == a.marks.latest && marks.completed == a.marks.completed
  {
    AgreeExactly(a.DeskNow(), a.feed, a.marks.connectedAt, batches);
    assert AgreeAfter(a.DeskNow(), a.feed, a.marks.connectedAt, batches, |batches|);
    assert batches[..|batches|] == batches;
    ReplayBatched(a, batches);
    ReplaySingly(a.feed, store, marks, stream);
  }

  /** The side condition is needed: one rejected message makes the batch lose its good minutes. */
  lemma RejectedBatchLosesMinutes()
    ensures var good :=
      Message("b", Some("SPY"), Some(0), Number(1.0), Number(1.0), Number(1.0), Number(1.0), Number(0.0));
            var bad := good.(volume := NotFinite);
            var empty := Desk(map[], map[], map[]);
            && AnyRaises([good, bad], MINUTE)
            && RunEach(empty, "alpaca:sip", None, Stamp([good, bad], MINUTE)) != empty
  {
    var good := Message("b", Some("SPY"), Some(0), Number(1.0), Number(1.0), Number(1.0), Number(1.0), Number(0.0));
    var bad := good.(volume := NotFinite);
    var empty := Desk(map[], map[], map[]);
    var stream := Stamp([good, bad], MINUTE);
    assert ParseMinute([good, bad][1], MINUTE).Raises?;
    assert stream[..1][..0] == [];
    var b := Bar(Upper("SPY"), 0, 1.0, 1.0, 1.0, 1.0, 0.0);
    assert ParseMinute(good, MINUTE) == Minute(b);
    assert stream[..1][0] == Timed(good, MINUTE);
    var one := RunEach(empty, "alpaca:sip", None, stream[..1]);
    assert RunEach(empty, "alpaca:sip", None, stream[..1][..0]) == empty;
    assert one == IngestOne(empty, Env("alpaca:sip", None, MINUTE), b);
    assert b.symbol in one.latest;
    assert RunEach(empty, "alpaca:sip", None, stream) == one;
  }
}
