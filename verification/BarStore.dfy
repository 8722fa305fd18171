/** The durable bar table: chunked last-write-wins upserts in one transaction, and window reads. */
module BarStore {
  import opened Wrappers
  import opened MarketBars

  /** 100 rows are 500 bind parameters, within both SQL dialects' limits. */
  const CHUNK: nat := 100

  datatype Entry = Entry(symbol: string, ts: int, payload: Bar)

  /** What successive rows for one symbol leave behind: the last payload received per timestamp. */
  function LastWins(rows: seq<(int, Bar)>): map<int, Bar> {
    if |rows| == 0 then map[]
    else LastWins(rows[..|rows| - 1])[rows[|rows| - 1].0 := rows[|rows| - 1].1]
  }

  ghost predicate InOverlay(k: RowKey, feed: string, tf: Timeframe, values: map<string, seq<(int, Bar)>>) {
    k.feed == feed && k.timeframe == tf && k.symbol in values && k.ts in LastWins(values[k.symbol])
  }

  /** The rows a bulk save writes. */
  ghost function Overlay(feed: string, tf: Timeframe, values: map<string, seq<(int, Bar)>>): (t: Table)
    ensures forall k :: k in t <==> InOverlay(k, feed, tf, values)
    ensures forall k | k in t :: InOverlay(k, feed, tf, values) && t[k] == LastWins(values[k.symbol])[k.ts]
  {
    var keys := set s, ts | s in values && ts in LastWins(values[s]) :: RowKey(feed, s, tf, ts);
    assert forall k: RowKey | InOverlay(k, feed, tf, values) :: k == RowKey(feed, k.symbol, tf, k.ts);
    map k | k in keys && InOverlay(k, feed, tf, values) :: LastWins(values[k.symbol])[k.ts]
  }

  /** One-by-one upserts, the meaning every bulk save must have. */
  function PutEach(t: Table, feed: string, tf: Timeframe, entries: seq<Entry>): Table {
    if |entries| == 0 then t
    else
      var e := entries[|entries| - 1];
      PutEach(t, feed, tf, entries[..|entries| - 1])[RowKey(feed, e.symbol, tf, e.ts) := e.payload]
  }

  lemma {:induction false} PutEachConcat(t: Table, feed: string, tf: Timeframe, a: seq<Entry>, b: seq<Entry>)
    ensures PutEach(t, feed, tf, a + b) == PutEach(PutEach(t, feed, tf, a), feed, tf, b)
  {
    if |b| == 0 {
      assert a + b == a;
    } else {
      PutEachConcat(t, feed, tf, a, b[..|b| - 1]);
      assert (a + b)[..|a + b| - 1] == a + b[..|b| - 1];
    }
  }

  /** No key twice: PostgreSQL rejects a statement that upserts the same row twice. */
  ghost predicate Distinct(entries: seq<Entry>) {
    forall i, j | 0 <= i < j < |entries| ::
      entries[i].symbol != entries[j].symbol || entries[i].ts != entries[j].ts
  }

  lemma {:induction false} PutEachIsUnion(t: Table, feed: string, tf: Timeframe, entries: seq<Entry>)
    ensures PutEach(t, feed, tf, entries) == t + PutEach(map[], feed, tf, entries)
  {
    if |entries| > 0 {
      PutEachIsUnion(t, feed, tf, entries[..|entries| - 1]);
    }
  }

  lemma LastIsNew(entries: seq<Entry>)
    requires Distinct(entries) && |entries| > 0
    ensures var last := entries[|entries| - 1];
            forall e | e in entries[..|entries| - 1] :: e.symbol != last.symbol || e.ts != last.ts
    ensures forall e :: e in entries <==> e in entries[..|entries| - 1] || e == entries[|entries| - 1]
  {
    assert entries == entries[..|entries| - 1] + [entries[|entries| - 1]];
  }

  /** Deduplicated rows written one by one are exactly those rows, whatever their order. */
  lemma {:induction false} PutDistinct(feed: string, tf: Timeframe, entries: seq<Entry>)
    requires Distinct(entries)
    ensures forall k | k in PutEach(map[], feed, tf, entries) ::
              k.feed == feed && k.timeframe == tf &&
              Entry(k.symbol, k.ts, PutEach(map[], feed, tf, entries)[k]) in entries
    ensures forall e | e in entries ::
              RowKey(feed, e.symbol, tf, e.ts) in PutEach(map[], feed, tf, entries) &&
              PutEach(map[], feed, tf, entries)[RowKey(feed, e.symbol, tf, e.ts)] == e.payload
  {
    if |entries| > 0 {
      var pre, last := entries[..|entries| - 1], entries[|entries| - 1];
      PutDistinct(feed, tf, pre);
      LastIsNew(entries);
      var before, after := PutEach(map[], feed, tf, pre), PutEach(map[], feed, tf, entries);
      assert after == before[RowKey(feed, last.symbol, tf, last.ts) := last.payload];
      hide PutEach;
      hide Distinct;
      forall e | e in entries ensures e in pre || e == last {}
    }
  }

  lemma FlattenedIsOverlay(feed: string, tf: Timeframe, values: map<string, seq<(int, Bar)>>, entries: seq<Entry>)
    requires Flattened(values, entries)
    ensures PutEach(map[], feed, tf, entries) == Overlay(feed, tf, values)
  {
    hide PutEach, LastWins, Distinct;
    PutDistinct(feed, tf, entries);
    var got, wanted := PutEach(map[], feed, tf, entries), Overlay(feed, tf, values);
    forall k: RowKey ensures k in got <==> k in wanted {
      if k in wanted {
        var e := Entry(k.symbol, k.ts, wanted[k]);
        assert e in entries && RowKey(feed, e.symbol, tf, e.ts) == k;
      }
    }
    assert got.Keys == wanted.Keys;
  }

  /** One entry per symbol and timestamp of `values`: the last one received. */
  ghost predicate Flattened(values: map<string, seq<(int, Bar)>>, entries: seq<Entry>) {
    && Distinct(entries)
    && (forall e | e in entries ::
          e.symbol in values && e.ts in LastWins(values[e.symbol]) && LastWins(values[e.symbol])[e.ts] == e.payload)
    && (forall s, ts | s in values && ts in LastWins(values[s]) :: Entry(s, ts, LastWins(values[s])[ts]) in entries)
  }

  /** The grouped values a minute batch hands to the bulk save. */
  ghost function Grouped(bars: seq<Bar>): map<string, seq<(int, Bar)>> {
    if |bars| == 0 then map[]
    else Append(Grouped(bars[..|bars| - 1]), bars[|bars| - 1])
  }

  function Append(values: map<string, seq<(int, Bar)>>, b: Bar): map<string, seq<(int, Bar)>> {
    values[b.symbol := (if b.symbol in values then values[b.symbol] else []) + [(b.ts, b)]]
  }

  /** Grouping by symbol loses nothing: the bulk save equals upserting the minutes in arrival order. */
  lemma {:induction false} GroupedIsEach(t: Table, feed: string, bars: seq<Bar>)
    ensures t + Overlay(feed, Min1, Grouped(bars)) == UpsertEach(t, feed, bars)
  {
    if |bars| == 0 {
      assert Overlay(feed, Min1, Grouped(bars)) == map[];
    } else {
      var pre, b := bars[..|bars| - 1], bars[|bars| - 1];
      GroupedIsEach(t, feed, pre);
      AppendOverlay(feed, Grouped(pre), b);
      PutRight(t, Overlay(feed, Min1, Grouped(pre)), MinuteKey(feed, b), b);
    }
  }

  function RowsOf(values: map<string, seq<(int, Bar)>>, symbol: string): seq<(int, Bar)> {
    if symbol in values then values[symbol] else []
  }

  /** What one more minute changes in the rows of each symbol. */
  lemma AppendRows(values: map<string, seq<(int, Bar)>>, b: Bar, symbol: string)
    ensures LastWins(RowsOf(Append(values, b), symbol)) ==
            if symbol == b.symbol then LastWins(RowsOf(values, symbol))[b.ts := b] else LastWins(RowsOf(values, symbol))
  {
    var rows := RowsOf(values, b.symbol);
    assert (rows + [(b.ts, b)])[..|rows|] == rows;
  }

  lemma OverlayAt(feed: string, tf: Timeframe, values: map<string, seq<(int, Bar)>>, k: RowKey)
    ensures k in Overlay(feed, tf, values) <==>
            k.feed == feed && k.timeframe == tf && k.ts in LastWins(RowsOf(values, k.symbol))
    ensures k in Overlay(feed, tf, values) ==> Overlay(feed, tf, values)[k] == LastWins(RowsOf(values, k.symbol))[k.ts]
  {
  }

  lemma AppendOverlay(feed: string, values: map<string, seq<(int, Bar)>>, b: Bar)
    ensures Overlay(feed, Min1, Append(values, b)) == Overlay(feed, Min1, values)[MinuteKey(feed, b) := b]
  {
    hide Overlay, LastWins, Append, RowsOf;
    var got, wanted := Overlay(feed, Min1, Append(values, b)), Overlay(feed, Min1, values)[MinuteKey(feed, b) := b];
    forall k: RowKey ensures (k in got <==> k in wanted) && (k in got ==> got[k] == wanted[k]) {
      OverlayAt(feed, Min1, values, k);
      OverlayAt(feed, Min1, Append(values, b), k);
      AppendRows(values, b, k.symbol);
    }
    assert got.Keys == wanted.Keys;
  }

  class Store {
    var rows: Table

    constructor ()
      ensures rows == map[]
    {
      rows := map[];
    }

    /** Upserts several symbols in one transaction. */
    method SaveMany(feed: string, tf: Timeframe, values: map<string, seq<(int, Bar)>>)
      modifies this
      ensures rows == old(rows) + Overlay(feed, tf, values)
    {
      var flattened := Flatten(values);
      var transaction := Upsert(rows, feed, tf, flattened);
      PutEachIsUnion(rows, feed, tf, flattened);
      FlattenedIsOverlay(feed, tf, values, flattened);
      rows := transaction;
    }

    /** The statements of one transaction, a chunk of rows each. */
    static method Upsert(t: Table, feed: string, tf: Timeframe, flattened: seq<Entry>) returns (t': Table)
      requires Distinct(flattened)
      ensures t' == PutEach(t, feed, tf, flattened)
    {
      t' := t;
      var offset := 0;
      while offset < |flattened|
        invariant 0 <= offset <= |flattened|
        invariant t' == PutEach(t, feed, tf, flattened[..offset])
      {
        var end := if offset + CHUNK <= |flattened| then offset + CHUNK else |flattened|;
        var chunk := flattened[offset..end];
        assert flattened[..end] == flattened[..offset] + chunk;
        PutEachConcat(t, feed, tf, flattened[..offset], chunk);
        t' := InsertChunk(t', feed, tf, chunk);
        offset := end;
      }
      assert flattened[..offset] == flattened;
    }

    static method Flatten(values: map<string, seq<(int, Bar)>>) returns (entries: seq<Entry>)
      ensures Flattened(values, entries)
    {
      entries := [];
      var symbols := values.Keys;
      while symbols != {}
        invariant symbols <= values.Keys
        invariant Distinct(entries)
        invariant forall e | e in entries ::
          e.symbol in values && e.symbol !in symbols &&
          e.ts in LastWins(values[e.symbol]) && LastWins(values[e.symbol])[e.ts] == e.payload
        invariant forall s, ts | s in values && s !in symbols && ts in LastWins(values[s]) ::
          Entry(s, ts, LastWins(values[s])[ts]) in entries
      {
        var s :| s in symbols;
        var more := FlattenOne(s, values[s]);
        entries := entries + more;
        symbols := symbols - {s};
      }
    }

    static method FlattenOne(s: string, rows: seq<(int, Bar)>) returns (entries: seq<Entry>)
      ensures Distinct(entries)
      ensures forall e | e in entries ::
        e.symbol == s && e.ts in LastWins(rows) && LastWins(rows)[e.ts] == e.payload
      ensures forall ts | ts in LastWins(rows) :: Entry(s, ts, LastWins(rows)[ts]) in entries
    {
      var unique: map<int, Bar> := map[];
      for i := 0 to |rows|
        invariant unique == LastWins(rows[..i])
      {
        assert rows[..i + 1][..i] == rows[..i];
        unique := unique[rows[i].0 := rows[i].1];
      }
      assert rows[..|rows|] == rows;
      entries := [];
      var pending := unique.Items;
      while pending != {}
        invariant pending <= unique.Items
        invariant Distinct(entries)
        invariant forall e | e in entries ::
          e.symbol == s && e.ts in unique && unique[e.ts] == e.payload && (e.ts, e.payload) !in pending
        invariant forall ts | ts in unique && (ts, unique[ts]) !in pending :: Entry(s, ts, unique[ts]) in entries
      {
        var item :| item in pending;
        entries := entries + [Entry(s, item.0, item.1)];
        pending := pending - {item};
      }
    }

    /** One INSERT .. ON CONFLICT DO UPDATE statement. */
    static method InsertChunk(t: Table, feed: string, tf: Timeframe, chunk: seq<Entry>) returns (t': Table)
      requires Distinct(chunk) && |chunk| <= 100
      ensures t' == PutEach(t, feed, tf, chunk)
    {
      t' := t;
      for i := 0 to |chunk|
        invariant t' == PutEach(t, feed, tf, chunk[..i])
      {
        assert chunk[..i + 1][..i] == chunk[..i];
        t' := t'[RowKey(feed, chunk[i].symbol, tf, chunk[i].ts) := chunk[i].payload];
      }
      assert chunk[..|chunk|] == chunk;
    }

    ghost predicate Selected(k: RowKey, feed: string, tf: Timeframe, start: int, end: int, symbols: set<string>)
      reads this
    {
      k in rows && k.feed == feed && k.timeframe == tf && k.symbol in symbols && start <= k.ts < end
    }

    /** The stored payloads of several symbols in one time range, grouped by symbol. */
    method LoadMany(feed: string, symbols: set<string>, tf: Timeframe, start: int, end: int)
      returns (result: map<string, seq<Bar>>)
      ensures result.Keys == symbols
      ensures forall s | s in symbols :: result[s] == InRange(rows, feed, s, tf, start, end)
      ensures forall k | Selected(k, feed, tf, start, end, symbols) :: rows[k] in result[k.symbol]
      ensures forall s, b | s in symbols && b in result[s] ::
        exists k :: Selected(k, feed, tf, start, end, symbols) && k.symbol == s && rows[k] == b
    {
      hide InRange;
      result := map[];
      var pending := symbols;
      while pending != {}
        invariant pending <= symbols && result.Keys == symbols - pending
        invariant forall s | s in result :: result[s] == InRange(rows, feed, s, tf, start, end)
      {
        var s :| s in pending;
        var bars := LoadRange(feed, s, tf, start, end);
        result := result[s := bars];
        pending := pending - {s};
      }
      forall k | Selected(k, feed, tf, start, end, symbols) ensures rows[k] in result[k.symbol] {
        InRangeHolds(rows, feed, k.symbol, tf, start, end, k.ts);
      }
      forall s, b | s in symbols && b in result[s]
        ensures exists k :: Selected(k, feed, tf, start, end, symbols) && k.symbol == s && rows[k] == b
      {
        var ts := InRangeFrom(rows, feed, s, tf, start, end, b);
        assert Selected(RowKey(feed, s, tf, ts), feed, tf, start, end, symbols);
      }
    }

    /** One symbol's part of the ordered query. */
    method LoadRange(feed: string, symbol: string, tf: Timeframe, start: int, end: int) returns (bars: seq<Bar>)
      ensures bars == InRange(rows, feed, symbol, tf, start, end)
    {
      bars := [];
      var ts := start;
      while ts < end
        invariant start <= ts && (ts <= end || ts == start)
        invariant bars == InRange(rows, feed, symbol, tf, start, ts)
      {
        var k := RowKey(feed, symbol, tf, ts);
        if k in rows {
          bars := bars + [rows[k]];
        }
        ts := ts + 1;
      }
    }

    /** Publishes five-minute bars, refusing the whole call if one of them is not a valid bar. */
    method SaveBarsMany(feed: string, bars: map<string, seq<Bar>>) returns (r: Result<(), string>)
      modifies this
      ensures r.Ok? <==> forall s, b | s in bars && b in bars[s] :: Publishable(s, b)
      ensures r.Err? ==> rows == old(rows)
      ensures r.Ok? ==> rows == old(rows) + Overlay(feed, Min5, Stamped(bars))
    {
      if s, b :| s in bars && b in bars[s] && !Publishable(s, b) {
        return Err("ORB_RETEST_DATA_INVALID");
      }
      SaveMany(feed, Min5, Stamped(bars));
      return Ok(());
    }
  }

  /** The rows of one symbol with a timestamp from `start` on and before `end`, oldest first. */
  function InRange(rows: Table, feed: string, symbol: string, tf: Timeframe, start: int, end: int): seq<Bar>
    decreases end - start
  {
    if end <= start then []
    else
      var k := RowKey(feed, symbol, tf, end - 1);
      InRange(rows, feed, symbol, tf, start, end - 1) + (if k in rows then [rows[k]] else [])
  }

  lemma {:induction false} InRangeHolds(
      rows: Table, feed: string, symbol: string, tf: Timeframe, start: int, end: int, ts: int)
    requires start <= ts < end && RowKey(feed, symbol, tf, ts) in rows
    ensures rows[RowKey(feed, symbol, tf, ts)] in InRange(rows, feed, symbol, tf, start, end)
    decreases end - start
  {
    if ts < end - 1 {
      InRangeHolds(rows, feed, symbol, tf, start, end - 1, ts);
    }
  }

  lemma {:induction false} InRangeFrom(
      rows: Table, feed: string, symbol: string, tf: Timeframe, start: int, end: int, b: Bar)
    returns (ts: int)
    requires b in InRange(rows, feed, symbol, tf, start, end)
    ensures start <= ts < end && RowKey(feed, symbol, tf, ts) in rows && rows[RowKey(feed, symbol, tf, ts)] == b
    decreases end - start
  {
    if b in InRange(rows, feed, symbol, tf, start, end - 1) {
      ts := InRangeFrom(rows, feed, symbol, tf, start, end - 1, b);
    } else {
      ts := end - 1;
    }
  }

  predicate Publishable(symbol: string, b: Bar) {
    b.symbol == symbol && b.ts % WINDOW == 0 && ValidBar(b)
  }

  function Stamped(bars: map<string, seq<Bar>>): map<string, seq<(int, Bar)>> {
    map s | s in bars :: seq(|bars[s]|, i requires 0 <= i < |bars[s]| => (bars[s][i].ts, bars[s][i]))
  }
}
