/**
  The observed paper-risk epoch: a throttled running record of account equity, its high water and
  its day and week baselines. Instants are microseconds; a calendar maps each to a local day number
  on which Mondays are the multiples of seven.
 */
module PaperPeriod {
  import opened Basics
  import opened Wrappers

  const MINUTE: int := 60_000_000

  type Calendar = int -> int

  /** Local dates never run backwards, not even across a clock change. */
  ghost predicate Monotone(cal: Calendar) {
    forall a: int, b: int | a <= b :: cal(a) <= cal(b)
  }

  function WeekOf(cal: Calendar, at: int): int {
    cal(at) - cal(at) % 7
  }

  function Weeks(cal: Calendar): Calendar {
    at => WeekOf(cal, at)
  }

  /** The seven days from a Monday on. */
  predicate InWeek(monday: int, day: int) {
    monday % 7 == 0 && monday <= day < monday + 7
  }

  /** The week of an instant is the Monday at most six days before its local day, and no other day. */
  lemma WeekIsMonday(cal: Calendar, at: int, monday: int)
    ensures InWeek(WeekOf(cal, at), cal(at))
    ensures InWeek(monday, cal(at)) <==> monday == WeekOf(cal, at)
  {
    var day := cal(at);
    assert day == 7 * (day / 7) + day % 7 && monday == 7 * (monday / 7) + monday % 7;
    assert InWeek(monday, day) ==> monday / 7 == day / 7;
    assert (day - day % 7) % 7 == 0;
  }

  datatype Period = Period(
    account: string, currency: string, startedAt: int, initial: real,
    lastAt: int, last: real, highWater: real,
    week: int, weekAt: int, weekBaseline: real, day: int, dayBaseline: real, suspended: bool)

  predicate Blank(s: string) {
    forall c | c in s :: c == ' ' || c == '\t' || c == '\n' || c == '\r'
  }

  predicate PaperAccount(account: string, currency: string)
    ensures PaperAccount(account, currency) <==> currency == "USD" && exists c | c in account :: c !in " \t\n\r"
  {
    account != "" && !Blank(account) && currency == "USD"
  }

  /** What loading a stored record demands of it. */
  predicate Consistent(p: Period) {
    && p.initial > 0.0 && p.last > 0.0 && p.highWater > 0.0 && p.weekBaseline > 0.0 && p.dayBaseline > 0.0
    && p.highWater >= p.initial && p.highWater >= p.last && p.highWater >= p.weekBaseline
    && p.highWater >= p.dayBaseline
    && p.startedAt <= p.weekAt <= p.lastAt
    && PaperAccount(p.account, p.currency)
  }

  /** A record loads when no amount is missing or above the high water and its times are in order. */
  lemma ConsistentMeans(p: Period)
    ensures Consistent(p) <==>
            && (forall x | x in [p.initial, p.last, p.dayBaseline, p.weekBaseline] :: 0.0 < x <= p.highWater)
            && p.startedAt <= p.weekAt && p.weekAt <= p.lastAt && PaperAccount(p.account, p.currency)
  {
    var amounts := [p.initial, p.last, p.dayBaseline, p.weekBaseline];
    assert amounts[0] in amounts && amounts[1] in amounts && amounts[2] in amounts && amounts[3] in amounts;
  }

  function Begun(account: string, currency: string, equity: real, now: int, cal: Calendar): Period {
    Period(account, currency, now, equity, now, equity, equity,
           WeekOf(cal, now), now, equity, cal(now), equity, false)
  }

  /** An observation that is written down. */
  function Recorded(p: Period, equity: real, now: int, cal: Calendar): Period {
    var dayed := if cal(now) != p.day then p.(day := cal(now), dayBaseline := p.last) else p;
    var weeked := if WeekOf(cal, now) != p.week
                  then dayed.(week := WeekOf(cal, now), weekBaseline := p.last, weekAt := p.lastAt) else dayed;
    weeked.(highWater := Max(p.highWater, equity), last := equity, lastAt := now)
  }

  /** An unchanged equity within the same day, week and minute is not worth a write. */
  predicate Throttled(p: Period, equity: real, now: int, cal: Calendar) {
    equity == p.last && cal(now) == p.day && WeekOf(cal, now) == p.week && now - p.lastAt < MINUTE
  }

  function Observed(p: Period, equity: real, now: int, cal: Calendar): Period {
    if Throttled(p, equity, now, cal) then p else Recorded(p, equity, now, cal)
  }

  /** Within the minute of the last write, on its day and in its week, the equity is what it was. */
  predicate Quiet(p: Period, equity: real, today: int, now: int) {
    equity == p.last && today == p.day && InWeek(p.week, today) && now < p.lastAt + 60_000_000
  }

  /** A day that turns is measured from the last equity before; a day that goes on keeps its baseline. */
  predicate DayTurns(p: Period, q: Period, today: int) {
    q.day == today && q.dayBaseline == if today == p.day then p.dayBaseline else p.last
  }

  /** So is a week, which turns when the local day leaves the seven days from its Monday. */
  predicate WeekTurns(p: Period, q: Period, today: int) {
    if InWeek(p.week, today) then q.week == p.week && q.weekBaseline == p.weekBaseline && q.weekAt == p.weekAt
    else InWeek(q.week, today) && q.weekBaseline == p.last && q.weekAt == p.lastAt
  }

  /** One observation field by field. */
  predicate Observes(p: Period, q: Period, equity: real, today: int, now: int) {
    && (Quiet(p, equity, today, now) ==> q == p)
    && (!Quiet(p, equity, today, now) ==> q.lastAt == now)
    && q.last == equity && DayTurns(p, q, today) && WeekTurns(p, q, today)
    && q.highWater >= p.highWater && q.highWater >= equity && (q.highWater == p.highWater || q.highWater == equity)
    && q.account == p.account && q.currency == p.currency && q.startedAt == p.startedAt && q.initial == p.initial
    && q.suspended == p.suspended
  }

  lemma ObservedFieldByField(p: Period, equity: real, now: int, cal: Calendar)
    requires p.highWater >= p.last
    ensures Observes(p, Observed(p, equity, now, cal), equity, cal(now), now)
    ensures Throttled(p, equity, now, cal) <==> Quiet(p, equity, cal(now), now)
  {
    WeekIsMonday(cal, now, p.week);
  }

  /** A period that begins is measured from its first equity throughout. */
  predicate Opens(q: Period, account: string, currency: string, equity: real, today: int, now: int) {
    && q.account == account && q.currency == currency && !q.suspended
    && q.startedAt == q.lastAt == q.weekAt == now && q.day == today && InWeek(q.week, today)
    && q.initial == q.last == q.highWater == q.dayBaseline == q.weekBaseline == equity
  }

  lemma ObservedIsConsistent(p: Period, equity: real, now: int, cal: Calendar)
    requires Consistent(p) && equity > 0.0 && p.lastAt <= now
    ensures Consistent(Observed(p, equity, now, cal)) && Observed(p, equity, now, cal).lastAt >= p.lastAt
  {
  }

  // ---- Observation histories -------------------------------------------------------------------

  datatype Obs = Obs(at: int, equity: real)

  ghost predicate Ordered(obs: seq<Obs>) {
    forall i, j | 0 <= i < j < |obs| :: obs[i].at <= obs[j].at
  }

  ghost predicate Positive(obs: seq<Obs>) {
    forall i | 0 <= i < |obs| :: obs[i].equity > 0.0
  }

  /** The record after a whole history, throttling included. */
  function Kept(account: string, currency: string, obs: seq<Obs>, cal: Calendar): Period
    requires |obs| > 0
  {
    var n := |obs|;
    if n == 1 then Begun(account, currency, obs[0].equity, obs[0].at, cal)
    else Observed(Kept(account, currency, obs[..n - 1], cal), obs[n - 1].equity, obs[n - 1].at, cal)
  }

  /** The largest equity ever observed. */
  function Highest(obs: seq<Obs>): real
    requires |obs| > 0
  {
    if |obs| == 1 then obs[0].equity else Max(Highest(obs[..|obs| - 1]), obs[|obs| - 1].equity)
  }

  /** The index of the observation the current bucket (day or week) is measured from. */
  function Anchor(obs: seq<Obs>, bucket: Calendar): (k: nat)
    requires |obs| > 0
    ensures k < |obs|
  {
    var n := |obs|;
    if n == 1 then 0
    else if bucket(obs[n - 1].at) != bucket(obs[n - 2].at) then n - 2
    else Anchor(obs[..n - 1], bucket)
  }

  function Baseline(obs: seq<Obs>, bucket: Calendar): real
    requires |obs| > 0
  {
    obs[Anchor(obs, bucket)].equity
  }

  lemma {:induction false} HighestIsMaximum(obs: seq<Obs>)
    requires |obs| > 0
    ensures forall i | 0 <= i < |obs| :: obs[i].equity <= Highest(obs)
    ensures exists i | 0 <= i < |obs| :: obs[i].equity == Highest(obs)
  {
    var n := |obs|;
    if n == 1 {
      assert obs[0].equity == Highest(obs);
    } else {
      HighestIsMaximum(obs[..n - 1]);
      var i :| 0 <= i < n - 1 && obs[..n - 1][i].equity == Highest(obs[..n - 1]);
      assert obs[i].equity == Highest(obs) || obs[n - 1].equity == Highest(obs);
      forall j | 0 <= j < n ensures obs[j].equity <= Highest(obs) {
        if j < n - 1 {
          assert obs[..n - 1][j] == obs[j];
        }
      }
    }
  }

  /**
    The anchor is the last observation before the current bucket began; when the whole history lies
    in one bucket it is the first observation.
   */
  lemma {:induction false} AnchorIsLastBefore(obs: seq<Obs>, bucket: Calendar)
    requires |obs| > 0 && Ordered(obs) && Monotone(bucket)
    ensures var k := Anchor(obs, bucket);
            var current := bucket(obs[|obs| - 1].at);
            && (forall j | k < j < |obs| :: bucket(obs[j].at) == current)
            && (forall j | 0 <= j <= k :: bucket(obs[j].at) < current || (k == 0 && bucket(obs[0].at) == current))
  {
    var n := |obs|;
    if n > 1 {
      var rest := obs[..n - 1];
      assert forall j | 0 <= j < n - 1 :: rest[j] == obs[j];
      AnchorIsLastBefore(rest, bucket);
    }
  }

  /** A record that tells exactly what a full history tells, its clock less than a minute behind. */
  ghost predicate Tracks(p: Period, account: string, currency: string, obs: seq<Obs>, cal: Calendar)
    requires |obs| > 0
  {
    var end := obs[|obs| - 1];
    && p.account == account && p.currency == currency && !p.suspended
    && p.startedAt == obs[0].at && p.initial == obs[0].equity
    && p.last == end.equity && p.highWater == Highest(obs)
    && p.day == cal(end.at) && p.dayBaseline == Baseline(obs, cal)
    && p.week == WeekOf(cal, end.at) && p.weekBaseline == Baseline(obs, Weeks(cal))
    && p.lastAt <= end.at < p.lastAt + MINUTE
    && p.weekAt <= obs[Anchor(obs, Weeks(cal))].at < p.weekAt + MINUTE
  }

  lemma AnchorStep(obs: seq<Obs>, bucket: Calendar)
    requires |obs| > 1
    ensures var n := |obs|;
            Anchor(obs, bucket) == if bucket(obs[n - 1].at) != bucket(obs[n - 2].at) then n - 2
                else Anchor(obs[..n - 1], bucket)
    ensures var n := |obs|;
            Baseline(obs, bucket) ==
            if bucket(obs[n - 1].at) != bucket(obs[n - 2].at) then obs[n - 2].equity else Baseline(obs[..n - 1], bucket)
  {
  }

  lemma ObservedTracks(p: Period, account: string, currency: string, obs: seq<Obs>, cal: Calendar)
    requires |obs| > 1 && Ordered(obs) && Tracks(p, account, currency, obs[..|obs| - 1], cal)
    ensures Tracks(Observed(p, obs[|obs| - 1].equity, obs[|obs| - 1].at, cal), account, currency, obs, cal)
  {
    AnchorStep(obs, cal);
    AnchorStep(obs, Weeks(cal));
    hide Anchor, Baseline;
    var n := |obs|;
    assert obs[n - 2].at <= obs[n - 1].at;
    assert Weeks(cal)(obs[n - 1].at) == WeekOf(cal, obs[n - 1].at)
        && Weeks(cal)(obs[n - 2].at) == WeekOf(cal, obs[n - 2].at);
    hide Weeks, WeekOf;
  }

  /** Throttling loses nothing, over any ordered history. */
  lemma {:induction false} ThrottledIsExact(account: string, currency: string, obs: seq<Obs>, cal: Calendar)
    requires |obs| > 0 && Ordered(obs)
    ensures Tracks(Kept(account, currency, obs, cal), account, currency, obs, cal)
  {
    var n := |obs|;
    if n > 1 {
      hide Tracks, Observed;
      ThrottledIsExact(account, currency, obs[..n - 1], cal);
      ObservedTracks(Kept(account, currency, obs[..n - 1], cal), account, currency, obs, cal);
    }
  }

  lemma {:induction false} KeptIsConsistent(account: string, currency: string, obs: seq<Obs>, cal: Calendar)
    requires |obs| > 0 && Ordered(obs) && Positive(obs) && PaperAccount(account, currency)
    ensures Consistent(Kept(account, currency, obs, cal))
  {
    var n := |obs|;
    if n > 1 {
      var rest := obs[..n - 1];
      assert forall j | 0 <= j < n - 1 :: rest[j] == obs[j];
      KeptIsConsistent(account, currency, rest, cal);
      ThrottledIsExact(account, currency, rest, cal);
      ObservedIsConsistent(Kept(account, currency, rest, cal), obs[n - 1].equity, obs[n - 1].at, cal);
    }
  }

  // ---- Conservation ----------------------------------------------------------------------------

  /** The last observation of its bucket. */
  predicate Closes(obs: seq<Obs>, bucket: Calendar, i: nat)
    requires i < |obs|
  {
    i == |obs| - 1 || bucket(obs[i].at) != bucket(obs[i + 1].at)
  }

  /** The final profit and loss of every bucket among the first n observations, added up. */
  function Booked(obs: seq<Obs>, bucket: Calendar, n: nat): real
    requires n <= |obs|
  {
    if n == 0 then 0.0
    else Booked(obs, bucket, n - 1) +
         if Closes(obs, bucket, n - 1) then obs[n - 1].equity - Baseline(obs[..n], bucket) else 0.0
  }

  lemma {:induction false} BookedSoFar(obs: seq<Obs>, bucket: Calendar, n: nat)
    requires 0 < n <= |obs|
    ensures Booked(obs, bucket, n) ==
            (if Closes(obs, bucket, n - 1) then obs[n - 1].equity else Baseline(obs[..n], bucket)) - obs[0].equity
  {
    if n == 1 {
      assert Booked(obs, bucket, 0) == 0.0;
    } else {
      BookedSoFar(obs, bucket, n - 1);
      assert obs[..n][..n - 1] == obs[..n - 1];
    }
  }

  /** No gain or loss falls between two days or two weeks. */
  lemma NothingFallsBetween(obs: seq<Obs>, bucket: Calendar)
    requires |obs| > 0
    ensures Booked(obs, bucket, |obs|) == obs[|obs| - 1].equity - obs[0].equity
  {
    BookedSoFar(obs, bucket, |obs|);
  }

  /** Each day or week is one unbroken run of observations, so it is booked once. */
  lemma BucketsAreRuns(obs: seq<Obs>, bucket: Calendar, i: nat, j: nat)
    requires Ordered(obs) && Monotone(bucket) && i < j < |obs| && bucket(obs[i].at) == bucket(obs[j].at)
    ensures forall k | i <= k <= j :: bucket(obs[k].at) == bucket(obs[i].at)
    ensures !Closes(obs, bucket, i)
  {
    forall k | i <= k <= j ensures bucket(obs[k].at) == bucket(obs[i].at) {
      assert bucket(obs[i].at) <= bucket(obs[k].at) <= bucket(obs[j].at);
    }
  }

  lemma WeeksAreMonotone(cal: Calendar)
    requires Monotone(cal)
    ensures Monotone(Weeks(cal))
  {
    forall a: int, b: int | a <= b ensures Weeks(cal)(a) <= Weeks(cal)(b) {
      assert cal(a) <= cal(b);
      assert cal(a) - cal(a) % 7 == 7 * (cal(a) / 7) && cal(b) - cal(b) % 7 == 7 * (cal(b) / 7);
    }
  }

  // ---- Metrics -----------------------------------------------------------------------------------

  datatype Metrics = Metrics(dayPnl: Option<real>, weekPnl: Option<real>, drawdownPct: Option<real>)

  function MetricsOf(p: Period): Metrics
    requires Consistent(p)
  {
    if p.suspended then Metrics(None, None, None)
    else Metrics(Some(p.last - p.dayBaseline), Some(p.last - p.weekBaseline),
                 Some(Max(0.0, (p.highWater - p.last) / p.highWater * 100.0)))
  }

  lemma Share(part: real, whole: real, share: real)
    requires 0.0 <= part < whole && share * whole == part
    ensures 0.0 <= share < 1.0 && (share == 0.0 <==> part == 0.0)
  {
    if share >= 1.0 {
      Scale(1.0, share, whole);
    }
  }

  lemma ShareInRange(part: real, whole: real)
    requires 0.0 <= part < whole
    ensures 0.0 <= part / whole < 1.0 && part / whole * whole == part && (part / whole == 0.0 <==> part == 0.0)
  {
    assert part / whole * whole == part;
    Share(part, whole, part / whole);
  }

  /** A suspended period reports nothing; an active one a drawdown from 0 up to but not including 100 percent. */
  lemma DrawdownInRange(p: Period)
    requires Consistent(p)
    ensures MetricsOf(p).drawdownPct.Some? <==> !p.suspended
    ensures !p.suspended ==>
      var d := MetricsOf(p).drawdownPct.value;
      0.0 <= d < 100.0 && (d == 0.0 <==> p.last == p.highWater) && p.highWater * (100.0 - d) == 100.0 * p.last
  {
    if !p.suspended {
      ShareInRange(p.highWater - p.last, p.highWater);
    }
  }

  /** What the reported numbers mean over a whole ordered history. */
  lemma MetricsAreExact(p: Period, account: string, currency: string, obs: seq<Obs>, cal: Calendar)
    requires |obs| > 0 && Ordered(obs) && Consistent(p) && p == Kept(account, currency, obs, cal)
    ensures var end := obs[|obs| - 1].equity;
            && Highest(obs) > 0.0
            && MetricsOf(p) == Metrics(Some(end - Baseline(obs, cal)), Some(end - Baseline(obs, Weeks(cal))),
                                       Some((Highest(obs) - end) / Highest(obs) * 100.0))
  {
    ThrottledIsExact(account, currency, obs, cal);
    DrawdownInRange(p);
    hide Baseline, Highest, Kept, Consistent;
  }

  /** The day and the week are each measured from the last observation before they began, or from the first. */
  ghost predicate MeasuredFrom(obs: seq<Obs>, cal: Calendar, start: int, pnl: Option<real>, k: nat)
    requires |obs| > 0
  {
    && k < |obs| && pnl == Some(obs[|obs| - 1].equity - obs[k].equity)
    && (forall j | k < j < |obs| :: cal(obs[j].at) >= start)
    && (forall j | 0 <= j <= k :: cal(obs[j].at) < start || k == 0)
  }

  lemma PnlFieldByField(
    p: Period, account: string, currency: string, obs: seq<Obs>, cal: Calendar, today: int, monday: int)
    requires |obs| > 0 && Ordered(obs) && Monotone(cal) && Consistent(p) && p == Kept(account, currency, obs, cal)
    requires today == cal(obs[|obs| - 1].at) && InWeek(monday, today)
    ensures exists k :: MeasuredFrom(obs, cal, today, MetricsOf(p).dayPnl, k)
    ensures exists k :: MeasuredFrom(obs, cal, monday, MetricsOf(p).weekPnl, k)
  {
    hide Kept, Consistent, Highest;
    MetricsAreExact(p, account, currency, obs, cal);
    WeeksAreMonotone(cal);
    AnchorIsLastBefore(obs, cal);
    AnchorIsLastBefore(obs, Weeks(cal));
    hide Anchor, MetricsOf;
    WeekIsMonday(cal, obs[|obs| - 1].at, monday);
    forall j | 0 <= j < |obs|
      ensures Weeks(cal)(obs[j].at) <= cal(obs[j].at)
      ensures Weeks(cal)(obs[j].at) < monday ==> cal(obs[j].at) < monday
    {
      WeekIsMonday(cal, obs[j].at, monday);
    }
    assert MeasuredFrom(obs, cal, today, MetricsOf(p).dayPnl, Anchor(obs, cal));
    assert MeasuredFrom(obs, cal, monday, MetricsOf(p).weekPnl, Anchor(obs, Weeks(cal)));
  }

  // ---- The stored periods ------------------------------------------------------------------------

  datatype Error = AccountRequired | EquityInvalid | PeriodSuspended | AccountMismatch | OutOfOrder | NotStarted

  datatype Row = Row(version: nat, period: Period)

  class Periods {
    const cal: Calendar
    var rows: map<string, Row>

    /** Every stored record passes the validator that runs when it is loaded. */
    ghost predicate Valid()
      reads this
    {
      forall a | a in rows :: Consistent(rows[a].period) && rows[a].period.account == a
    }

    constructor (cal: Calendar)
      ensures Valid() && rows == map[] && this.cal == cal
    {
      this.cal, rows := cal, map[];
    }

    /** Operator only: starting again returns the running period and resets nothing. */
    method Start(account: string, currency: string, equity: real, now: int) returns (r: Result<Period, Error>)
      requires Valid()
      modifies this
      ensures Valid()
      ensures r.Ok? <==> PaperAccount(account, currency) && equity > 0.0 &&
                         (account in old(rows) ==> !old(rows)[account].period.suspended)
      ensures account in old(rows) || r.Err? ==> rows == old(rows)
      ensures r.Ok? ==> account in rows && r.value == rows[account].period
      ensures r.Ok? && account !in old(rows) ==>
        rows == old(rows)[account := Row(0, Begun(account, currency, equity, now, cal))]
      ensures r.Ok? && account !in old(rows) ==> Opens(r.value, account, currency, equity, cal(now), now)
      ensures r.Err? ==>
        r.error == if !PaperAccount(account, currency) then AccountRequired
                   else if equity <= 0.0 then EquityInvalid else PeriodSuspended
    {
      if !PaperAccount(account, currency) {
        return Err(AccountRequired);
      }
      if equity <= 0.0 {
        return Err(EquityInvalid);
      }
      if account in rows {
        var existing := rows[account].period;
        return if existing.suspended then Err(PeriodSuspended) else Ok(existing);
      }
      var period := Begun(account, currency, equity, now, cal);
      WeekIsMonday(cal, now, period.week);
      rows := rows[account := Row(0, period)];
      return Ok(period);
    }

    /** One polled equity. It never starts a period and never moves a suspended one. */
    method Observe(account: string, currency: string, equity: real, now: int) returns (r: Result<Option<Period>, Error>)
      requires Valid()
      modifies this
      ensures Valid() && rows.Keys == old(rows.Keys)
      ensures forall a | a in rows && a != account :: rows[a] == old(rows)[a]
      ensures r == (if !PaperAccount(account, currency) then Err(AccountRequired)
                    else if equity <= 0.0 then Err(EquityInvalid)
                    else if account !in old(rows) then Ok(None)
                    else if now < old(rows)[account].period.lastAt then Err(OutOfOrder)
                    else Ok(Some(rows[account].period)))
      ensures r.Err? || r.value.None? || old(rows)[account].period.suspended ==> rows == old(rows)
      ensures r.Ok? && r.value.Some? && !old(rows)[account].period.suspended ==>
        var p := old(rows)[account].period;
        rows[account] == Row(old(rows)[account].version + (if Throttled(p, equity, now, cal) then 0 else 1),
                             Observed(p, equity, now, cal))
      // The same by local days and minutes, with nothing of the above left to look up.
      ensures r.Ok? && r.value.Some? && !old(rows)[account].period.suspended ==>
        var was, kept := old(rows)[account], rows[account];
        && Observes(was.period, kept.period, equity, cal(now), now)
        && kept.version == was.version + if Quiet(was.period, equity, cal(now), now) then 0 else 1
    {
      if !PaperAccount(account, currency) {
        return Err(AccountRequired);
      }
      if equity <= 0.0 {
        return Err(EquityInvalid);
      }
      if account !in rows {
        return Ok(None);
      }
      var row := rows[account];
      var period := row.period;
      if now < period.lastAt {
        return Err(OutOfOrder);
      }
      if period.suspended {
        return Ok(Some(period));
      }
      ObservedFieldByField(period, equity, now, cal);
      if equity == period.last && cal(now) == period.day && WeekOf(cal, now) == period.week
          && now - period.lastAt < MINUTE {
        return Ok(Some(period));
      }
      if cal(now) != period.day {
        period := period.(day := cal(now), dayBaseline := period.last);
      }
      if WeekOf(cal, now) != period.week {
        period := period.(week := WeekOf(cal, now), weekBaseline := period.last, weekAt := period.lastAt);
      }
      period := period.(highWater := Max(period.highWater, equity), last := equity, lastAt := now);
      ObservedIsConsistent(row.period, equity, now, cal);
      rows := rows[account := Row(row.version + 1, period)];
      return Ok(Some(period));
    }

    method Suspend(account: string, currency: string) returns (r: Result<Period, Error>)
      requires Valid()
      modifies this
      ensures Valid()
      ensures r == (if !PaperAccount(account, currency) then Err(AccountRequired)
                    else if account !in old(rows) then Err(NotStarted)
                    else Ok(old(rows)[account].period.(suspended := true)))
      ensures r.Err? ==> rows == old(rows)
      ensures r.Ok? ==> rows == old(rows)[account := Row(old(rows)[account].version + 1, r.value)]
    {
      if !PaperAccount(account, currency) {
        return Err(AccountRequired);
      }
      if account !in rows {
        return Err(NotStarted);
      }
      var period := rows[account].period.(suspended := true);
      rows := rows[account := Row(rows[account].version + 1, period)];
      return Ok(period);
    }
  }

  datatype Op =
    | StartOp(account: string, currency: string, equity: real, now: int)
    | ObserveOp(account: string, currency: string, equity: real, now: int)
    | SuspendOp(account: string, currency: string)

  /** What no operation undoes: a period keeps its start, and a suspended one keeps everything. */
  ghost predicate Endures(before: map<string, Row>, after: map<string, Row>) {
    forall a | a in before ::
      && a in after
      && after[a].period.startedAt == before[a].period.startedAt && after[a].period.initial == before[a].period.initial
      && after[a].period.highWater >= before[a].period.highWater && after[a].period.lastAt >= before[a].period.lastAt
      && after[a].version >= before[a].version
      && (before[a].period.suspended ==> after[a].period == before[a].period)
  }

  /** Any operations in any order, with any clock readings. */
  method Run(periods: Periods, ops: seq<Op>)
    requires periods.Valid()
    modifies periods
    ensures periods.Valid() && Endures(old(periods.rows), periods.rows)
  {
    hide Consistent, Observed, Throttled;
    for i := 0 to |ops|
      invariant periods.Valid() && Endures(old(periods.rows), periods.rows)
    {
      ghost var before := periods.rows;
      match ops[i] {
        case StartOp(account, currency, equity, now) =>
          var _ := periods.Start(account, currency, equity, now);
        case ObserveOp(account, currency, equity, now) =>
          ObserveEndures(periods.rows, account, equity, now, periods.cal);
          var _ := periods.Observe(account, currency, equity, now);
        case SuspendOp(account, currency) =>
          var _ := periods.Suspend(account, currency);
      }
      assert Endures(before, periods.rows);
    }
  }

  lemma ObserveEndures(rows: map<string, Row>, account: string, equity: real, now: int, cal: Calendar)
    ensures account in rows && now >= rows[account].period.lastAt ==>
      var p, q := rows[account].period, Observed(rows[account].period, equity, now, cal);
      q.startedAt == p.startedAt && q.initial == p.initial && q.highWater >= p.highWater && q.lastAt >= p.lastAt
  {
  }

  lemma KeptClock(account: string, obs: seq<Obs>, next: Obs, cal: Calendar)
    requires |obs| > 0 && Ordered(obs) && obs[|obs| - 1].at <= next.at
    ensures Kept(account, "USD", obs, cal).lastAt <= next.at && !Kept(account, "USD", obs, cal).suspended
  {
    ThrottledIsExact(account, "USD", obs, cal);
    hide Kept;
  }

  /** Polling one account through an ordered history leaves exactly the record of that history. */
  method Poll(periods: Periods, account: string, obs: seq<Obs>)
    requires periods.Valid() && account !in periods.rows && PaperAccount(account, "USD")
    requires |obs| > 0 && Ordered(obs) && Positive(obs)
    modifies periods
    ensures periods.Valid() && account in periods.rows
    ensures periods.rows[account].period == Kept(account, "USD", obs, periods.cal)
    ensures forall a | a in old(periods.rows) :: a in periods.rows && periods.rows[a] == old(periods.rows)[a]
  {
    hide Consistent, Observed, Throttled, Begun, PaperAccount;
    var started := periods.Start(account, "USD", obs[0].equity, obs[0].at);
    assert obs[..1] == [obs[0]];
    for i := 1 to |obs|
      invariant periods.Valid() && account in periods.rows
      invariant periods.rows[account].period == Kept(account, "USD", obs[..i], periods.cal)
      invariant forall a | a in old(periods.rows) :: a in periods.rows && periods.rows[a] == old(periods.rows)[a]
    {
      assert obs[..i + 1][..i] == obs[..i];
      KeptClock(account, obs[..i], obs[i], periods.cal);
      var _ := periods.Observe(account, "USD", obs[i].equity, obs[i].at);
    }
    assert obs[..|obs|] == obs;
  }
}
