/**
  The token bucket that paces vendor calls, in real arithmetic on a monotone clock. One loop round
  of `acquire` is one atomic attempt; callers may interleave rounds and penalties in any order.
 */
module RateLimiter {
  import opened Basics
  import opened Wrappers

  datatype Grant = Grant(at: real, tokens: real)

  /** A 429: no grant from `at` until `until`. */
  datatype Penalty = Penalty(at: real, until: real)

  /** Tokens granted in the closed interval [from, to]. */
  function Granted(log: seq<Grant>, from: real, to: real): real {
    if |log| == 0 then 0.0
    else
      var last := log[|log| - 1];
      Granted(log[..|log| - 1], from, to) + if from <= last.at <= to then last.tokens else 0.0
  }

  /** The promise: any window takes at most the burst plus what the rate earns during it. */
  ghost predicate Bounded(log: seq<Grant>, rate: real, burst: real) {
    forall from: real, to: real | from <= to :: Granted(log, from, to) <= burst + rate * (to - from)
  }

  ghost predicate Past(log: seq<Grant>, clock: real) {
    forall g | g in log :: g.at <= clock
  }

  /** Nothing was granted at or after `from`. */
  ghost predicate Idle(log: seq<Grant>, from: real) {
    forall g | g in log :: g.at < from
  }

  /**
    What a window has taken, plus what the bucket could still give, never exceeds the burst plus
    what the rate earns since the window opened.
   */
  ghost predicate Potential(log: seq<Grant>, clock: real, rate: real, burst: real, level: real) {
    forall from: real | from <= clock :: Idle(log, from) || Granted(log, from, clock) + level <= burst - rate * from
  }

  lemma {:induction false} IdleGrantsNothing(log: seq<Grant>, from: real, to: real)
    requires Idle(log, from)
    ensures Granted(log, from, to) == 0.0
  {
    if |log| > 0 {
      assert log[|log| - 1] in log;
      IdleGrantsNothing(log[..|log| - 1], from, to);
    }
  }

  /** What the rate earns between two instants. */
  lemma Earns(rate: real, from: real, to: real)
    requires rate > 0.0 && from <= to
    ensures rate * (to - from) == (to - from) * rate == rate * to - rate * from >= 0.0
  {
  }

  /** Once every grant is in the past, moving the end of the window later changes nothing. */
  lemma {:induction false} GrantedByNow(log: seq<Grant>, from: real, clock: real, to: real)
    requires Past(log, clock) && clock <= to
    ensures Granted(log, from, to) == Granted(log, from, clock)
  {
    if |log| > 0 {
      assert log[|log| - 1] in log;
      GrantedByNow(log[..|log| - 1], from, clock, to);
    }
  }

  lemma {:induction false} NoDebtGrantsNothing(log: seq<Grant>, from: real, to: real)
    requires forall g | g in log :: g.tokens <= 0.0
    ensures Granted(log, from, to) <= 0.0
  {
    if |log| > 0 {
      assert log[|log| - 1] in log;
      NoDebtGrantsNothing(log[..|log| - 1], from, to);
    }
  }

  /** The potential survives a grant of `tokens` out of a bucket refilled to at most `burst`. */
  lemma PotentialAfterGrant(log: seq<Grant>, clock: real, now: real, rate: real, burst: real, level: real,
      level': real, tokens: real)
    requires Potential(log, clock, rate, burst, level) && Past(log, clock) && clock <= now && rate > 0.0
    requires level' <= level && level' <= burst - rate * now
    ensures Potential(log + [Grant(now, tokens)], now, rate, burst, level' - tokens)
  {
    var log' := log + [Grant(now, tokens)];
    assert log'[..|log|] == log && log'[|log|] == Grant(now, tokens);
    forall from: real | from <= now ensures Granted(log', from, now) + (level' - tokens) <= burst - rate * from {
      GrantedByNow(log, from, clock, now);
      if from > clock || Idle(log, from) {
        assert Idle(log, from);
        IdleGrantsNothing(log, from, now);
        Earns(rate, from, now);
      }
    }
  }

  lemma PotentialLater(log: seq<Grant>, clock: real, now: real, rate: real, burst: real, level: real, level': real)
    requires Potential(log, clock, rate, burst, level) && Past(log, clock) && clock <= now && level' <= level
    ensures Potential(log, now, rate, burst, level')
  {
    forall from: real | from <= now ensures Idle(log, from) || Granted(log, from, now) + level' <= burst - rate * from {
      GrantedByNow(log, from, clock, now);
      if from > clock {
        assert Idle(log, from);
      }
    }
  }

  /** Every window ending at or after a grant is paid for by the potential just after it. */
  lemma BoundedAfterGrant(log: seq<Grant>, now: real, rate: real, burst: real, tokens: real, left: real)
    requires Bounded(log, rate, burst) && Past(log, now) && rate > 0.0 && burst >= 0.0 && left >= 0.0
    requires Potential(log + [Grant(now, tokens)], now, rate, burst, left - rate * now)
    ensures Bounded(log + [Grant(now, tokens)], rate, burst)
  {
    var log' := log + [Grant(now, tokens)];
    assert log'[..|log|] == log && log'[|log|] == Grant(now, tokens);
    assert Grant(now, tokens) in log';
    forall from: real, to: real | from <= to ensures Granted(log', from, to) <= burst + rate * (to - from) {
      if from <= now <= to {
        assert !Idle(log', from);
        GrantedByNow(log', from, now, to);
        Earns(rate, from, to);
        Earns(rate, now, to);
      } else {
        assert Granted(log', from, to) == Granted(log, from, to);
      }
    }
  }

  /** What the bucket could give by now, measured from time zero. */
  function Level(tokens: real, rate: real, updated: real): real {
    tokens - rate * updated
  }

  /** The bucket refilled up to its capacity. */
  function Filled(capacity: real, tokens: real, updated: real, rate: real, now: real): real {
    Min(capacity, tokens + (now - updated) * rate)
  }

  /** One round past any penalty keeps every promise about the log, granted or not. */
  lemma RoundKeeps(log: seq<Grant>, clock: real, now: real, rate: real, capacity: real, tokens: real, updated: real,
      wanted: real)
    requires rate > 0.0 && updated <= clock <= now && Past(log, clock) && Bounded(log, rate, Max(capacity, 0.0))
    requires capacity >= 0.0 ==> tokens >= 0.0 && Potential(log, clock, rate, capacity, Level(tokens, rate, updated))
    requires capacity < 0.0 ==> forall g | g in log :: g.tokens <= 0.0
    ensures var filled := Filled(capacity, tokens, updated, rate, now);
            var log' := log + [Grant(now, wanted)];
            && filled <= capacity
            && (capacity >= 0.0 ==> filled >= 0.0 && Potential(log, now, rate, capacity, Level(filled, rate, now)))
            && (wanted <= filled ==>
                  && Bounded(log', rate, Max(capacity, 0.0))
                  && (capacity >= 0.0 ==> Potential(log', now, rate, capacity, Level(filled - wanted, rate, now)))
                  && (capacity < 0.0 ==> forall g | g in log' :: g.tokens <= 0.0))
  {
    hide Potential, Bounded;
    var filled := Filled(capacity, tokens, updated, rate, now);
    Earns(rate, updated, now);
    if capacity >= 0.0 {
      PotentialLater(log, clock, now, rate, capacity, tokens - rate * updated, filled - rate * now);
      if wanted <= filled {
        PotentialAfterGrant(log, now, now, rate, capacity, filled - rate * now, filled - rate * now, wanted);
        assert filled - wanted - rate * now == filled - rate * now - wanted;
        BoundedAfterGrant(log, now, rate, capacity, wanted, filled - wanted);
      }
    } else if wanted <= filled {
      NoDebtIsBounded(log + [Grant(now, wanted)], rate);
    }
  }

  class RateLimiter {
    const rate: real
    const capacity: real
    var tokens: real
    var updated: real
    var penaltyUntil: real
    ghost var clock: real
    ghost var log: seq<Grant>
    ghost var penalties: seq<Penalty>

    ghost predicate Valid()
      reads this
    {
      && rate > 0.0 && updated <= clock && Past(log, clock)
      && (capacity >= 0.0 ==> tokens >= 0.0 && Potential(log, clock, rate, capacity, Level(tokens, rate, updated)))
      && (capacity < 0.0 ==> forall g | g in log :: g.tokens <= 0.0)
      && Bounded(log, rate, Max(capacity, 0.0))
      && Quiet()
    }

    /** No grant falls inside a penalty. */
    ghost predicate Quiet()
      reads this
    {
      && (forall p | p in penalties :: p.at <= clock && p.until <= penaltyUntil)
      && forall p, g | p in penalties && g in log :: g.at <= p.at || p.until <= g.at
    }

    constructor (rate: real, burst: Option<real>, now: real)
      requires rate > 0.0
      ensures Valid() && log == [] && penalties == [] && clock == now && this.rate == rate
      ensures capacity == tokens == if burst.Some? then burst.value else Max(1.0, rate)
    {
      this.rate := rate;
      this.capacity := if burst.Some? then burst.value else Max(1.0, rate);
      this.tokens := if burst.Some? then burst.value else Max(1.0, rate);
      this.updated, this.penaltyUntil := now, 0.0;
      this.clock, this.log, this.penalties := now, [], [];
      new;
      assert forall from: real :: Idle(log, from);
      NoDebtIsBounded([], rate);
      BoundedByMore([], rate, 0.0, Max(capacity, 0.0));
    }

    /** One round of `acquire`: granted, or told how long to sleep before the next round. */
    method Attempt(wanted: real, now: real) returns (wait: Option<real>)
      requires Valid() && clock <= now
      modifies this
      ensures Valid() && clock == now && penaltyUntil == old(penaltyUntil) && penalties == old(penalties)
      ensures wait.None? ==> wanted <= capacity && now >= penaltyUntil
      ensures var filled := Filled(capacity, old(tokens), old(updated), rate, now);
              if now < penaltyUntil then
                && wait == Some(penaltyUntil - now)
                && tokens == old(tokens) && updated == old(updated) && log == old(log)
              else if wanted <= filled then
                && wait == None
                && tokens == filled - wanted && updated == now && log == old(log) + [Grant(now, wanted)]
              else
                && wait == Some((wanted - filled) / rate)
                && tokens == filled && updated == now && log == old(log)
    {
      hide Potential, Bounded, Idle, Filled, Level;
      if now < penaltyUntil {
        if capacity >= 0.0 {
          PotentialLater(log, clock, now, rate, capacity, Level(tokens, rate, updated), Level(tokens, rate, updated));
        }
        clock := now;
        return Some(penaltyUntil - now);
      }
      var filled := Filled(capacity, tokens, updated, rate, now);
      RoundKeeps(log, clock, now, rate, capacity, tokens, updated, wanted);
      if filled >= wanted {
        tokens, updated, clock, log := filled - wanted, now, now, log + [Grant(now, wanted)];
        return None;
      }
      tokens, updated, clock := filled, now, now;
      return Some((wanted - filled) / rate);
    }

    /** After a 429 the bucket is emptied and held. */
    method Penalize(seconds: real, now: real)
      requires Valid() && clock <= now
      modifies this
      ensures Valid() && clock == now && log == old(log)
      ensures tokens == 0.0 && updated == now
      ensures penaltyUntil == Max(old(penaltyUntil), now + Max(0.0, seconds))
      ensures penalties == old(penalties) + [Penalty(now, now + Max(0.0, seconds))]
    {
      hide Potential, Bounded;
      Earns(rate, updated, now);
      if capacity >= 0.0 {
        PotentialLater(log, clock, now, rate, capacity, Level(tokens, rate, updated), Level(0.0, rate, now));
      }
      penalties := penalties + [Penalty(now, now + Max(0.0, seconds))];
      tokens, updated, clock := 0.0, now, now;
      penaltyUntil := Max(penaltyUntil, now + Max(0.0, seconds));
    }

    /**
      `acquire` by a lone caller whose every sleep lasts at least as long as asked: it succeeds
      within three rounds when it asks for no more than the capacity.
     */
    method Acquire(wanted: real, start: real, overslept: nat -> real) returns (rounds: nat, at: real)
      requires Valid() && clock <= start && wanted <= capacity
      requires forall k :: overslept(k) >= 0.0
      modifies this
      ensures Valid() && 1 <= rounds <= 3 && at >= start && clock == at
      ensures log == old(log) + [Grant(at, wanted)]
      ensures rounds == 1 <==>
        start >= old(penaltyUntil) && wanted <= Filled(capacity, old(tokens), old(updated), rate, start)
    {
      hide Valid;
      at, rounds := start, 0;
      ghost var held, short := false, false;
      while true
        invariant Valid() && clock <= at && at >= start && penaltyUntil == old(penaltyUntil) && log == old(log)
        invariant rounds == 0 ==> at == start && tokens == old(tokens) && updated == old(updated)
        invariant rounds == (if held then 1 else 0) + (if short then 1 else 0)
        invariant held ==> at >= penaltyUntil && start < penaltyUntil
        invariant short ==> at >= penaltyUntil && wanted <= tokens + (at - updated) * rate
        invariant rounds == 1 && short ==> !(wanted <= Filled(capacity, old(tokens), old(updated), rate, start))
        decreases !held, !short
      {
        RatePositive();
        var wait := Attempt(wanted, at);
        rounds := rounds + 1;
        if wait.None? {
          return;
        }
        if at < penaltyUntil {
          held := true;
        } else {
          short := true;
          assert (wait.value + overslept(rounds)) * rate >= wait.value * rate == wanted - tokens;
        }
        at := at + wait.value + overslept(rounds);
      }
    }

    lemma RatePositive()
      requires Valid()
      ensures rate > 0.0
    {
    }
  }

  lemma NoDebtIsBounded(log: seq<Grant>, rate: real)
    requires rate > 0.0 && forall g | g in log :: g.tokens <= 0.0
    ensures Bounded(log, rate, 0.0)
  {
    forall from: real, to: real | from <= to ensures Granted(log, from, to) <= 0.0 + rate * (to - from) {
      NoDebtGrantsNothing(log, from, to);
      assert rate * (to - from) >= 0.0;
    }
  }

  lemma BoundedByMore(log: seq<Grant>, rate: real, burst: real, more: real)
    requires Bounded(log, rate, burst) && burst <= more
    ensures Bounded(log, rate, more)
  {
  }

  lemma WindowsBounded(limiter: RateLimiter)
    requires limiter.Valid()
    ensures forall from: real, to: real | from <= to ::
      Granted(limiter.log, from, to) <= Max(limiter.capacity, 0.0) + limiter.rate * (to - from)
    ensures forall p, g | p in limiter.penalties && g in limiter.log :: !(p.at < g.at < p.until)
  {
  }

  /** What happens next, and how long after the event before it. */
  datatype Step = Try(wanted: real, after: real) | Fault(seconds: real, after: real)

  /** Any interleaving of acquire rounds and penalties keeps the promise. */
  method Run(limiter: RateLimiter, start: real, steps: seq<Step>)
    requires limiter.Valid() && limiter.clock <= start
    modifies limiter
    ensures limiter.Valid() && old(limiter.log) <= limiter.log && old(limiter.penalties) <= limiter.penalties
    ensures forall from: real, to: real | from <= to ::
      Granted(limiter.log, from, to) <= Max(limiter.capacity, 0.0) + limiter.rate * (to - from)
    ensures forall p, g | p in limiter.penalties && g in limiter.log :: !(p.at < g.at < p.until)
  {
    hide Bounded, Potential;
    var now := start;
    for i := 0 to |steps|
      invariant limiter.Valid() && limiter.clock <= now
      invariant old(limiter.log) <= limiter.log && old(limiter.penalties) <= limiter.penalties
    {
      now := now + Max(steps[i].after, 0.0);
      match steps[i]
      case Try(wanted, _) =>
        var _ := limiter.Attempt(wanted, now);
      case Fault(seconds, _) =>
        limiter.Penalize(seconds, now);
    }
    WindowsBounded(limiter);
  }
}
