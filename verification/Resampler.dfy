/** Turning master-clock ticks into output samples with an integer accumulator. The channels are
    anything that can be advanced by a number of ticks and listened to. */
module Resampler {
  import opened Common

  const MASTER_CLOCK := 4194304

  datatype Played<C, S> = Played(accumulator: nat, channels: C, samples: seq<S>)

  /** Division rounded up. */
  function CeilDiv(x: int, d: nat): int
    requires d >= 1
  {
    (x + d - 1) / d
  }

  lemma ProductSign(k: int, d: nat)
    ensures k >= 0 ==> k * d >= 0
    ensures k <= 0 ==> k * d <= 0
  {
  }

  lemma Ceiling(x: int, d: nat)
    requires d >= 1
    ensures x <= CeilDiv(x, d) * d < x + d
    ensures x + d > 0 ==> CeilDiv(x, d) >= 0
    ensures x >= 1 <==> CeilDiv(x, d) >= 1
  {
    var y := x + d - 1;
    var k, r := y / d, y % d;
    assert y == k * d + r;
    CeilingSign(x, d, k, r);
  }

  lemma CeilingSign(x: int, d: nat, k: int, r: int)
    requires d >= 1 && x + d - 1 == k * d + r && 0 <= r < d
    ensures x + d > 0 ==> k >= 0
    ensures x >= 1 <==> k >= 1
  {
    ProductSign(k, d);
    ProductSign(k + 1, d);
    ProductSign(k - 1, d);
    Distribute(k, 1, d);
    Distribute(k, -1, d);
  }

  lemma CeilingShifts(x: int, k: int, d: nat)
    requires d >= 1
    ensures CeilDiv(x - k * d, d) == CeilDiv(x, d) - k
  {
    var y := x + d - 1;
    var q, r := y / d, y % d;
    assert y == q * d + r;
    assert (q - k) * d == q * d - k * d;
    Quotient(y - k * d, d, q - k, r);
  }

  /** Ticks until the accumulator reaches the master clock rate. */
  function UntilSample(accumulator: nat, rate: nat): (ticks: nat)
    requires 1 <= rate && accumulator < MASTER_CLOCK + rate
    ensures MASTER_CLOCK <= accumulator + ticks * rate < MASTER_CLOCK + rate
    ensures accumulator < MASTER_CLOCK <==> ticks >= 1
  {
    Ceiling(MASTER_CLOCK - accumulator, rate);
    CeilDiv(MASTER_CLOCK - accumulator, rate)
  }

  lemma FewerTicks(a: nat, b: nat, rate: nat)
    requires a < b
    ensures a * rate + rate <= b * rate
  {
    Distribute(a + 1, b - a - 1, rate);
    Distribute(a, 1, rate);
    ProductSign(b - a - 1, rate);
  }

  /** The ticks the loop takes at once. */
  function Stretch(accumulator: nat, rate: nat, n: nat): (ticks: nat)
    requires 1 <= rate && accumulator < MASTER_CLOCK + rate
    ensures ticks <= n && ticks <= UntilSample(accumulator, rate)
    ensures n > 0 && ticks == 0 ==> accumulator >= MASTER_CLOCK
    ensures accumulator + ticks * rate < MASTER_CLOCK + rate
    ensures accumulator + ticks * rate < MASTER_CLOCK <==> ticks < UntilSample(accumulator, rate)
  {
    var until := UntilSample(accumulator, rate);
    if n < until then FewerTicks(n, until, rate); n else until
  }

  /** One iteration of the sampling loop. */
  function Iteration<C, S>(advance: (C, nat) -> C, hear: C -> S, rate: nat, s: Played<C, S>, n: nat): (t: Played<C, S>)
    requires 1 <= rate && s.accumulator < MASTER_CLOCK + rate
    ensures t.accumulator < MASTER_CLOCK + rate
  {
    var ticks := Stretch(s.accumulator, rate, n);
    var accumulator := s.accumulator + ticks * rate;
    var channels := advance(s.channels, ticks);
    if accumulator >= MASTER_CLOCK then Played(accumulator - MASTER_CLOCK, channels, s.samples + [hear(channels)])
    else Played(accumulator, channels, s.samples)
  }

  /** The sampling loop. */
  function Play<C, S>(advance: (C, nat) -> C, hear: C -> S, rate: nat, s: Played<C, S>, n: nat): (t: Played<C, S>)
    requires 1 <= rate && s.accumulator < MASTER_CLOCK + rate
    ensures t.accumulator < MASTER_CLOCK + rate
    decreases n, s.accumulator
  {
    if n == 0 then s
    else Play(advance, hear, rate, Iteration(advance, hear, rate, s, n), n - Stretch(s.accumulator, rate, n))
  }

  ghost predicate Additive<C(!new)>(advance: (C, nat) -> C) {
    && (forall c: C :: advance(c, 0) == c)
    && (forall c: C, a: nat, b: nat :: advance(advance(c, a), b) == advance(c, a + b))
  }

  /** Nothing is lost at any rate: samples and accumulator account for every tick, and the channels
      receive exactly the ticks asked for. */
  lemma {:induction false} NothingLost<C(!new), S>(
    advance: (C, nat) -> C, hear: C -> S, rate: nat, s: Played<C, S>, n: nat)
    requires Additive(advance) && 1 <= rate && s.accumulator < MASTER_CLOCK + rate
    ensures var t := Play(advance, hear, rate, s, n);
      && t.channels == advance(s.channels, n)
      && |s.samples| <= |t.samples|
      && t.accumulator + (|t.samples| - |s.samples|) * MASTER_CLOCK == s.accumulator + n * rate
    decreases n, s.accumulator
  {
    hide Play, Stretch, UntilSample;
    PlayUnfolds(advance, hear, rate, s, n);
    if n > 0 {
      var ticks := Stretch(s.accumulator, rate, n);
      var next := Iteration(advance, hear, rate, s, n);
      NothingLost(advance, hear, rate, next, n - ticks);
      Distribute(ticks, n - ticks, rate);
      assert advance(advance(s.channels, ticks), n - ticks) == advance(s.channels, ticks + (n - ticks));
    }
  }

  lemma PlayUnfolds<C, S>(advance: (C, nat) -> C, hear: C -> S, rate: nat, s: Played<C, S>, n: nat)
    requires 1 <= rate && s.accumulator < MASTER_CLOCK + rate
    ensures Play(advance, hear, rate, s, 0) == s
    ensures n > 0 ==>
      Play(advance, hear, rate, s, n)
        == Play(advance, hear, rate, Iteration(advance, hear, rate, s, n), n - Stretch(s.accumulator, rate, n))
  {
    hide Iteration, Stretch;
  }

  /** Past the next sample, the loop does the same whatever comes after. */
  lemma SameIteration<C, S>(advance: (C, nat) -> C, hear: C -> S, rate: nat, s: Played<C, S>, a: nat, b: nat)
    requires 1 <= rate <= MASTER_CLOCK && s.accumulator < MASTER_CLOCK
    requires UntilSample(s.accumulator, rate) <= a
    ensures Stretch(s.accumulator, rate, a) == Stretch(s.accumulator, rate, a + b) == UntilSample(s.accumulator, rate)
    ensures Iteration(advance, hear, rate, s, a) == Iteration(advance, hear, rate, s, a + b)
    ensures Iteration(advance, hear, rate, s, a).accumulator < MASTER_CLOCK
  {
    hide UntilSample;
  }

  /** How a run is split into calls makes no difference, up to one sample per tick. */
  lemma {:induction false} PlaySplit<C(!new), S>(
    advance: (C, nat) -> C, hear: C -> S, rate: nat, s: Played<C, S>, a: nat, b: nat)
    requires Additive(advance) && 1 <= rate <= MASTER_CLOCK && s.accumulator < MASTER_CLOCK
    ensures Play(advance, hear, rate, s, a).accumulator < MASTER_CLOCK
    ensures Play(advance, hear, rate, s, a + b) == Play(advance, hear, rate, Play(advance, hear, rate, s, a), b)
    decreases a, s.accumulator
  {
    hide UntilSample, Stretch, Iteration, Play, Additive;
    var until := UntilSample(s.accumulator, rate);
    PlayUnfolds(advance, hear, rate, s, a);
    PlayUnfolds(advance, hear, rate, s, a + b);
    if a > 0 && until <= a {
      SameIteration(advance, hear, rate, s, a, b);
      PlaySplit(advance, hear, rate, Iteration(advance, hear, rate, s, a), a - until, b);
    } else if a > 0 {
      SplitInsideStretch(advance, hear, rate, s, a, b);
    }
  }

  /** Stopping short of the next sample leaves that many fewer ticks to it. */
  lemma StretchShortened(accumulator: nat, rate: nat, a: nat, b: nat)
    requires 1 <= rate && accumulator < MASTER_CLOCK && 0 < a < UntilSample(accumulator, rate)
    ensures Stretch(accumulator, rate, a) == a && accumulator + a * rate < MASTER_CLOCK
    ensures Stretch(accumulator, rate, a + b) == a + Stretch(accumulator + a * rate, rate, b)
  {
    assert Stretch(accumulator, rate, a) == a;
    CeilingShifts(MASTER_CLOCK - accumulator, a, rate);
    hide CeilDiv;
  }

  lemma IterationResumes<C, S>(
    advance: (C, nat) -> C, hear: C -> S, rate: nat, s: Played<C, S>, t: Played<C, S>, a: nat, b: nat)
    requires 1 <= rate && s.accumulator < MASTER_CLOCK && 0 < a < UntilSample(s.accumulator, rate)
    requires t == s.(accumulator := s.accumulator + a * rate, channels := advance(s.channels, a))
    requires t.accumulator < MASTER_CLOCK
    requires var k := Stretch(t.accumulator, rate, b); advance(t.channels, k) == advance(s.channels, a + k)
    ensures Stretch(s.accumulator, rate, a + b) == a + Stretch(t.accumulator, rate, b)
    ensures Iteration(advance, hear, rate, s, a + b) == Iteration(advance, hear, rate, t, b)
  {
    StretchShortened(s.accumulator, rate, a, b);
    hide UntilSample, Stretch;
    Distribute(a, Stretch(t.accumulator, rate, b), rate);
  }

  lemma IterationShort<C, S>(advance: (C, nat) -> C, hear: C -> S, rate: nat, s: Played<C, S>, a: nat)
    requires 1 <= rate && s.accumulator < MASTER_CLOCK && 0 < a < UntilSample(s.accumulator, rate)
    ensures var t := s.(accumulator := s.accumulator + a * rate, channels := advance(s.channels, a));
      Play(advance, hear, rate, s, a) == t && t.accumulator < MASTER_CLOCK
  {
    StretchShortened(s.accumulator, rate, a, 0);
    PlayUnfolds(advance, hear, rate, s, a);
    PlayUnfolds(advance, hear, rate, Iteration(advance, hear, rate, s, a), 0);
    hide UntilSample, Stretch, Play;
  }

  /** The case where the split falls between two samples. */
  lemma SplitInsideStretch<C(!new), S>(
    advance: (C, nat) -> C, hear: C -> S, rate: nat, s: Played<C, S>, a: nat, b: nat)
    requires Additive(advance) && 1 <= rate <= MASTER_CLOCK && s.accumulator < MASTER_CLOCK
    requires 0 < a < UntilSample(s.accumulator, rate)
    ensures Play(advance, hear, rate, s, a).accumulator < MASTER_CLOCK
    ensures Play(advance, hear, rate, s, a + b) == Play(advance, hear, rate, Play(advance, hear, rate, s, a), b)
  {
    hide Play, Iteration, Stretch, UntilSample;
    IterationShort(advance, hear, rate, s, a);
    var t := Play(advance, hear, rate, s, a);
    PlayUnfolds(advance, hear, rate, s, a + b);
    PlayUnfolds(advance, hear, rate, t, b);
    var k := Stretch(t.accumulator, rate, b);
    assert advance(advance(s.channels, a), k) == advance(s.channels, a + k);
    if b > 0 {
      IterationResumes(advance, hear, rate, s, t, a, b);
    }
  }

  // ---------------------------------------------------------------- no drift

  /** The number of samples is exactly the elapsed time at the output rate, rounded down, and the
      accumulator is exactly the remainder. */
  ghost predicate Exact<C, S>(s: Played<C, S>, t: Played<C, S>, rate: nat, n: nat) {
    && |s.samples| <= |t.samples|
    && |t.samples| - |s.samples| == (s.accumulator + n * rate) / MASTER_CLOCK
    && t.accumulator == (s.accumulator + n * rate) % MASTER_CLOCK
  }

  lemma NoDrift<C(!new), S>(advance: (C, nat) -> C, hear: C -> S, rate: nat, s: Played<C, S>, n: nat)
    requires Additive(advance) && 1 <= rate <= MASTER_CLOCK && s.accumulator < MASTER_CLOCK
    ensures Exact(s, Play(advance, hear, rate, s, n), rate, n)
    ensures Play(advance, hear, rate, s, n).channels == advance(s.channels, n)
  {
    hide Play, Additive;
    NothingLost(advance, hear, rate, s, n);
    PlaySplit(advance, hear, rate, s, n, 0);
    var t := Play(advance, hear, rate, s, n);
    Quotient(s.accumulator + n * rate, MASTER_CLOCK, |t.samples| - |s.samples|, t.accumulator);
  }

  /** The tick, counted from the start of the run, in which the next sample but `i` is taken. */
  function Instant(accumulator: nat, rate: nat, i: nat): int
    requires 1 <= rate
  {
    CeilDiv((i + 1) * MASTER_CLOCK - accumulator, rate)
  }

  lemma InstantLater(accumulator: nat, rate: nat, i: nat, ticks: nat)
    requires 1 <= rate && MASTER_CLOCK <= accumulator + ticks * rate && i > 0
    ensures Instant(accumulator, rate, i) == ticks + Instant(accumulator + ticks * rate - MASTER_CLOCK, rate, i - 1)
  {
    CeilingShifts((i + 1) * MASTER_CLOCK - accumulator, ticks, rate);
    hide CeilDiv;
    Distribute(i, 1, MASTER_CLOCK);
  }

  /** The samples `t` has beyond `s`, each taken at its instant. */
  ghost predicate SampledOnTime<C, S>(advance: (C, nat) -> C, hear: C -> S, rate: nat, s: Played<C, S>, t: Played<C, S>)
    requires 1 <= rate
  {
    && |s.samples| <= |t.samples| && t.samples[..|s.samples|] == s.samples
    && forall i: nat :: |s.samples| <= i < |t.samples| ==> OnTime(advance, hear, rate, s, i - |s.samples|, t.samples[i])
  }

  ghost predicate OnTime<C, S>(advance: (C, nat) -> C, hear: C -> S, rate: nat, s: Played<C, S>, i: nat, sample: S)
    requires 1 <= rate
  {
    var at := Instant(s.accumulator, rate, i);
    at >= 0 && sample == hear(advance(s.channels, at))
  }

  lemma OnTimeEarlier<C(!new), S>(
    advance: (C, nat) -> C, hear: C -> S, rate: nat, s: Played<C, S>, next: Played<C, S>, ticks: nat, i: nat, sample: S)
    requires Additive(advance) && 1 <= rate && i > 0
    requires s.accumulator + ticks * rate == next.accumulator + MASTER_CLOCK
      && next.channels == advance(s.channels, ticks)
    requires OnTime(advance, hear, rate, next, i - 1, sample)
    ensures OnTime(advance, hear, rate, s, i, sample)
  {
    InstantLater(s.accumulator, rate, i, ticks);
    hide Instant;
    var later := Instant(next.accumulator, rate, i - 1);
    assert advance(advance(s.channels, ticks), later) == advance(s.channels, ticks + later);
  }

  /** Samples on time after an iteration that took one are on time before it. */
  lemma SampledEarlier<C(!new), S>(
    advance: (C, nat) -> C, hear: C -> S, rate: nat, s: Played<C, S>, n: nat, t: Played<C, S>)
    requires Additive(advance) && 1 <= rate && s.accumulator < MASTER_CLOCK + rate
    requires s.accumulator + Stretch(s.accumulator, rate, n) * rate >= MASTER_CLOCK
    requires SampledOnTime(advance, hear, rate, Iteration(advance, hear, rate, s, n), t)
    ensures SampledOnTime(advance, hear, rate, s, t)
  {
    var ticks := Stretch(s.accumulator, rate, n);
    var next := Iteration(advance, hear, rate, s, n);
    FirstInstant(s.accumulator, rate);
    assert t.samples[..|s.samples|] == t.samples[..|next.samples|][..|s.samples|];
    assert t.samples[|s.samples|] == t.samples[..|next.samples|][|s.samples|];
    hide Instant, Stretch, UntilSample;
    forall i: nat | |s.samples| < i < |t.samples|
      ensures OnTime(advance, hear, rate, s, i - |s.samples|, t.samples[i])
    {
      assert OnTime(advance, hear, rate, next, i - |next.samples|, t.samples[i]);
      OnTimeEarlier(advance, hear, rate, s, next, ticks, i - |s.samples|, t.samples[i]);
    }
  }

  /** Each sample is what the channels sound like at its instant, at any rate. */
  lemma {:induction false} Instants<C(!new), S>(
    advance: (C, nat) -> C, hear: C -> S, rate: nat, s: Played<C, S>, n: nat)
    requires Additive(advance) && 1 <= rate && s.accumulator < MASTER_CLOCK + rate
    ensures SampledOnTime(advance, hear, rate, s, Play(advance, hear, rate, s, n))
    decreases n, s.accumulator
  {
    hide Play, Instant, UntilSample, OnTime;
    PlayUnfolds(advance, hear, rate, s, n);
    if n > 0 {
      var ticks := Stretch(s.accumulator, rate, n);
      var next := Iteration(advance, hear, rate, s, n);
      if s.accumulator + ticks * rate < MASTER_CLOCK {
        PlayUnfolds(advance, hear, rate, next, 0);
      } else {
        Instants(advance, hear, rate, next, n - ticks);
        SampledEarlier(advance, hear, rate, s, n, Play(advance, hear, rate, s, n));
      }
    }
  }

  lemma FirstInstant(accumulator: nat, rate: nat)
    requires 1 <= rate && accumulator < MASTER_CLOCK + rate
    ensures Instant(accumulator, rate, 0) == UntilSample(accumulator, rate)
  {
  }

  // ---------------------------------------------------------------- too high a rate

  lemma TopIteration<C, S>(advance: (C, nat) -> C, hear: C -> S, rate: nat, s: Played<C, S>, n: nat)
    requires MASTER_CLOCK < rate && s.accumulator < MASTER_CLOCK && n > 0
    ensures Stretch(s.accumulator, rate, n) == 1
    ensures var next := Iteration(advance, hear, rate, s, n);
      next.accumulator == s.accumulator + (rate - MASTER_CLOCK) && |next.samples| == |s.samples| + 1
  {
    TopRate(s.accumulator, rate, n);
    hide Stretch, UntilSample;
  }

  lemma Multiples(n: nat, d: nat)
    ensures n > 0 ==> n * d == (n - 1) * d + d
    ensures n > 1 ==> (n - 1) * d == (n - 2) * d + d && (n - 2) * d >= 0
  {
  }

  /** While every tick yields exactly one sample and the surplus stays below a sample. */
  lemma {:induction false} OnePerTick<C, S>(advance: (C, nat) -> C, hear: C -> S, rate: nat, s: Played<C, S>, n: nat)
    requires MASTER_CLOCK < rate && s.accumulator < MASTER_CLOCK
    requires n > 0 ==> s.accumulator + (n - 1) * (rate - MASTER_CLOCK) < MASTER_CLOCK
    ensures var t := Play(advance, hear, rate, s, n);
      t.accumulator == s.accumulator + n * (rate - MASTER_CLOCK) && |t.samples| == |s.samples| + n
    decreases n
  {
    hide Play, Iteration, Stretch;
    PlayUnfolds(advance, hear, rate, s, n);
    Multiples(n, rate - MASTER_CLOCK);
    if n > 0 {
      TopIteration(advance, hear, rate, s, n);
      var next := Iteration(advance, hear, rate, s, n);
      if n > 1 {
        OnePerTick(advance, hear, rate, next, n - 1);
      } else {
        PlayUnfolds(advance, hear, rate, next, 0);
      }
    }
  }

  lemma TopRate(accumulator: nat, rate: nat, n: nat)
    requires MASTER_CLOCK < rate && accumulator < MASTER_CLOCK && n > 0
    ensures Stretch(accumulator, rate, n) == 1
  {
    var u := UntilSample(accumulator, rate);
    if u >= 2 {
      FewerTicks(1, u, rate);
    }
  }

  /** The law that holds up to the master clock rate fails at every rate above it: owed samples are
      left behind when the ticks run out. */
  lemma ExactIffRate<C(!new), S>(advance: (C, nat) -> C, hear: C -> S, rate: nat, c: C)
    requires Additive(advance) && 1 <= rate
    ensures rate <= MASTER_CLOCK <==>
      forall n: nat, s: Played<C, S> :: s.accumulator < MASTER_CLOCK && s.channels == c ==>
        Exact(s, Play(advance, hear, rate, s, n), rate, n)
  {
    if rate <= MASTER_CLOCK {
      forall n: nat, s: Played<C, S> | s.accumulator < MASTER_CLOCK && s.channels == c
        ensures Exact(s, Play(advance, hear, rate, s, n), rate, n)
      {
        NoDrift(advance, hear, rate, s, n);
      }
    } else {
      var s: Played<C, S> := Played(0, c, []);
      var surplus := rate - MASTER_CLOCK;
      Ceiling(MASTER_CLOCK, surplus);
      var n: nat := CeilDiv(MASTER_CLOCK, surplus);
      Distribute(n - 1, 1, surplus);
      OnePerTick(advance, hear, rate, s, n);
      assert !Exact(s, Play(advance, hear, rate, s, n), rate, n);
    }
  }

  // ---------------------------------------------------------------- samples only accumulate

  /** What was sampled before does not affect what is sampled next. */
  lemma {:induction false} PlayAppends<C, S>(advance: (C, nat) -> C, hear: C -> S, rate: nat, s: Played<C, S>, n: nat)
    requires 1 <= rate && s.accumulator < MASTER_CLOCK + rate
    ensures var anew := Play(advance, hear, rate, s.(samples := []), n);
      Play(advance, hear, rate, s, n) == anew.(samples := s.samples + anew.samples)
    decreases n, s.accumulator
  {
    hide Play, Stretch, UntilSample;
    PlayUnfolds(advance, hear, rate, s, n);
    PlayUnfolds(advance, hear, rate, s.(samples := []), n);
    if n > 0 {
      var ticks := Stretch(s.accumulator, rate, n);
      var next := Iteration(advance, hear, rate, s, n);
      var clean := Iteration(advance, hear, rate, s.(samples := []), n);
      PlayAppends(advance, hear, rate, next, n - ticks);
      PlayAppends(advance, hear, rate, clean, n - ticks);
      assert next.samples == s.samples + clean.samples;
      assert next.(samples := []) == clean.(samples := []);
    }
  }
}
