/** The batch scheduler: rounds as long as the shortest announced horizon, each giving every active
    component the same batch, in order. */
module Scheduler {
  import opened Common
  import opened Clocked

  /** A component acts on a state shared with the others. */
  datatype Component<!S> = Component(active: S -> bool, batch: S -> nat, tick: (S, nat) -> S)

  function NextBatch<S>(components: seq<Component<S>>, s: S): (ticks: nat)
    ensures ticks <= UNBOUNDED
    ensures forall i :: 0 <= i < |components| ==> ticks <= components[i].batch(s)
    ensures ticks == UNBOUNDED || exists i :: 0 <= i < |components| && ticks == components[i].batch(s)
  {
    if components == [] then UNBOUNDED
    else Min(NextBatch(components[..|components| - 1], s), components[|components| - 1].batch(s))
  }

  /** Every component in turn, later ones seeing what earlier ones did. */
  function Round<S>(components: seq<Component<S>>, s: S, batch: nat): S {
    if components == [] then s
    else
      var before := Round(components[..|components| - 1], s, batch);
      var last := components[|components| - 1];
      if last.active(before) then last.tick(before, batch) else before
  }

  /** Every component always announces at least one tick. */
  ghost predicate Progressive<S(!new)>(components: seq<Component<S>>) {
    forall s: S, i :: 0 <= i < |components| ==> components[i].batch(s) >= 1
  }

  lemma BatchPositive<S(!new)>(components: seq<Component<S>>, s: S)
    requires Progressive(components)
    ensures NextBatch(components, s) >= 1
  {
  }

  ghost function Schedule<S(!new)>(components: seq<Component<S>>, s: S, ticks: nat): S
    requires Progressive(components)
    decreases ticks
  {
    if ticks == 0 then s
    else
      BatchPositive(components, s);
      var batch := Min(NextBatch(components, s), ticks);
      Schedule(components, Round(components, s, batch), ticks - batch)
  }

  method GetNextTickBatch<S>(components: seq<Component<S>>, s: S) returns (ticks: nat)
    ensures ticks == NextBatch(components, s)
  {
    ticks := UNBOUNDED;
    for i := 0 to |components|
      invariant ticks == NextBatch(components[..i], s)
    {
      assert components[..i + 1][..i] == components[..i];
      ticks := Min(ticks, components[i].batch(s));
    }
    assert components[..|components|] == components;
  }

  /** The scheduling loop; it ends because no horizon is ever zero. */
  method BatchSchedule<S(!new)>(components: seq<Component<S>>, s: S, ticks: nat) returns (t: S)
    requires Progressive(components)
    ensures t == Schedule(components, s, ticks)
  {
    t := s;
    var remaining := ticks;
    while remaining > 0
      invariant 0 <= remaining <= ticks
      invariant Schedule(components, t, remaining) == Schedule(components, s, ticks)
    {
      var next := GetNextTickBatch(components, t);
      BatchPositive(components, t);
      var batch := Min(next, remaining);
      ghost var start := t;
      for i := 0 to |components|
        invariant t == Round(components[..i], start, batch)
      {
        assert components[..i + 1][..i] == components[..i];
        if components[i].active(t) {
          t := components[i].tick(t, batch);
        }
      }
      assert components[..|components|] == components;
      remaining := remaining - batch;
    }
  }

  // ---------------------------------------------------------------- what each component receives

  /** A clock that component `i` alone moves, by exactly the ticks it is given. */
  ghost predicate ClockOf<S(!new)>(components: seq<Component<S>>, i: nat, clock: S -> int)
    requires i < |components|
  {
    && (forall s: S :: components[i].active(s))
    && (forall s: S, k: nat :: clock(components[i].tick(s, k)) == clock(s) + k)
    && (forall s: S, k: nat, j :: 0 <= j < |components| && j != i ==> clock(components[j].tick(s, k)) == clock(s))
  }

  lemma {:induction false} RoundMovesClock<S(!new)>(
    components: seq<Component<S>>, i: nat, clock: S -> int, s: S, batch: nat, upTo: nat)
    requires i < |components| && ClockOf(components, i, clock) && upTo <= |components|
    ensures clock(Round(components[..upTo], s, batch)) == clock(s) + if i < upTo then batch else 0
    decreases upTo
  {
    if upTo > 0 {
      assert components[..upTo][..upTo - 1] == components[..upTo - 1];
      RoundMovesClock(components, i, clock, s, batch, upTo - 1);
    }
  }

  /** However the rounds fall, a component that is always active receives exactly the ticks asked
      for. */
  lemma {:induction false} ExactlyTheTicks<S(!new)>(
    components: seq<Component<S>>, i: nat, clock: S -> int, s: S, ticks: nat)
    requires Progressive(components) && i < |components| && ClockOf(components, i, clock)
    ensures clock(Schedule(components, s, ticks)) == clock(s) + ticks
    decreases ticks
  {
    if ticks > 0 {
      BatchPositive(components, s);
      var batch := Min(NextBatch(components, s), ticks);
      RoundMovesClock(components, i, clock, s, batch, |components|);
      assert components[..|components|] == components;
      ExactlyTheTicks(components, i, clock, Round(components, s, batch), ticks - batch);
    }
  }

  // ---------------------------------------------------------------- lockstep

  /** One component never announces more than a single tick. */
  ghost predicate Unit<S(!new)>(components: seq<Component<S>>, i: nat)
    requires i < |components|
  {
    forall s: S :: components[i].batch(s) == 1
  }

  ghost function UnitRound<S>(components: seq<Component<S>>): S -> S {
    s => Round(components, s, 1)
  }

  /** With such a component every round is a single tick. */
  lemma {:induction false} UnitRounds<S(!new)>(components: seq<Component<S>>, i: nat, s: S, ticks: nat)
    requires Progressive(components) && i < |components| && Unit(components, i)
    ensures Schedule(components, s, ticks) == Times(UnitRound(components), s, ticks)
    decreases ticks
  {
    hide Round, NextBatch, Progressive;
    if ticks > 0 {
      BatchPositive(components, s);
      assert components[i].batch(s) == 1;
      UnitRounds(components, i, Round(components, s, 1), ticks - 1);
    }
  }

  /** So how a run is split into calls makes no difference at all. */
  lemma ScheduleSplit<S(!new)>(components: seq<Component<S>>, i: nat, s: S, a: nat, b: nat)
    requires Progressive(components) && i < |components| && Unit(components, i)
    ensures Schedule(components, s, a + b) == Schedule(components, Schedule(components, s, a), b)
  {
    UnitRounds(components, i, s, a + b);
    UnitRounds(components, i, s, a);
    UnitRounds(components, i, Schedule(components, s, a), b);
    hide Schedule, Times, UnitRound;
    TimesSplit(UnitRound(components), s, a, b);
  }
}
