/** The loop every sound channel shares: count a timer down, and each time it reaches zero fire
    and reload it. A timer of zero, as at power-on, fires before anything is consumed. */
module Clocked {
  import opened Common

  datatype Clocked<C> = Clocked(timer: nat, core: C)

  /** The batched loop, with a reload that does not change while it runs. */
  function Run<C>(fire: C -> C, reload: nat, s: Clocked<C>, n: nat): Clocked<C>
    requires reload >= 1
    decreases n, if s.timer == 0 then 1 else 0
  {
    if n == 0 then s
    else
      var consumed := Min(n, s.timer);
      var left := s.timer - consumed;
      Run(fire, reload, if left == 0 then Clocked(reload, fire(s.core)) else Clocked(left, s.core), n - consumed)
  }

  /** One tick at a time. */
  function Once<C>(fire: C -> C, reload: nat, s: Clocked<C>): Clocked<C>
    requires reload >= 1
  {
    var ready := if s.timer == 0 then Clocked(reload, fire(s.core)) else s;
    if ready.timer == 1 then Clocked(reload, fire(ready.core)) else Clocked(ready.timer - 1, ready.core)
  }

  function Times<S>(f: S -> S, s: S, n: nat): S {
    if n == 0 then s else Times(f, f(s), n - 1)
  }

  lemma {:induction false} TimesSplit<S>(f: S -> S, s: S, a: nat, b: nat)
    ensures Times(f, s, a + b) == Times(f, Times(f, s, a), b)
    decreases a
  {
    if a > 0 {
      TimesSplit(f, f(s), a - 1, b);
    }
  }

  lemma TimesLast<S>(f: S -> S, s: S, n: nat)
    requires n > 0
    ensures Times(f, s, n) == f(Times(f, s, n - 1))
  {
    TimesSplit(f, s, n - 1, 1);
    assert Times(f, Times(f, s, n - 1), 1) == f(Times(f, s, n - 1));
  }

  // ---------------------------------------------------------------- splitting

  /** How the ticks are split makes no difference. */
  lemma {:induction false} RunSplit<C>(fire: C -> C, reload: nat, s: Clocked<C>, a: nat, b: nat)
    requires reload >= 1
    ensures Run(fire, reload, s, a + b) == Run(fire, reload, Run(fire, reload, s, a), b)
    decreases a, if s.timer == 0 then 1 else 0
  {
    if a > 0 && s.timer <= a {
      RunSplit(fire, reload, Clocked(reload, fire(s.core)), a - s.timer, b);
    } else if a > 0 && b > 0 && s.timer <= a + b {
      assert Run(fire, reload, s, a) == Clocked(s.timer - a, s.core);
    }
  }

  lemma RunOne<C>(fire: C -> C, reload: nat, s: Clocked<C>)
    requires reload >= 1
    ensures Run(fire, reload, s, 1) == Once(fire, reload, s)
  {
    assert s.timer == 0 ==>
      Run(fire, reload, s, 1) == Run(fire, reload, Clocked(reload, fire(s.core)), 1);
  }

  /** The batched loop is its ticks one by one. */
  lemma {:induction false} RunIsOnce<C>(fire: C -> C, reload: nat, s: Clocked<C>, n: nat)
    requires reload >= 1
    ensures Run(fire, reload, s, n) == Times(t => Once(fire, reload, t), s, n)
    decreases n
  {
    if n > 0 {
      RunOne(fire, reload, s);
      RunSplit(fire, reload, s, 1, n - 1);
      RunIsOnce(fire, reload, Once(fire, reload, s), n - 1);
    }
  }

  function Max(a: nat, b: nat): nat {
    if a < b then b else a
  }

  /** What firing keeps, running keeps; and the timer never exceeds its start and its reload. */
  lemma {:induction false} RunKeeps<C(!new)>(fire: C -> C, reload: nat, s: Clocked<C>, n: nat, keeps: C -> bool)
    requires reload >= 1 && keeps(s.core)
    requires forall c: C :: keeps(c) ==> keeps(fire(c))
    ensures var t := Run(fire, reload, s, n);
      keeps(t.core) && t.timer <= Max(s.timer, reload) && (n > 0 ==> t.timer >= 1)
    decreases n, if s.timer == 0 then 1 else 0
  {
    if n > 0 && s.timer <= n {
      RunKeeps(fire, reload, Clocked(reload, fire(s.core)), n - s.timer, keeps);
    }
  }

  // ---------------------------------------------------------------- closed form

  /** How often a timer fires in `n` ticks. */
  function Fires(timer: nat, reload: nat, n: nat): nat
    requires reload >= 1
  {
    if n < timer then 0 else 1 + (n - timer) / reload
  }

  lemma FiresLater(timer: nat, reload: nat, n: nat)
    requires 1 <= reload && timer <= n
    ensures Fires(timer, reload, n) == 1 + Fires(reload, reload, n - timer)
  {
    var m := n - timer;
    if m >= reload {
      var q, r := (m - reload) / reload, (m - reload) % reload;
      assert m - reload == q * reload + r;
      assert (q + 1) * reload == q * reload + reload;
      Quotient(m, reload, q + 1, r);
    } else {
      Quotient(m, reload, 0, m);
    }
  }

  /** Where a running timer is after any number of ticks, without running it. */
  lemma {:induction false} RunClosedForm<C>(fire: C -> C, reload: nat, s: Clocked<C>, n: nat)
    requires reload >= 1 && s.timer >= 1
    ensures var fires := Fires(s.timer, reload, n);
      && s.timer + fires * reload > n
      && Run(fire, reload, s, n) == Clocked(s.timer + fires * reload - n, Times(fire, s.core, fires))
    decreases n
  {
    if s.timer <= n {
      var next := Clocked(reload, fire(s.core));
      FiresLater(s.timer, reload, n);
      var later := Fires(reload, reload, n - s.timer);
      Distribute(1, later, reload);
      assert Run(fire, reload, s, n) == Run(fire, reload, next, n - s.timer);
      hide Fires, Run;
      RunClosedForm(fire, reload, next, n - s.timer);
    }
  }
}
