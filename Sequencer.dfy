/**
 * The chain walk of `executeAction` and the `forEach` over the matching
 * roots. Both are written for any updater `f`: the order in which blocks
 * are applied does not depend on what each block does, and the proofs of
 * that order never look inside an updater. The preview's own updater is
 * `Sprite.Step`.
 */
module Sequencer {
  import opened Wrappers
  import opened Sprite

  /** The environment's values (of type `D`) for the step with a given index. */
  type Oracle<D> = nat -> D

  /** What one block does to the motion record, given the step's draw. */
  type Updater<!D> = (Motion, Kind, D) -> Outcome

  /** The result of a run: final record, timers scheduled in order, and the
      index of the next environment draw. */
  datatype Run = Run(motion: Motion, timers: seq<Timer>, clock: nat)

  function TimersOf(s: Outcome): (r: seq<Timer>) {
    if s.timer.Some? then [s.timer.value] else []
  }

  /** The kinds of a chain, in `next.block` order. */
  function Steps(c: Option<Block>): (r: seq<Kind>)
    ensures c.None? <==> r == []
    ensures c.Some? ==> r[0] == c.value.kind
    decreases c
  {
    match c
    case None => []
    case Some(b) => [b.kind] + Steps(b.next)
  }

  /** The kinds of the first `n` chains, one chain after another. */
  function Flatten(roots: seq<Block>, n: nat): (r: seq<Kind>)
    requires n <= |roots|
    decreases n
  {
    if n == 0 then [] else Flatten(roots, n - 1) + Steps(Some(roots[n - 1]))
  }

  /** Reference semantics of a list of steps: the first `n` kinds of `ks`,
      applied one after another, step `i` with draw `t + i`. */
  function Apply<D>(f: Updater<D>, m: Motion, ks: seq<Kind>, n: nat, o: Oracle<D>, t: nat): (r: Run)
    requires n <= |ks|
    decreases n
  {
    if n == 0 then Run(m, [], t)
    else
      var before := Apply(f, m, ks, n - 1, o, t);
      var s := f(before.motion, ks[n - 1], o(before.clock));
      Run(s.motion, before.timers + TimersOf(s), before.clock + 1)
  }

  /** `executeAction`: dispatch on the head block, then continue with `next.block`. */
  function Walk<D>(f: Updater<D>, m: Motion, c: Option<Block>, o: Oracle<D>, t: nat): (r: Run)
    decreases c
  {
    match c
    case None => Run(m, [], t)
    case Some(b) =>
      var s := f(m, b.kind, o(t));
      var rest := Walk(f, s.motion, b.next, o, t + 1);
      Run(rest.motion, TimersOf(s) + rest.timers, rest.clock)
  }

  /** `actions.forEach(executeAction)` over the first `n` roots, each chain
      to completion, in list order. */
  function WalkRoots<D>(f: Updater<D>, m: Motion, roots: seq<Block>, n: nat, o: Oracle<D>, t: nat): (r: Run)
    requires n <= |roots|
    decreases n
  {
    if n == 0 then Run(m, [], t)
    else
      var before := WalkRoots(f, m, roots, n - 1, o, t);
      var last := Walk(f, before.motion, Some(roots[n - 1]), o, before.clock);
      Run(last.motion, before.timers + last.timers, last.clock)
  }

  /** Every block of a chain takes exactly one draw. */
  lemma {:induction false} WalkClock<D>(f: Updater<D>, m: Motion, c: Option<Block>, o: Oracle<D>, t: nat)
    ensures Walk(f, m, c, o, t).clock == t + |Steps(c)|
    decreases c
  {
    match c
    case None =>
    case Some(b) =>
      WalkClock(f, f(m, b.kind, o(t)).motion, b.next, o, t + 1);
  }

  /** The first `n` steps of a list do not depend on what follows them. */
  lemma {:induction false} ApplyPrefix<D>(f: Updater<D>, m: Motion, a: seq<Kind>, b: seq<Kind>, n: nat, o: Oracle<D>, t: nat)
    requires n <= |a|
    ensures Apply(f, m, a + b, n, o, t) == Apply(f, m, a, n, o, t)
    decreases n
  {
    if n > 0 {
      ApplyPrefix(f, m, a, b, n - 1, o, t);
      assert (a + b)[n - 1] == a[n - 1];
    }
  }

  /** Applying a concatenation is applying the first part, then the second. */
  lemma {:induction false} ApplyAppend<D>(f: Updater<D>, m: Motion, a: seq<Kind>, b: seq<Kind>, j: nat, o: Oracle<D>, t: nat)
    requires j <= |b|
    ensures var first := Apply(f, m, a, |a|, o, t);
      var second := Apply(f, first.motion, b, j, o, first.clock);
      Apply(f, m, a + b, |a| + j, o, t) == Run(second.motion, first.timers + second.timers, second.clock)
    decreases j
  {
    var first := Apply(f, m, a, |a|, o, t);
    if j == 0 {
      ApplyPrefix(f, m, a, b, |a|, o, t);
    } else {
      ApplyAppend(f, m, a, b, j - 1, o, t);
      var mid := Apply(f, first.motion, b, j - 1, o, first.clock);
      var s := f(mid.motion, b[j - 1], o(mid.clock));
      assert (a + b)[|a| + j - 1] == b[j - 1];
      assert (first.timers + mid.timers) + TimersOf(s) == first.timers + (mid.timers + TimersOf(s));
    }
  }

  /** `ApplyAppend` for whole lists, stated over the two partial runs. */
  lemma ApplyThen<D>(f: Updater<D>, m: Motion, a: seq<Kind>, b: seq<Kind>, first: Run, second: Run, o: Oracle<D>, t: nat)
    requires first == Apply(f, m, a, |a|, o, t)
    requires second == Apply(f, first.motion, b, |b|, o, first.clock)
    ensures Apply(f, m, a + b, |a + b|, o, t) == Run(second.motion, first.timers + second.timers, second.clock)
  {
    ApplyAppend(f, m, a, b, |b|, o, t);
  }

  /** Walking a chain applies its blocks strictly in `next.block` order. */
  lemma {:induction false} WalkInOrder<D>(f: Updater<D>, m: Motion, c: Option<Block>, o: Oracle<D>, t: nat)
    ensures var ks := Steps(c); Walk(f, m, c, o, t) == Apply(f, m, ks, |ks|, o, t)
    decreases c
  {
    match c
    case None =>
    case Some(b) =>
      var s := f(m, b.kind, o(t));
      var rest := Steps(b.next);
      WalkInOrder(f, s.motion, b.next, o, t + 1);
      ApplyAppend(f, m, [b.kind], rest, |rest|, o, t);
      assert Apply(f, m, [b.kind], 1, o, t) == Run(s.motion, TimersOf(s), t + 1) by {
        assert [] + TimersOf(s) == TimersOf(s);
      }
  }

  /** Running several roots applies all their blocks, chain after chain. */
  lemma {:induction false} WalkRootsInOrder<D>(f: Updater<D>, m: Motion, roots: seq<Block>, n: nat, o: Oracle<D>, t: nat)
    requires n <= |roots|
    ensures var ks := Flatten(roots, n); WalkRoots(f, m, roots, n, o, t) == Apply(f, m, ks, |ks|, o, t)
    decreases n
  {
    if n > 0 {
      var before := WalkRoots(f, m, roots, n - 1, o, t);
      var last := Walk(f, before.motion, Some(roots[n - 1]), o, before.clock);
      var prefix, ks := Flatten(roots, n - 1), Steps(Some(roots[n - 1]));
      assert Flatten(roots, n) == prefix + ks;
      assert WalkRoots(f, m, roots, n, o, t) == Run(last.motion, before.timers + last.timers, last.clock);
      WalkRootsInOrder(f, m, roots, n - 1, o, t);
      WalkInOrder(f, before.motion, Some(roots[n - 1]), o, before.clock);
      ApplyThen(f, m, prefix, ks, before, last, o, t);
    }
  }
}
