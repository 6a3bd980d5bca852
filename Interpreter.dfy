/**
 * The interpreter of the preview as functions over its whole state:
 * selecting the roots that match an event and running them (through the
 * walk of module `Sequencer`), undo, reset and the firing of a pending timer. The class in
 * module `Preview` performs each of these in place and is specified by them.
 */
module Interpreter {
  import opened Wrappers
  import opened Sprite
  import opened Sequencer

  /** A history entry: the record without its animation. */
  datatype Snapshot = Snapshot(position: Position, rotation: real, size: real, text: Text)

  /** The preview's state: motion record, undo history (last entry on top),
      the `playing` flag and the timers that have not fired yet. */
  datatype State = State(motion: Motion, history: seq<Snapshot>, playing: bool, pending: seq<Timer>)

  const Start0 := State(Initial, [], false, [])

  /** The history entry `startAnimation` pushes: everything but the animation. */
  function SnapshotOf(m: Motion): (r: Snapshot) {
    Snapshot(m.position, m.rotation, m.size, m.text)
  }

  /** The record undo writes back: it has no animation key at all. */
  function Restore(s: Snapshot): (m: Motion)
    ensures SnapshotOf(m) == s
    ensures m.animation == None
  {
    Motion(s.position, s.rotation, None, s.text, s.size)
  }

  /** Restoring a snapshot gives back the record except for its animation. */
  lemma RestoreSnapshot(m: Motion)
    ensures Restore(SnapshotOf(m)) == m.(animation := None)
  {
  }

  /** The number of timed blocks among the first `n` steps. */
  function CountTimed(ks: seq<Kind>, n: nat): (r: nat)
    requires n <= |ks|
    decreases n
  {
    if n == 0 then 0 else CountTimed(ks, n - 1) + (if Timed(ks[n - 1]) then 1 else 0)
  }

  /** The timers the first `n` steps schedule, read off their kinds alone:
      one per timed block, in step order. */
  function Scheduled(ks: seq<Kind>, n: nat): (r: seq<Timer>)
    requires n <= |ks|
    ensures |r| == CountTimed(ks, n)
    decreases n
  {
    if n == 0 then []
    else
      var d := Deferred(ks[n - 1]);
      Scheduled(ks, n - 1) + (if d.Some? then [d.value] else [])
  }

  /** Every glide and every `_for_seconds` bubble schedules exactly one timer,
      in step order; no other block schedules any. Which timers a run
      schedules depends neither on the record nor on the draws. */
  lemma {:induction false} ApplyTimers(m: Motion, ks: seq<Kind>, n: nat, o: Oracle<Draw>, t: nat)
    requires n <= |ks|
    ensures Apply(Step, m, ks, n, o, t).timers == Scheduled(ks, n)
    ensures |Apply(Step, m, ks, n, o, t).timers| == CountTimed(ks, n)
    decreases n
  {
    if n > 0 {
      var before := Apply(Step, m, ks, n - 1, o, t);
      ApplyTimers(m, ks, n - 1, o, t);
      StepTimers(before.motion, ks[n - 1], o(before.clock));
    }
  }

  /** Steps whose block types all write inside `fs` leave every other part
      of the record as it was. */
  lemma {:induction false} ApplyFrame(m: Motion, ks: seq<Kind>, n: nat, o: Oracle<Draw>, t: nat, fs: set<Field>)
    requires n <= |ks|
    requires forall i :: 0 <= i < n ==> Footprint(ks[i]) <= fs
    ensures Agree(m, Apply(Step, m, ks, n, o, t).motion, fs)
    decreases n
  {
    if n > 0 {
      var before := Apply(Step, m, ks, n - 1, o, t);
      ApplyFrame(m, ks, n - 1, o, t, fs);
      StepFrame(before.motion, ks[n - 1], o(before.clock));
    }
  }

  /** The roots whose type equals the event, in list order. */
  function Matching(data: seq<Block>, event: string): (r: seq<Block>)
    ensures forall b :: b in r <==> b in data && Tag(b.kind) == event
    ensures |r| <= |data|
    decreases |data|
  {
    if data == [] then []
    else if Tag(data[0].kind) == event then [data[0]] + Matching(data[1..], event)
    else Matching(data[1..], event)
  }

  /** A single root is selected exactly when its type is the event. */
  lemma MatchingOne(b: Block, event: string)
    ensures Matching([b], event) == if Tag(b.kind) == event then [b] else []
  {
  }

  /** Selection distributes over concatenation: it keeps the roots in list
      order, duplicates included, like `data.filter`. */
  lemma {:induction false} MatchingAppend(a: seq<Block>, b: seq<Block>, event: string)
    ensures Matching(a + b, event) == Matching(a, event) + Matching(b, event)
    decreases |a|
  {
    if a == [] {
      assert [] + b == b;
    } else {
      assert (a + b)[0] == a[0];
      assert (a + b)[1..] == a[1..] + b;
      MatchingAppend(a[1..], b, event);
    }
  }

  /** `startAnimation(event)` on the roots `data`. */
  function Start(st: State, data: seq<Block>, event: string, o: Oracle<Draw>): (r: State)
    ensures Matching(data, event) == [] ==> r == st
    ensures Matching(data, event) != [] ==>
      && r.history == st.history + [SnapshotOf(st.motion)]
      && !r.playing
      && |r.pending| >= |st.pending| && r.pending[..|st.pending|] == st.pending
  {
    var roots := Matching(data, event);
    if roots == [] then st
    else
      var w := WalkRoots(Step, st.motion, roots, |roots|, o, 0);
      State(w.motion, st.history + [SnapshotOf(st.motion)], false, st.pending + w.timers)
  }

  /** A trigger that runs something applies every block of the matching
      chains exactly once, chain after chain in list order and each chain in
      `next.block` order, and schedules one timer per timed block, in order. */
  lemma StartInOrder(st: State, data: seq<Block>, event: string, o: Oracle<Draw>)
    requires Matching(data, event) != []
    ensures var roots := Matching(data, event);
      var ks := Flatten(roots, |roots|);
      var a := Apply(Step, st.motion, ks, |ks|, o, 0);
      var r := Start(st, data, event, o);
      && r.motion == a.motion
      && r.pending == st.pending + a.timers
      && r.pending == st.pending + Scheduled(ks, |ks|)
      && |r.pending| == |st.pending| + CountTimed(ks, |ks|)
  {
    var roots := Matching(data, event);
    var ks := Flatten(roots, |roots|);
    WalkRootsInOrder(Step, st.motion, roots, |roots|, o, 0);
    ApplyTimers(st.motion, ks, |ks|, o, 0);
  }

  /** `undoAction`: pop the top entry and write it back as the record. */
  function Undo(st: State): (r: State)
    ensures st.history == [] ==> r == st
    ensures st.history != [] ==>
      && r.history + [st.history[|st.history| - 1]] == st.history
      && SnapshotOf(r.motion) == st.history[|st.history| - 1]
      && r.motion.animation == None
      && r.playing == st.playing && r.pending == st.pending
  {
    if st.history == [] then st
    else
      var top := st.history[|st.history| - 1];
      st.(motion := Restore(top), history := st.history[..|st.history| - 1])
  }

  /** `reset`: default record, empty history, not playing. Pending timers stay. */
  function Reset(st: State): (r: State)
    ensures r.motion == Initial && r.history == [] && !r.playing
    ensures r.pending == st.pending
  {
    State(Initial, [], false, st.pending)
  }

  /** A pending timer's callback runs: its effect hits the current record. */
  function FireAt(st: State, i: nat): (r: State)
    requires i < |st.pending|
    ensures Agree(st.motion, r.motion, EffectFootprint(st.pending[i].effect))
    ensures st.pending[i].effect == ClearAnimation ==> r.motion.animation == None
    ensures st.pending[i].effect == ClearText ==> r.motion.text == NoText
    ensures r.history == st.history && r.playing == st.playing
    ensures multiset(r.pending) + multiset{st.pending[i]} == multiset(st.pending)
  {
    assert st.pending == st.pending[..i] + [st.pending[i]] + st.pending[i + 1..];
    st.(motion := Fire(st.motion, st.pending[i].effect),
        pending := st.pending[..i] + st.pending[i + 1..])
  }

  /** Undo straight after a trigger that ran something gives back the
      pre-trigger position, rotation, size and text and the earlier history. */
  lemma UndoAfterStart(st: State, data: seq<Block>, event: string, o: Oracle<Draw>)
    requires Matching(data, event) != []
    ensures var u := Undo(Start(st, data, event, o));
      && u.history == st.history
      && SnapshotOf(u.motion) == SnapshotOf(st.motion)
      && u.motion == st.motion.(animation := None)
  {
  }

  /** Reset cancels no timer, but a timer that fires after it only writes
      a value the reset record already has. */
  lemma FireAfterReset(st: State, i: nat)
    requires i < |st.pending|
    ensures FireAt(Reset(st), i).motion == Initial
  {
  }

  /** Reset forgets everything but the pending timers. */
  lemma ResetForgets(a: State, b: State)
    requires a.pending == b.pending
    ensures Reset(a) == Reset(b)
  {
  }

  /** The user commands that touch the history. */
  datatype Command = Trigger(data: seq<Block>, event: string, oracle: Oracle<Draw>) | UndoCmd | ResetCmd

  function Perform(st: State, c: Command): (r: State) {
    match c
    case Trigger(data, event, o) => Start(st, data, event, o)
    case UndoCmd => Undo(st)
    case ResetCmd => Reset(st)
  }

  function Exec(st: State, cs: seq<Command>): (r: State)
    decreases |cs|
  {
    if cs == [] then st else Exec(Perform(st, cs[0]), cs[1..])
  }

  /** Triggers that run something minus effective undos, since the last reset. */
  function Balance(n: nat, cs: seq<Command>): (r: nat)
    decreases |cs|
  {
    if cs == [] then n
    else
      var n' := match cs[0]
        case Trigger(data, event, _) => if Matching(data, event) != [] then n + 1 else n
        case UndoCmd => if n > 0 then n - 1 else 0
        case ResetCmd => 0;
      Balance(n', cs[1..])
  }

  /** The history holds one entry per run trigger since the last reset,
      less the undos that popped one. */
  lemma {:induction false} HistoryCount(st: State, cs: seq<Command>)
    ensures |Exec(st, cs).history| == Balance(|st.history|, cs)
    decreases |cs|
  {
    if cs != [] {
      HistoryCount(Perform(st, cs[0]), cs[1..]);
    }
  }

  /** `set_x(10)` then `change_y_by(5)` from the origin ends at (10, 5). */
  lemma SetXThenChangeY(o: Oracle<Draw>)
    ensures Walk(Step, Initial, Some(Block(SetX(10.0), Some(Block(ChangeYBy(5.0), None)))), o, 0).motion.position
            == Position(10.0, 5.0)
  {
  }

  /** A flag-clicked script `go_to(50, 80)` ends at (50, 80) with one history entry. */
  lemma GoToScenario(o: Oracle<Draw>)
    ensures var data := [Block(Other("when_flag_clicked"), Some(Block(GoTo(50.0, 80.0), None)))];
      var r := Start(Start0, data, "when_flag_clicked", o);
      r.motion.position == Position(50.0, 80.0) && |r.history| == 1 && !r.playing
  {
  }
}
