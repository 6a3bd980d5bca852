/**
 * The preview component's state and its handlers, updated in place.
 * Every handler is specified by the function of module `Interpreter` that
 * gives the new state from the old one.
 */
module Preview {
  import opened Wrappers
  import opened Sprite
  import opened Sequencer
  import opened Interpreter

  class PreviewArea {
    var motion: Motion
    var history: seq<Snapshot>
    var playing: bool
    var pending: seq<Timer>

    function Current(): State
      reads this
    {
      State(motion, history, playing, pending)
    }

    constructor ()
      ensures Current() == Start0
    {
      motion := Initial;
      history := [];
      playing := false;
      pending := [];
    }

    /** `startAnimation(eventType)`: one snapshot for the whole trigger,
        then every matching root's chain in list order. */
    method StartAnimation(data: seq<Block>, eventType: string, o: Oracle<Draw>)
      modifies this
      ensures Current() == Start(old(Current()), data, eventType, o)
    {
      var roots := Matching(data, eventType);
      if roots != [] {
        history := history + [SnapshotOf(motion)];
        RunRoots(Step, roots, o);
      }
    }

    /** `actions.forEach(executeAction)`: the chains one after another. */
    method RunRoots(f: Updater<Draw>, roots: seq<Block>, o: Oracle<Draw>)
      modifies this
      ensures var w := WalkRoots(f, old(motion), roots, |roots|, o, 0);
        motion == w.motion && pending == old(pending) + w.timers
      ensures history == old(history)
      ensures playing == (old(playing) && roots == [])
    {
      ghost var m0, p0 := motion, pending;
      var i, t := 0, 0;
      while i < |roots|
        invariant 0 <= i <= |roots|
        invariant var w := WalkRoots(f, m0, roots, i, o, 0);
          motion == w.motion && pending == p0 + w.timers && t == w.clock
        invariant history == old(history)
        invariant playing == (old(playing) && i == 0)
      {
        t := ExecuteAction(f, roots[i], o, t);
        i := i + 1;
      }
    }

    /** `executeAction(block)`: raise `playing`, apply the block's updater,
        schedule its timer, then continue with `next.block`, or lower
        `playing` when there is none. */
    method ExecuteAction(f: Updater<Draw>, block: Block, o: Oracle<Draw>, t0: nat) returns (t: nat)
      modifies this
      ensures var w := Walk(f, old(motion), Some(block), o, t0);
        motion == w.motion && pending == old(pending) + w.timers && t == w.clock
      ensures history == old(history) && !playing
      decreases block
    {
      playing := true;
      var s := f(motion, block.kind, o(t0));
      motion := s.motion;
      pending := pending + TimersOf(s);
      if block.next.Some? {
        t := ExecuteAction(f, block.next.value, o, t0 + 1);
      } else {
        playing := false;
        t := t0 + 1;
      }
    }

    /** `undoAction`: no-op on an empty history, otherwise pop and restore. */
    method UndoAction()
      modifies this
      ensures Current() == Undo(old(Current()))
    {
      if |history| > 0 {
        var last := history[|history| - 1];
        motion := Restore(last);
        history := history[..|history| - 1];
      }
    }

    /** `reset`: defaults, empty history, not playing; timers keep running. */
    method Reset()
      modifies this
      ensures Current() == Interpreter.Reset(old(Current()))
    {
      motion := Initial;
      history := [];
      playing := false;
    }

    /** The callback of pending timer `i` runs against the current record. */
    method FireTimer(i: nat)
      requires i < |pending|
      modifies this
      ensures Current() == FireAt(old(Current()), i)
    {
      motion := Fire(motion, pending[i].effect);
      pending := pending[..i] + pending[i + 1..];
    }
  }
}
