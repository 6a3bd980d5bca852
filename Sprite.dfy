/**
 * The sprite's motion record and the per-block updaters of the preview
 * (src/components/PreviewArea.js): every `setSpriteMotion(prev => ...)` of
 * `executeAction` becomes one case of the pure function `Step`, and every
 * `setTimeout` that clears a field becomes a deferred `Timer` that `Step`
 * returns and `Fire` applies later.
 */
module Sprite {
  import opened Wrappers

  datatype Position = Position(x: real, y: real)

  /** The text bubble. `think` is the record's boolean `animation` key:
      true draws a thought cloud, false a speech bubble. */
  datatype Text = Text(message: string, duration: real, think: bool)

  /** The only animation the preview sets: `{type: "glide", duration}`. */
  datatype Animation = GlideAnimation(duration: real)

  datatype Motion = Motion(
    position: Position,
    rotation: real,
    animation: Option<Animation>,
    text: Text,
    size: real)

  const NoText := Text("", 0.0, false)
  const Origin := Position(0.0, 0.0)
  /** The initial (and reset) motion record. */
  const Initial := Motion(Origin, 0.0, None, NoText, 0.0)
  /** Duration given to the bubble of a bare `say` / `think`. */
  const BareTextDuration: real := 100.0
  /** Random targets are `Math.random() * 400` on each axis. */
  const RandomRange: real := 400.0
  const MousePointer := "MOUSE_POINTER"
  const MillisPerSecond: real := 1000.0

  /** The bubble is shown exactly when its duration is positive. */
  predicate Visible(t: Text) {
    t.duration > 0.0
  }

  /** The block types `executeAction` dispatches on. */
  predicate Recognised(tag: string) {
    tag in {"go_to", "go_to_random", "clockwise", "anticlockwise", "glide",
            "glide_random", "point_in_direction", "point_towards", "move",
            "change_x_by", "set_x", "change_y_by", "set_y", "say_for_seconds",
            "say", "think_for_seconds", "think", "change_size"}
  }

  /** Any other block type, event hat blocks included; they fall to `default`. */
  type UnknownTag = s: string | !Recognised(s) witness "when_flag_clicked"

  /** A block's type together with the fields that type reads. */
  datatype Kind =
    | GoTo(xPosition: real, yPosition: real)
    | GoToRandom
    | Clockwise(angle: real)
    | Anticlockwise(angle: real)
    | Glide(seconds: real, xPosition: real, yPosition: real)
    | GlideRandom(seconds: real)
    | PointInDirection(direction: real)
    | PointTowards(target: string)
    | Move(xPosition: real)
    | ChangeXBy(deltaX: real)
    | SetX(xPosition: real)
    | ChangeYBy(deltaY: real)
    | SetY(yPosition: real)
    | SayForSeconds(message: string, seconds: real)
    | Say(message: string)
    | ThinkForSeconds(message: string, seconds: real)
    | Think(message: string)
    | ChangeSize(size: real)
    | Other(tag: UnknownTag)

  /** An authored block; `next` is the block in the `next.block` slot. */
  datatype Block = Block(kind: Kind, next: Option<Block>)

  /** The block's `type` string. */
  function Tag(k: Kind): (s: string)
    ensures Recognised(s) <==> !k.Other?
  {
    match k
    case GoTo(_, _) => "go_to"
    case GoToRandom => "go_to_random"
    case Clockwise(_) => "clockwise"
    case Anticlockwise(_) => "anticlockwise"
    case Glide(_, _, _) => "glide"
    case GlideRandom(_) => "glide_random"
    case PointInDirection(_) => "point_in_direction"
    case PointTowards(_) => "point_towards"
    case Move(_) => "move"
    case ChangeXBy(_) => "change_x_by"
    case SetX(_) => "set_x"
    case ChangeYBy(_) => "change_y_by"
    case SetY(_) => "set_y"
    case SayForSeconds(_, _) => "say_for_seconds"
    case Say(_) => "say"
    case ThinkForSeconds(_, _) => "think_for_seconds"
    case Think(_) => "think"
    case ChangeSize(_) => "change_size"
    case Other(t) => t
  }

  /** The values the environment supplies to one step: the two
      `Math.random() * 400` draws and the pointer angle that
      `pointTowardsMouse` computes (`atan2` in degrees, shifted into [0, 360)). */
  datatype Sample = Sample(randomX: real, randomY: real, pointerAngle: real)

  type Draw = s: Sample
    | 0.0 <= s.randomX < RandomRange && 0.0 <= s.randomY < RandomRange
      && 0.0 <= s.pointerAngle < 360.0
    witness Sample(0.0, 0.0, 0.0)

  /** What a `setTimeout` callback of a step does when it fires. */
  datatype Effect = ClearAnimation | ClearText

  datatype Timer = Timer(delay: real, effect: Effect)

  /** The updated motion record and the timer the step schedules, if any. */
  datatype Outcome = Outcome(motion: Motion, timer: Option<Timer>)

  /** The parts of the motion record an update may write. */
  datatype Field = X | Y | Rotation | AnimationField | TextField | Size

  /** `n` equals `m` on every part outside `fs`. */
  predicate Agree(m: Motion, n: Motion, fs: set<Field>) {
    && (X !in fs ==> n.position.x == m.position.x)
    && (Y !in fs ==> n.position.y == m.position.y)
    && (Rotation !in fs ==> n.rotation == m.rotation)
    && (AnimationField !in fs ==> n.animation == m.animation)
    && (TextField !in fs ==> n.text == m.text)
    && (Size !in fs ==> n.size == m.size)
  }

  /** Which parts of the record each block type may write. */
  function Footprint(k: Kind): (r: set<Field>) {
    match k
    case GoTo(_, _) => {X, Y}
    case GoToRandom => {X, Y}
    case Clockwise(_) => {Rotation}
    case Anticlockwise(_) => {Rotation}
    case Glide(_, _, _) => {X, Y, AnimationField}
    case GlideRandom(_) => {X, Y, AnimationField}
    case PointInDirection(_) => {Rotation}
    case PointTowards(_) => {Rotation, AnimationField}
    case Move(_) => {X}
    case ChangeXBy(_) => {X}
    case SetX(_) => {X}
    case ChangeYBy(_) => {Y}
    case SetY(_) => {Y}
    case SayForSeconds(_, _) => {TextField}
    case Say(_) => {TextField}
    case ThinkForSeconds(_, _) => {TextField}
    case Think(_) => {TextField}
    case ChangeSize(_) => {Size}
    case Other(_) => {}
  }

  /** The block types that schedule a clearing timer. */
  predicate Timed(k: Kind) {
    k.Glide? || k.GlideRandom? || k.SayForSeconds? || k.ThinkForSeconds?
  }

  /** The part of the record a timer callback resets. */
  function EffectFootprint(e: Effect): (r: set<Field>) {
    match e
    case ClearAnimation => {AnimationField}
    case ClearText => {TextField}
  }

  /** The timer a block of kind `k` schedules, read off the kind alone:
      glides clear the animation and the `_for_seconds` bubbles clear the
      text, each after `seconds * 1000` milliseconds. */
  function Deferred(k: Kind): (r: Option<Timer>)
    ensures r.Some? <==> Timed(k)
  {
    if k.Glide? || k.GlideRandom? then Some(Timer(k.seconds * MillisPerSecond, ClearAnimation))
    else if k.SayForSeconds? || k.ThinkForSeconds? then Some(Timer(k.seconds * MillisPerSecond, ClearText))
    else None
  }

  /** One dispatch of `executeAction`: the updater for the block's type.
      It writes only the parts of the record in the type's footprint. */
  function Step(m: Motion, k: Kind, d: Draw): (r: Outcome)
    ensures Agree(m, r.motion, Footprint(k))
  {
    match k
    case GoTo(x, y) =>
      Outcome(m.(position := Position(x, y)), None)
    case GoToRandom =>
      Outcome(m.(position := Position(d.randomX, d.randomY)), None)
    case Clockwise(a) =>
      Outcome(m.(rotation := m.rotation + a), None)
    case Anticlockwise(a) =>
      Outcome(m.(rotation := m.rotation - a), None)
    case Glide(s, x, y) =>
      Outcome(m.(animation := Some(GlideAnimation(s * MillisPerSecond)), position := Position(x, y)),
              Some(Timer(s * MillisPerSecond, ClearAnimation)))
    case GlideRandom(s) =>
      Outcome(m.(animation := Some(GlideAnimation(s * MillisPerSecond)),
                 position := Position(d.randomX, d.randomY)),
              Some(Timer(s * MillisPerSecond, ClearAnimation)))
    case PointInDirection(dir) =>
      Outcome(m.(rotation := dir), None)
    case PointTowards(target) =>
      if target == MousePointer then
        Outcome(m.(rotation := d.pointerAngle, animation := None), None)
      else
        Outcome(m, None)
    case Move(dx) =>
      Outcome(m.(position := m.position.(x := m.position.x + dx)), None)
    case ChangeXBy(dx) =>
      Outcome(m.(position := m.position.(x := m.position.x + dx)), None)
    case SetX(x) =>
      Outcome(m.(position := m.position.(x := x)), None)
    case ChangeYBy(dy) =>
      Outcome(m.(position := m.position.(y := m.position.y + dy)), None)
    case SetY(y) =>
      Outcome(m.(position := m.position.(y := y)), None)
    case SayForSeconds(msg, s) =>
      Outcome(m.(text := Text(msg, s * MillisPerSecond, false)),
              Some(Timer(s * MillisPerSecond, ClearText)))
    case Say(msg) =>
      Outcome(m.(text := Text(msg, BareTextDuration, false)), None)
    case ThinkForSeconds(msg, s) =>
      Outcome(m.(text := Text(msg, s * MillisPerSecond, true)),
              Some(Timer(s * MillisPerSecond, ClearText)))
    case Think(msg) =>
      Outcome(m.(text := Text(msg, BareTextDuration, true)), None)
    case ChangeSize(n) =>
      Outcome(m.(size := m.size + n), None)
    case Other(_) =>
      Outcome(m, None)
  }

  /** A timer callback: it resets its one part of whatever record is current. */
  function Fire(m: Motion, e: Effect): (r: Motion)
    ensures Agree(m, r, EffectFootprint(e))
    ensures e == ClearAnimation ==> r.animation == None
    ensures e == ClearText ==> r.text == NoText && !Visible(r.text)
  {
    match e
    case ClearAnimation => m.(animation := None)
    case ClearText => m.(text := NoText)
  }

  /** Each block type schedules a timer exactly when it is timed, and that
      timer waits `seconds * 1000` milliseconds and then resets only a part
      the step itself wrote. */
  lemma StepFrame(m: Motion, k: Kind, d: Draw)
    ensures var r := Step(m, k, d);
      && (r.timer.Some? <==> Timed(k))
      && (r.timer.Some? ==> r.timer.value.delay == k.seconds * MillisPerSecond)
      && (r.timer.Some? ==> EffectFootprint(r.timer.value.effect) <= Footprint(k))
  {
  }

  /** What each block type writes into the parts of its footprint. */
  lemma StepWrites(m: Motion, k: Kind, d: Draw)
    ensures var n := Step(m, k, d).motion;
      && (k.GoTo? ==> n.position == Position(k.xPosition, k.yPosition))
      && (k.GoToRandom? ==> n.position == Position(d.randomX, d.randomY))
      && (k.Clockwise? ==> n.rotation == m.rotation + k.angle)
      && (k.Anticlockwise? ==> n.rotation == m.rotation - k.angle)
      && (k.Glide? ==> n.position == Position(k.xPosition, k.yPosition)
                       && n.animation == Some(GlideAnimation(k.seconds * 1000.0)))
      && (k.GlideRandom? ==> n.position == Position(d.randomX, d.randomY)
                             && n.animation == Some(GlideAnimation(k.seconds * 1000.0)))
      && (k.PointInDirection? ==> n.rotation == k.direction)
      && (k.PointTowards? && k.target == MousePointer ==>
            n.rotation == d.pointerAngle && n.animation == None)
      && (k.PointTowards? && k.target != MousePointer ==> n == m)
      && (k.Move? ==> n.position.x == m.position.x + k.xPosition)
      && (k.ChangeXBy? ==> n.position.x == m.position.x + k.deltaX)
      && (k.SetX? ==> n.position.x == k.xPosition)
      && (k.ChangeYBy? ==> n.position.y == m.position.y + k.deltaY)
      && (k.SetY? ==> n.position.y == k.yPosition)
      && (k.SayForSeconds? ==> n.text == Text(k.message, k.seconds * 1000.0, false))
      && (k.ThinkForSeconds? ==> n.text == Text(k.message, k.seconds * 1000.0, true))
      && (k.Say? ==> n.text == Text(k.message, 100.0, false))
      && (k.Think? ==> n.text == Text(k.message, 100.0, true))
      && (k.ChangeSize? ==> n.size == m.size + k.size)
      && (k.Other? ==> n == m)
  {
  }

  /** The timers a step schedules: glides clear the animation, the
      `_for_seconds` bubbles clear the text; bare `say` / `think` schedule none. */
  lemma StepTimers(m: Motion, k: Kind, d: Draw)
    ensures var t := Step(m, k, d).timer;
      && t == Deferred(k)
      && ((k.Glide? || k.GlideRandom?) ==> t == Some(Timer(k.seconds * 1000.0, ClearAnimation)))
      && ((k.SayForSeconds? || k.ThinkForSeconds?) ==> t == Some(Timer(k.seconds * 1000.0, ClearText)))
      && ((k.Say? || k.Think?) ==> t == None)
  {
  }

  /** A glide's timer removes only the animation it set, so the sprite stays
      at the glide's target while its bubble, turn and size are kept. */
  lemma GlideThenClear(m: Motion, s: real, x: real, y: real, d: Draw)
    ensures Fire(Step(m, Glide(s, x, y), d).motion, ClearAnimation)
            == m.(position := Position(x, y), animation := None)
  {
  }

  /** `say_for_seconds("Hi", 1)` shows "Hi" for 1000 ms as speech, and its
      timer then hides the bubble. */
  lemma SayForSecondsScenario(m: Motion, d: Draw)
    ensures var r := Step(m, SayForSeconds("Hi", 1.0), d);
      && r.motion.text == Text("Hi", 1000.0, false) && Visible(r.motion.text)
      && r.timer == Some(Timer(1000.0, ClearText))
      && Fire(r.motion, ClearText).text == Text("", 0.0, false)
  {
  }

  /** Random targets lie in [0, 400) x [0, 400). */
  lemma RandomTargetInRange(m: Motion, k: Kind, d: Draw)
    requires k.GoToRandom? || k.GlideRandom?
    ensures var p := Step(m, k, d).motion.position;
      0.0 <= p.x < 400.0 && 0.0 <= p.y < 400.0
  {
  }

  /** Turning clockwise then anticlockwise by the same angle restores the record. */
  lemma TurnsCancel(m: Motion, a: real, d: Draw)
    ensures Step(Step(m, Clockwise(a), d).motion, Anticlockwise(a), d).motion == m
  {
  }
}
