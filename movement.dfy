/**
 * Per-frame movement: which keys are held, and how `AvatarObject::Move`
 * turns them into a new pose. `cosf` and `sinf` of the heading are inputs
 * (the caller's trigonometry), so the step itself is exact arithmetic.
 */
module Movement {
  import opened Vectors
  import opened RenderTrace

  /** A key code: `keyboardState` is indexed by an `unsigned char`. */
  newtype Key = k: int | 0 <= k < 256

  const KeyW: Key := 119
  const KeyS: Key := 115
  const KeyA: Key := 97
  const KeyD: Key := 100

  /** The four keys the avatar reads: `w` forward, `s` back, `a` and `d` turn. */
  datatype Controls = Controls(forward: bool, backward: bool, left: bool, right: bool)

  /** The controls read from a 256-entry key table. */
  function ControlsOf(keys: seq<bool>): (c: Controls)
    requires |keys| == 256
    ensures c.forward == keys['w' as int] && c.backward == keys['s' as int]
    ensures c.left == keys['a' as int] && c.right == keys['d' as int]
  {
    Controls(keys[KeyW as int], keys[KeyS as int], keys[KeyA as int], keys[KeyD as int])
  }

  /** Degrees turned per second while `a` or `d` is held. */
  const TurnRate: real := 50.0

  /** How far one `dt` step moves along the heading `(c, s)` in the ground plane. */
  function Stride(dt: real, c: real, s: real): Vec3
  {
    Vec3(dt * c, 0.0, dt * s)
  }

  /**
   * One avatar step of `dt` seconds, with `c` and `s` the cosine and sine of
   * the heading at the start of the step: `w` moves by `-dt*(c, 0, s)`, `s`
   * by `+dt*(c, 0, s)`, `a` turns by `-50*dt` degrees and `d` by `+50*dt`.
   */
  function AvatarStep(p: Pose, dt: real, k: Controls, c: real, s: real): (q: Pose)
    ensures q.scaling == p.scaling && q.position.y == p.position.y
    ensures k.forward && !k.backward ==> q.position == Sub(p.position, Stride(dt, c, s))
    ensures k.backward && !k.forward ==> q.position == Add(p.position, Stride(dt, c, s))
    ensures k.forward == k.backward ==> q.position == p.position
    ensures q.orientation == p.orientation + TurnRate * dt * ((if k.right then 1.0 else 0.0) - (if k.left then 1.0 else 0.0))
  {
    var x := p.position;
    var afterW := if k.forward then Vec3(x.x - dt * c, x.y, x.z - dt * s) else x;
    var afterS := if k.backward then Vec3(afterW.x + dt * c, afterW.y, afterW.z + dt * s) else afterW;
    var afterA := if k.left then p.orientation - dt * TurnRate else p.orientation;
    var afterD := if k.right then afterA + dt * TurnRate else afterA;
    Pose(afterS, p.scaling, afterD)
  }

  /**
   * A step forward and a step back of the same length under the same heading
   * return to the starting position, and the heading is unchanged.
   */
  lemma ForwardThenBackReturns(p: Pose, dt: real, c: real, s: real)
    ensures AvatarStep(AvatarStep(p, dt, Controls(true, false, false, false), c, s), dt, Controls(false, true, false, false), c, s) == p
  {
  }

  /**
   * `Object::Move` for one object: an avatar takes a step with the cosine and
   * sine `heading` gives for its yaw in degrees; the base class and the
   * background class never move.
   */
  function MovedView(v: ObjectView, dt: real, k: Controls, heading: real -> (real, real)): (r: ObjectView)
    ensures r.behaviour == v.behaviour && r.material == v.material && r.geometry == v.geometry
    ensures v.behaviour != AvatarObject ==> r == v
    ensures r.pose.scaling == v.pose.scaling && r.pose.position.y == v.pose.position.y
  {
    if v.behaviour == AvatarObject then
      var trig := heading(v.pose.orientation);
      v.(pose := AvatarStep(v.pose, dt, k, trig.0, trig.1))
    else v
  }

  /** With no key held nothing moves, whatever the heading. */
  lemma IdleFrameMovesNothing(v: ObjectView, dt: real, heading: real -> (real, real))
    ensures MovedView(v, dt, Controls(false, false, false, false), heading) == v
  {
  }
}
