/** The pan offset update Scene.handleInput performs: each held arrow key moves the
    global offset by a quarter of the frame delta along one axis. */
module Pan {
  import opened Gl

  /** The keys of pygame's pressed-key state; only the four arrows matter. */
  datatype Key = Up | Down | Left | Right | OtherKey(code: nat)

  /** Offset units per unit of deltaTime while an arrow key is held. */
  const Speed: real := 0.25

  function Held(k: Key, keys: set<Key>): real
  {
    if k in keys then 1.0 else 0.0
  }

  /** The direction the held arrows pan: left is +x, right is -x, down is +y, up is -y,
      and opposite keys cancel. */
  function Heading(keys: set<Key>): Vec3
  {
    Vec3(Held(Left, keys) - Held(Right, keys), Held(Down, keys) - Held(Up, keys), 0.0)
  }

  /** The offset after one handleInput with the given keys held and frame delta dt; z is
      never touched. */
  function PanStep(off: Vec3, keys: set<Key>, dt: real): (r: Vec3)
    ensures r.z == off.z
  {
    Add(off, Times(Speed * dt, Heading(keys)))
  }

  /** Each arrow key on its own moves one axis by a quarter of the delta. */
  lemma SingleKeys(off: Vec3, dt: real)
    ensures PanStep(off, {Up}, dt) == Vec3(off.x, off.y - 0.25 * dt, off.z)
    ensures PanStep(off, {Down}, dt) == Vec3(off.x, off.y + 0.25 * dt, off.z)
    ensures PanStep(off, {Left}, dt) == Vec3(off.x + 0.25 * dt, off.y, off.z)
    ensures PanStep(off, {Right}, dt) == Vec3(off.x - 0.25 * dt, off.y, off.z)
  {
  }

  /** With no arrow key held the offset does not change; z never changes. */
  lemma NoArrowNoChange(off: Vec3, keys: set<Key>, dt: real)
    ensures PanStep(off, keys, dt).z == off.z
    ensures Up !in keys && Down !in keys && Left !in keys && Right !in keys ==> PanStep(off, keys, dt) == off
  {
  }

  /** Up with down, and left with right, cancel exactly. */
  lemma OppositeKeysCancel(off: Vec3, keys: set<Key>, dt: real)
    ensures Up in keys && Down in keys ==> PanStep(off, keys, dt).y == off.y
    ensures Left in keys && Right in keys ==> PanStep(off, keys, dt).x == off.x
  {
  }

  /** Simultaneous keys add up: holding vertical and horizontal arrows together is the
      vertical step followed by the horizontal one. */
  lemma KeysCompose(off: Vec3, keys: set<Key>, dt: real)
    ensures PanStep(off, keys, dt) == PanStep(PanStep(off, keys * {Up, Down}, dt), keys * {Left, Right}, dt)
  {
  }
}
