/** The OpenGL and pygame calls the worksheet makes, as a command trace, and a small
    interpreter of that trace over the fixed-function state those calls touch: the
    modelview matrix stack, the current colour, the primitive being assembled, the back
    buffer and the frames presented. Matrices are kept symbolically, as the list of
    elementary transforms multiplied onto the identity, so no matrix arithmetic is done. */
module Gl {

  datatype Option<T> = None | Some(value: T)

  datatype Vec3 = Vec3(x: real, y: real, z: real)

  function Add(a: Vec3, b: Vec3): Vec3
  {
    Vec3(a.x + b.x, a.y + b.y, a.z + b.z)
  }

  function Times(k: real, a: Vec3): Vec3
  {
    Vec3(k * a.x, k * a.y, k * a.z)
  }

  /** One call into the graphics collaborator. */
  datatype Command =
    | Push                                   // glPushMatrix
    | Pop                                    // glPopMatrix
    | Translate(delta: Vec3)                 // glTranslate(x, y, z)
    | Rotate(angle: real, axis: Vec3)        // glRotate(angle, ax, ay, az), degrees
    | Scale(factors: Vec3)                   // glScale(sx, sy, sz)
    | Color(rgb: Vec3)                       // glColor(rgb)
    | Begin                                  // glBegin(GL_TRIANGLES)
    | Vertex(v: Vec3)                        // glVertex(v)
    | End                                    // glEnd
    | Clear                                  // glClear(GL_COLOR_BUFFER_BIT)
    | Flip                                   // pygame.display.flip

  /** An elementary transform multiplied onto the current matrix. */
  datatype Xform = Tr(delta: Vec3) | Rot(angle: real, axis: Vec3) | Sc(factors: Vec3)

  /** A vertex as it was submitted: the matrix and colour current at that moment. */
  datatype Mark = Mark(xform: seq<Xform>, rgb: Vec3, v: Vec3)

  datatype GlState = GlState(
    stack: seq<seq<Xform>>,    // saved matrices, top of stack last
    current: seq<Xform>,       // current modelview matrix
    rgb: Vec3,                 // current colour
    open: bool,                // between glBegin and glEnd
    buffer: seq<Mark>,         // back buffer: vertices since the last clear, in paint order
    shown: seq<seq<Mark>>)     // every buffer presented by a flip, in order

  /** A fresh context: empty stack, identity matrix, white, nothing drawn. */
  const Fresh := GlState([], [], Vec3(1.0, 1.0, 1.0), false, [], [])

  /** The effect of one call; None where OpenGL reports an error (a pop of an empty
      stack, a matrix or clear call between glBegin and glEnd, nested glBegin, glEnd
      without glBegin) or leaves the result undefined (glVertex outside glBegin/glEnd). */
  function Step(s: GlState, c: Command): Option<GlState>
  {
    match c
    case Push => if s.open then None else Some(s.(stack := s.stack + [s.current]))
    case Pop =>
      if s.open || s.stack == [] then None
      else Some(s.(stack := s.stack[..|s.stack| - 1], current := s.stack[|s.stack| - 1]))
    case Translate(delta) => if s.open then None else Some(s.(current := s.current + [Tr(delta)]))
    case Rotate(angle, axis) => if s.open then None else Some(s.(current := s.current + [Rot(angle, axis)]))
    case Scale(factors) => if s.open then None else Some(s.(current := s.current + [Sc(factors)]))
    case Color(rgb) => Some(s.(rgb := rgb))
    case Begin => if s.open then None else Some(s.(open := true))
    case Vertex(v) => if !s.open then None else Some(s.(buffer := s.buffer + [Mark(s.current, s.rgb, v)]))
    case End => if !s.open then None else Some(s.(open := false))
    case Clear => if s.open then None else Some(s.(buffer := []))
    case Flip => Some(s.(shown := s.shown + [s.buffer]))
  }

  /** The effect of a whole trace, None as soon as one call fails. */
  function Exec(s: GlState, t: seq<Command>): Option<GlState>
    decreases |t|
  {
    if t == [] then Some(s)
    else match Step(s, t[0])
      case None => None
      case Some(s1) => Exec(s1, t[1..])
  }

  /** Running two traces one after the other is running their concatenation. */
  lemma {:induction false} ExecAppend(s: GlState, a: seq<Command>, b: seq<Command>)
    ensures Exec(s, a + b) == match Exec(s, a) case None => None case Some(s1) => Exec(s1, b)
    decreases |a|
  {
    if a == [] {
      assert a + b == b;
    } else {
      assert (a + b)[0] == a[0];
      assert (a + b)[1..] == a[1..] + b;
      match Step(s, a[0])
      case None =>
      case Some(s1) => ExecAppend(s1, a[1..], b);
    }
  }

  /** Running a trace that starts with one call. */
  lemma ExecCons(s: GlState, c: Command, t: seq<Command>)
    ensures Exec(s, [c] + t) == match Step(s, c) case None => None case Some(s1) => Exec(s1, t)
  {
    assert ([c] + t)[0] == c;
    assert ([c] + t)[1..] == t;
  }
}
