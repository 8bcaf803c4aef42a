/** The scene graph of the worksheet: BaseModel's pose, the TriangleModel leaf and the
    Tree and House composites, the trace each one's draw() emits, and the reference
    meaning of a draw: which vertices end up in the back buffer, under which matrix and
    in which colour. */
module Shapes {
  import opened Gl

  /** Position, orientation (degrees about the z axis), uniform scale and colour. */
  datatype Pose = Pose(position: Vec3, orientation: real, scale: real, color: Vec3)

  /** A TriangleModel draws its own rows of vertices; a Tree or House draws its components. */
  datatype Model =
    | Triangle(pose: Pose, vertices: seq<Vec3>)
    | Composite(pose: Pose, components: seq<Model>)

  const Origin := Vec3(0.0, 0.0, 0.0)
  const White := Vec3(1.0, 1.0, 1.0)
  const ZAxis := Vec3(0.0, 0.0, 1.0)

  /** TriangleModel's default vertex rows. */
  const DefaultVertices := [Vec3(0.0, 1.0, 0.0), Vec3(0.0, 0.0, 0.0), Vec3(1.0, 1.0, 0.0)]

  function Uniform(s: real): Vec3
  {
    Vec3(s, s, s)
  }

  /** TriangleModel(...), with the constructor's defaults. */
  function TriangleModel(position: Vec3 := Origin, orientation: real := 0.0, scale: real := 1.0,
                         color: Vec3 := White, vertices: seq<Vec3> := DefaultVertices): (r: Model)
    ensures r.Triangle? && r.pose == Pose(position, orientation, scale, color) && r.vertices == vertices
  {
    Triangle(Pose(position, orientation, scale, color), vertices)
  }

  const Green := Vec3(0.0, 1.0, 0.0)
  const Trunk := Vec3(0.6, 0.2, 0.2)

  const TreeComponents := [
    TriangleModel(position := Vec3(0.0, 0.0, 0.0), scale := 0.5, orientation := -45.0, color := Green,
                  vertices := [Vec3(0.0, 1.0, 0.0), Vec3(0.0, 0.0, 0.0), Vec3(1.0, 1.0, 0.0)]),
    TriangleModel(position := Vec3(0.0, 0.25, 0.0), scale := 0.5, orientation := -45.0, color := Green),
    TriangleModel(position := Vec3(0.0, 0.5, 0.0), scale := 0.5, orientation := -45.0, color := Green),
    TriangleModel(position := Vec3(0.25, -0.25, 0.0), scale := 0.25, orientation := 0.0, color := Trunk),
    TriangleModel(position := Vec3(0.5, 0.0, 0.0), scale := 0.25, orientation := -180.0, color := Trunk)
  ]

  /** Tree(...): a white pose around its five components. */
  function Tree(position: Vec3 := Origin, orientation: real := 0.0, scale: real := 1.0): (r: Model)
    ensures r.Composite? && r.pose == Pose(position, orientation, scale, White)
    ensures r.components == TreeComponents
  {
    Composite(Pose(position, orientation, scale, White), TreeComponents)
  }

  const Wall := Vec3(0.8, 0.8, 0.8)
  const Glass := Vec3(0.2, 0.2, 0.6)
  const Door := Vec3(0.6, 0.2, 0.2)
  const Roof := Vec3(0.9, 0.2, 0.2)
  const Panel := [Vec3(0.0, 0.0, 0.0), Vec3(1.0, 1.2, 0.0), Vec3(0.0, 1.2, 0.0)]
  const DoorPanel := [Vec3(0.0, 0.0, 0.0), Vec3(1.0, 1.5, 0.0), Vec3(0.0, 1.5, 0.0)]
  const Gable := [Vec3(0.0, 0.0, 0.0), Vec3(0.5, 0.7, 0.0), Vec3(1.0, 0.0, 0.0)]

  const HouseComponents := [
    TriangleModel(position := Vec3(0.0, -0.25, 0.0), scale := 0.5, orientation := 0.0, color := Wall, vertices := Panel),
    TriangleModel(position := Vec3(0.5, 0.35, 0.0), scale := 0.5, orientation := 180.0, color := Wall, vertices := Panel),
    TriangleModel(position := Vec3(0.025, 0.125, 0.0), scale := 0.15, orientation := 0.0, color := Glass, vertices := Panel),
    TriangleModel(position := Vec3(0.175, 0.305, 0.0), scale := 0.15, orientation := 180.0, color := Glass, vertices := Panel),
    TriangleModel(position := Vec3(0.325, 0.125, 0.0), scale := 0.15, orientation := 0.0, color := Glass, vertices := Panel),
    TriangleModel(position := Vec3(0.475, 0.305, 0.0), scale := 0.15, orientation := 180.0, color := Glass, vertices := Panel),
    TriangleModel(position := Vec3(0.175, -0.25, 0.0), scale := 0.15, orientation := 0.0, color := Door, vertices := DoorPanel),
    TriangleModel(position := Vec3(0.325, -0.025, 0.0), scale := 0.15, orientation := 180.0, color := Door, vertices := DoorPanel),
    TriangleModel(position := Vec3(-0.05, 0.35, 0.0), scale := 0.6, orientation := 0.0, color := Roof, vertices := Gable)
  ]

  /** House(...): a white pose around its nine components. */
  function House(position: Vec3 := Origin, orientation: real := 0.0, scale: real := 1.0): (r: Model)
    ensures r.Composite? && r.pose == Pose(position, orientation, scale, White)
    ensures r.components == HouseComponents
  {
    Composite(Pose(position, orientation, scale, White), HouseComponents)
  }

  // ---------------------------------------------------------------------------------
  // The trace a draw emits.

  /** applyParameters: translate by the position plus the pan offset, rotate about z,
      scale uniformly, set the colour. */
  function PoseCommands(p: Pose, off: Vec3): (r: seq<Command>)
    ensures |r| == 4 && r[0] == Translate(Add(p.position, off)) && r[|r| - 1] == Color(p.color)
    ensures forall i :: 0 <= i < |r| ==> r[i].Translate? || r[i].Rotate? || r[i].Scale? || r[i].Color?
  {
    [Translate(Add(p.position, off)), Rotate(p.orientation, ZAxis), Scale(Uniform(p.scale)), Color(p.color)]
  }

  /** The glVertex calls for some vertex rows, in row order. */
  function VertexCommands(vs: seq<Vec3>): seq<Command>
  {
    if vs == [] then [] else [Vertex(vs[0])] + VertexCommands(vs[1..])
  }

  /** The trace of m.draw() under pan offset `off`. */
  function DrawTrace(m: Model, off: Vec3): seq<Command>
    decreases m
  {
    match m
    case Triangle(p, vs) => [Push] + PoseCommands(p, off) + [Begin] + VertexCommands(vs) + [End, Pop]
    case Composite(p, cs) => [Push] + PoseCommands(p, off) + DrawList(cs, off) + [Pop]
  }

  /** The traces of drawing each model of a list, in list order. */
  function DrawList(ms: seq<Model>, off: Vec3): seq<Command>
    decreases ms
  {
    if ms == [] then [] else DrawTrace(ms[0], off) + DrawList(ms[1..], off)
  }

  // ---------------------------------------------------------------------------------
  // The meaning of a draw, independent of push and pop.

  /** The matrix factors applyParameters multiplies on. */
  function PoseXforms(p: Pose, off: Vec3): seq<Xform>
  {
    [Tr(Add(p.position, off)), Rot(p.orientation, ZAxis), Sc(Uniform(p.scale))]
  }

  function PaintVertices(xf: seq<Xform>, rgb: Vec3, vs: seq<Vec3>): seq<Mark>
  {
    if vs == [] then [] else [Mark(xf, rgb, vs[0])] + PaintVertices(xf, rgb, vs[1..])
  }

  /** What drawing m under matrix ctx paints: every vertex of every leaf, depth first, under
      ctx followed by the pose of each enclosing node, in the leaf's own colour. */
  function Painted(m: Model, off: Vec3, ctx: seq<Xform>): seq<Mark>
    decreases m
  {
    match m
    case Triangle(p, vs) => PaintVertices(ctx + PoseXforms(p, off), p.color, vs)
    case Composite(p, cs) => PaintedList(cs, off, ctx + PoseXforms(p, off))
  }

  function PaintedList(ms: seq<Model>, off: Vec3, ctx: seq<Xform>): seq<Mark>
    decreases ms
  {
    if ms == [] then [] else Painted(ms[0], off, ctx) + PaintedList(ms[1..], off, ctx)
  }

  /** The colour left current after drawing m: the last glColor it issued. */
  function ColorAfter(m: Model): Vec3
    decreases m
  {
    match m
    case Triangle(p, _) => p.color
    case Composite(p, cs) => ColorAfterList(cs, p.color)
  }

  function ColorAfterList(ms: seq<Model>, rgb: Vec3): Vec3
    decreases ms
  {
    if ms == [] then rgb else ColorAfterList(ms[1..], ColorAfter(ms[0]))
  }

  /** Number of nodes (leaves and composites) of a model. */
  function Nodes(m: Model): nat
    decreases m
  {
    match m
    case Triangle(_, _) => 1
    case Composite(_, cs) => 1 + NodesList(cs)
  }

  function NodesList(ms: seq<Model>): nat
    decreases ms
  {
    if ms == [] then 0 else Nodes(ms[0]) + NodesList(ms[1..])
  }

  /** Number of leaves of a model. */
  function Leaves(m: Model): nat
    decreases m
  {
    match m
    case Triangle(_, _) => 1
    case Composite(_, cs) => LeavesList(cs)
  }

  function LeavesList(ms: seq<Model>): nat
    decreases ms
  {
    if ms == [] then 0 else Leaves(ms[0]) + LeavesList(ms[1..])
  }

  // ---------------------------------------------------------------------------------
  // Building traces one piece at a time, as the draw loops do.

  lemma {:induction false} VertexCommandsSnoc(vs: seq<Vec3>, v: Vec3)
    ensures VertexCommands(vs + [v]) == VertexCommands(vs) + [Vertex(v)]
    decreases |vs|
  {
    if vs == [] {
      assert [v][1..] == [];
    } else {
      assert (vs + [v])[1..] == vs[1..] + [v];
      VertexCommandsSnoc(vs[1..], v);
    }
  }

  lemma {:induction false} DrawListSnoc(ms: seq<Model>, m: Model, off: Vec3)
    ensures DrawList(ms + [m], off) == DrawList(ms, off) + DrawTrace(m, off)
    decreases |ms|
  {
    if ms == [] {
      assert [m][1..] == [];
    } else {
      assert (ms + [m])[1..] == ms[1..] + [m];
      DrawListSnoc(ms[1..], m, off);
    }
  }

  // ---------------------------------------------------------------------------------
  // Running the traces.

  /** applyParameters multiplies translate, rotate and scale, in that order, onto the
      current matrix and makes the pose's colour current; nothing else changes. */
  lemma PoseExec(p: Pose, off: Vec3, s: GlState)
    requires !s.open
    ensures Exec(s, PoseCommands(p, off)) == Some(s.(current := s.current + PoseXforms(p, off), rgb := p.color))
  {
    var t := PoseCommands(p, off);
    var s1 := s.(current := s.current + [Tr(Add(p.position, off))]);
    var s2 := s1.(current := s1.current + [Rot(p.orientation, ZAxis)]);
    var s3 := s2.(current := s2.current + [Sc(Uniform(p.scale))]);
    var s4 := s3.(rgb := p.color);
    ExecCons(s, t[0], t[1..]);
    assert t == [t[0]] + t[1..];
    ExecCons(s1, t[1], t[2..]);
    assert t[1..] == [t[1]] + t[2..];
    ExecCons(s2, t[2], t[3..]);
    assert t[2..] == [t[2]] + t[3..];
    ExecCons(s3, t[3], []);
    assert t[3..] == [t[3]] + [];
    assert Exec(s4, []) == Some(s4);
    assert s.current + PoseXforms(p, off) == s3.current;
  }

  /** Between glBegin and glEnd each row becomes one painted vertex, in row order. */
  lemma {:induction false} VerticesExec(vs: seq<Vec3>, s: GlState)
    requires s.open
    ensures Exec(s, VertexCommands(vs)) == Some(s.(buffer := s.buffer + PaintVertices(s.current, s.rgb, vs)))
    decreases |vs|
  {
    if vs == [] {
      assert s.buffer + [] == s.buffer;
    } else {
      var s1 := s.(buffer := s.buffer + [Mark(s.current, s.rgb, vs[0])]);
      ExecCons(s, Vertex(vs[0]), VertexCommands(vs[1..]));
      VerticesExec(vs[1..], s1);
      assert s1.buffer + PaintVertices(s.current, s.rgb, vs[1..])
          == s.buffer + PaintVertices(s.current, s.rgb, vs);
    }
  }

  /** Drawing any model from outside glBegin/glEnd never fails and leaves the matrix
      stack and the current matrix exactly as they were (every push has its pop, on every
      path, including an empty component list). All it changes is the back buffer, which
      gains exactly the model's painted vertices, and the current colour, which glPushMatrix
      does not save. */
  lemma {:induction false} DrawExec(m: Model, off: Vec3, s: GlState)
    requires !s.open
    ensures Exec(s, DrawTrace(m, off)) == Some(s.(rgb := ColorAfter(m), buffer := s.buffer + Painted(m, off, s.current)))
    decreases m, 1
  {
    var ctx := s.current + PoseXforms(m.pose, off);
    var s1 := s.(stack := s.stack + [s.current]);
    var s2 := s1.(current := ctx, rgb := m.pose.color);
    ExecAppend(s, [Push], PoseCommands(m.pose, off));
    ExecCons(s, Push, []);
    PoseExec(m.pose, off, s1);
    assert Exec(s, [Push] + PoseCommands(m.pose, off)) == Some(s2);
    match m
    case Triangle(p, vs) =>
      var s3 := s2.(open := true);
      var s4 := s3.(buffer := s3.buffer + PaintVertices(ctx, p.color, vs));
      var s5 := s4.(open := false);
      ExecAppend(s, [Push] + PoseCommands(p, off), [Begin]);
      ExecCons(s2, Begin, []);
      ExecAppend(s, [Push] + PoseCommands(p, off) + [Begin], VertexCommands(vs));
      VerticesExec(vs, s3);
      ExecAppend(s, [Push] + PoseCommands(p, off) + [Begin] + VertexCommands(vs), [End, Pop]);
      ExecCons(s4, End, [Pop]);
      ExecCons(s5, Pop, []);
      assert s5.stack[..|s5.stack| - 1] == s.stack;
    case Composite(p, cs) =>
      var s3 := s2.(rgb := ColorAfterList(cs, s2.rgb), buffer := s2.buffer + PaintedList(cs, off, ctx));
      ExecAppend(s, [Push] + PoseCommands(p, off), DrawList(cs, off));
      DrawListExec(cs, off, s2);
      ExecAppend(s, [Push] + PoseCommands(p, off) + DrawList(cs, off), [Pop]);
      ExecCons(s3, Pop, []);
      assert s3.stack[..|s3.stack| - 1] == s.stack;
  }

  /** Drawing a list of models draws each in list order; the stack is restored after each. */
  lemma {:induction false} DrawListExec(ms: seq<Model>, off: Vec3, s: GlState)
    requires !s.open
    ensures Exec(s, DrawList(ms, off)) == Some(s.(rgb := ColorAfterList(ms, s.rgb), buffer := s.buffer + PaintedList(ms, off, s.current)))
    decreases ms, 0
  {
    if ms == [] {
      assert s.buffer + [] == s.buffer;
    } else {
      var s1 := s.(rgb := ColorAfter(ms[0]), buffer := s.buffer + Painted(ms[0], off, s.current));
      ExecAppend(s, DrawTrace(ms[0], off), DrawList(ms[1..], off));
      DrawExec(ms[0], off, s);
      DrawListExec(ms[1..], off, s1);
      assert s1.buffer + PaintedList(ms[1..], off, s.current) == s.buffer + PaintedList(ms, off, s.current);
    }
  }

  /** The number of occurrences of c in t. */
  function Count(t: seq<Command>, c: Command): nat
  {
    if t == [] then 0 else (if t[0] == c then 1 else 0) + Count(t[1..], c)
  }

  lemma {:induction false} CountAppend(a: seq<Command>, b: seq<Command>, c: Command)
    ensures Count(a + b, c) == Count(a, c) + Count(b, c)
    decreases |a|
  {
    if a == [] {
      assert a + b == b;
    } else {
      assert (a + b)[0] == a[0];
      assert (a + b)[1..] == a[1..] + b;
      CountAppend(a[1..], b, c);
    }
  }

  /** The pair of counts DrawCounts speaks about, for one kind of bracket. */
  predicate Brackets(t: seq<Command>, open: Command, close: Command, n: nat)
  {
    Count(t, open) == n && Count(t, close) == n
  }

  /** A model emits one Push and one Pop per node and one Begin and one End per leaf: a
      leaf exactly one pair, a Tree or House its own pair plus its components'. */
  lemma {:induction false} DrawCounts(m: Model, off: Vec3)
    ensures Brackets(DrawTrace(m, off), Push, Pop, Nodes(m))
    ensures Brackets(DrawTrace(m, off), Begin, End, Leaves(m))
    decreases m, 1
  {
    var head := [Push] + PoseCommands(m.pose, off);
    forall c | c in {Push, Pop, Begin, End} ensures Count(head, c) == if c == Push then 1 else 0 {
      assert head[5..] == [];
      assert Count(head[4..], c) == 0;
      assert Count(head[3..], c) == 0;
      assert Count(head[2..], c) == 0;
      assert Count(head[1..], c) == 0;
    }
    match m
    case Triangle(p, vs) =>
      var tail := [Begin] + VertexCommands(vs) + [End, Pop];
      assert DrawTrace(m, off) == head + tail;
      forall c | c in {Push, Pop, Begin, End}
        ensures Count(DrawTrace(m, off), c) == Count(head, c) + (if c == Push then 0 else 1)
      {
        CountAppend(head, tail, c);
        CountAppend([Begin] + VertexCommands(vs), [End, Pop], c);
        CountAppend([Begin], VertexCommands(vs), c);
        VertexCommandsCounts(vs, c);
        assert [End, Pop] == [End] + [Pop];
        CountAppend([End], [Pop], c);
      }
    case Composite(p, cs) =>
      var body := DrawList(cs, off);
      assert DrawTrace(m, off) == (head + body) + [Pop];
      DrawListCounts(cs, off);
      forall c | c in {Push, Pop, Begin, End}
        ensures Count(DrawTrace(m, off), c) == Count(head, c) + Count(body, c) + (if c == Pop then 1 else 0)
      {
        CountAppend(head + body, [Pop], c);
        CountAppend(head, body, c);
      }
  }

  lemma {:induction false} DrawListCounts(ms: seq<Model>, off: Vec3)
    ensures Brackets(DrawList(ms, off), Push, Pop, NodesList(ms))
    ensures Brackets(DrawList(ms, off), Begin, End, LeavesList(ms))
    decreases ms, 0
  {
    if ms != [] {
      DrawCounts(ms[0], off);
      DrawListCounts(ms[1..], off);
      forall c | c in {Push, Pop, Begin, End} {
        CountAppend(DrawTrace(ms[0], off), DrawList(ms[1..], off), c);
      }
    }
  }

  lemma {:induction false} VertexCommandsCounts(vs: seq<Vec3>, c: Command)
    requires !c.Vertex?
    ensures Count(VertexCommands(vs), c) == 0
    decreases |vs|
  {
    if vs != [] {
      VertexCommandsCounts(vs[1..], c);
    }
  }

  // ---------------------------------------------------------------------------------
  // Properties of the painted vertices.

  lemma {:induction false} PaintVerticesShape(xf: seq<Xform>, rgb: Vec3, vs: seq<Vec3>)
    ensures |PaintVertices(xf, rgb, vs)| == |vs|
    ensures forall i :: 0 <= i < |vs| ==> PaintVertices(xf, rgb, vs)[i] == Mark(xf, rgb, vs[i])
    decreases |vs|
  {
    if vs != [] {
      PaintVerticesShape(xf, rgb, vs[1..]);
    }
  }

  /** A leaf paints one vertex per row, in row order, in its own colour (a composite's
      colour is never inherited), under the enclosing matrix followed by its own pose. */
  lemma LeafPainted(p: Pose, vs: seq<Vec3>, off: Vec3, ctx: seq<Xform>)
    ensures |Painted(Triangle(p, vs), off, ctx)| == |vs|
    ensures forall i :: 0 <= i < |vs| ==>
      Painted(Triangle(p, vs), off, ctx)[i] == Mark(ctx + PoseXforms(p, off), p.color, vs[i])
  {
    PaintVerticesShape(ctx + PoseXforms(p, off), p.color, vs);
  }

  /** Every vertex a model paints is painted under the enclosing matrix followed by the
      model's own translate (position plus pan offset), rotate and scale. */
  lemma {:induction false} PaintedUnderOwnPose(m: Model, off: Vec3, ctx: seq<Xform>)
    ensures forall k :: 0 <= k < |Painted(m, off, ctx)| ==>
      ctx + PoseXforms(m.pose, off) <= Painted(m, off, ctx)[k].xform
    decreases m, 1
  {
    match m
    case Triangle(p, vs) =>
      LeafPainted(p, vs, off, ctx);
    case Composite(p, cs) =>
      PaintedListUnder(cs, off, ctx + PoseXforms(p, off));
  }

  lemma {:induction false} PaintedListUnder(ms: seq<Model>, off: Vec3, ctx: seq<Xform>)
    ensures forall k :: 0 <= k < |PaintedList(ms, off, ctx)| ==> ctx <= PaintedList(ms, off, ctx)[k].xform
    decreases ms, 0
  {
    if ms != [] {
      PaintedUnderOwnPose(ms[0], off, ctx);
      PaintedListUnder(ms[1..], off, ctx);
      var a: seq<Mark>, b: seq<Mark> := Painted(ms[0], off, ctx), PaintedList(ms[1..], off, ctx);
      forall k | 0 <= k < |a + b| ensures ctx <= (a + b)[k].xform {
        if k < |a| {
          assert ctx <= ctx + PoseXforms(ms[0].pose, off) <= a[k].xform;
        } else {
          assert (a + b)[k] == b[k - |a|];
        }
      }
    }
  }

  /** Whatever a member of a list paints, the list paints. */
  lemma {:induction false} PaintedListHas(ms: seq<Model>, i: nat, off: Vec3, ctx: seq<Xform>, e: Mark)
    requires i < |ms| && e in Painted(ms[i], off, ctx)
    ensures e in PaintedList(ms, off, ctx)
    decreases i
  {
    if i > 0 {
      PaintedListHas(ms[1..], i - 1, off, ctx, e);
    }
  }

  /** The pan offset is added at every level: a vertex of a component of a composite is
      painted under the composite's translate by its position plus the offset and then the
      component's translate by its own position plus the offset again. */
  lemma ComponentVertexPainted(p: Pose, cs: seq<Model>, i: nat, j: nat, off: Vec3, ctx: seq<Xform>)
    requires i < |cs| && cs[i].Triangle? && j < |cs[i].vertices|
    ensures Mark(ctx + [Tr(Add(p.position, off)), Rot(p.orientation, ZAxis), Sc(Uniform(p.scale)),
                        Tr(Add(cs[i].pose.position, off)), Rot(cs[i].pose.orientation, ZAxis), Sc(Uniform(cs[i].pose.scale))],
                 cs[i].pose.color, cs[i].vertices[j])
            in Painted(Composite(p, cs), off, ctx)
  {
    var inner := ctx + PoseXforms(p, off);
    LeafPainted(cs[i].pose, cs[i].vertices, off, inner);
    assert Painted(cs[i], off, inner)[j] in Painted(cs[i], off, inner);
    PaintedListHas(cs, i, off, inner, Painted(cs[i], off, inner)[j]);
    assert inner + PoseXforms(cs[i].pose, off)
        == ctx + [Tr(Add(p.position, off)), Rot(p.orientation, ZAxis), Sc(Uniform(p.scale)),
                  Tr(Add(cs[i].pose.position, off)), Rot(cs[i].pose.orientation, ZAxis), Sc(Uniform(cs[i].pose.scale))];
  }

  // ---------------------------------------------------------------------------------
  // The concrete models.

  /** A list of leaves of three vertex rows each. */
  predicate AllTriangles(cs: seq<Model>)
  {
    forall i :: 0 <= i < |cs| ==> cs[i].Triangle? && |cs[i].vertices| == 3
  }

  /** A composite whose components are triangles has one node per component plus itself
      and paints three vertices per component. */
  lemma {:induction false} FlatCompositeCounts(cs: seq<Model>, off: Vec3, ctx: seq<Xform>)
    requires AllTriangles(cs)
    ensures NodesList(cs) == |cs| && LeavesList(cs) == |cs|
    ensures |PaintedList(cs, off, ctx)| == 3 * |cs|
    decreases |cs|
  {
    if cs != [] {
      LeafPainted(cs[0].pose, cs[0].vertices, off, ctx);
      FlatCompositeCounts(cs[1..], off, ctx);
    }
  }

  /** A default-constructed TriangleModel draws exactly three vertices. */
  lemma DefaultTriangle(position: Vec3, orientation: real, scale: real, color: Vec3, off: Vec3, ctx: seq<Xform>)
    ensures |Painted(TriangleModel(position, orientation, scale, color), off, ctx)| == 3
    ensures Brackets(DrawTrace(TriangleModel(position, orientation, scale, color), off), Push, Pop, 1)
  {
    LeafPainted(Pose(position, orientation, scale, color), DefaultVertices, off, ctx);
    DrawCounts(TriangleModel(position, orientation, scale, color), off);
  }

  /** A Tree is a white pose around five triangles: six push/pop pairs, fifteen vertices. */
  lemma TreeParts(position: Vec3, orientation: real, scale: real, off: Vec3, ctx: seq<Xform>)
    ensures Tree(position, orientation, scale).pose == Pose(position, orientation, scale, White)
    ensures |Tree(position, orientation, scale).components| == 5
    ensures AllTriangles(Tree(position, orientation, scale).components)
    ensures Brackets(DrawTrace(Tree(position, orientation, scale), off), Push, Pop, 6)
    ensures |Painted(Tree(position, orientation, scale), off, ctx)| == 15
  {
    var t := Tree(position, orientation, scale);
    assert AllTriangles(TreeComponents);
    FlatCompositeCounts(TreeComponents, off, ctx + PoseXforms(t.pose, off));
    DrawCounts(t, off);
  }

  /** A House is a white pose around nine triangles: ten push/pop pairs, 27 vertices. */
  lemma HouseParts(position: Vec3, orientation: real, scale: real, off: Vec3, ctx: seq<Xform>)
    ensures House(position, orientation, scale).pose == Pose(position, orientation, scale, White)
    ensures |House(position, orientation, scale).components| == 9
    ensures AllTriangles(House(position, orientation, scale).components)
    ensures Brackets(DrawTrace(House(position, orientation, scale), off), Push, Pop, 10)
    ensures |Painted(House(position, orientation, scale), off, ctx)| == 27
  {
    var h := House(position, orientation, scale);
    assert AllTriangles(HouseComponents);
    FlatCompositeCounts(HouseComponents, off, ctx + PoseXforms(h.pose, off));
    DrawCounts(h, off);
  }
}
