/** The Scene object and the module globals it shares with the models' draw methods:
    the pan offset and deltaTime. The GL calls append to `trace`; every method is proved
    against the trace functions of Shapes and FrameLoop and the offset function of Pan. */
module Scenes {
  import opened Gl
  import opened Shapes
  import opened Pan
  import opened FrameLoop

  class Scene {
    var models: seq<Model>
    var xOffset: real
    var yOffset: real
    var zOffset: real
    var deltaTime: real
    var trace: seq<Command>

    /** The global pan offset (x_offset, y_offset, z_offset). */
    function Offset(): Vec3
      reads this`xOffset, this`yOffset, this`zOffset
    {
      Vec3(xOffset, yOffset, zOffset)
    }

    /** A new scene with no models, the globals at their initial values, nothing drawn. */
    constructor ()
      ensures models == [] && Offset() == Origin && deltaTime == InitialDelta && trace == []
    {
      models := [];
      xOffset, yOffset, zOffset := 0.0, 0.0, 0.0;
      deltaTime := InitialDelta;
      trace := [];
    }

    /** add_model: append to the models list; nothing else changes. */
    method AddModel(model: Model)
      modifies this`models
      ensures models == old(models) + [model]
      ensures Offset() == old(Offset()) && deltaTime == old(deltaTime) && trace == old(trace)
    {
      models := models + [model];
    }

    /** BaseModel.applyParameters. */
    method ApplyParameters(p: Pose)
      modifies this`trace
      ensures trace == old(trace) + PoseCommands(p, Offset())
    {
      trace := trace + [Translate(Vec3(p.position.x + xOffset, p.position.y + yOffset, p.position.z + zOffset))];
      trace := trace + [Rotate(p.orientation, Vec3(0.0, 0.0, 1.0))];
      trace := trace + [Scale(Vec3(p.scale, p.scale, p.scale))];
      trace := trace + [Color(p.color)];
    }

    /** The draw method of a model: BaseModel.draw for a TriangleModel, Tree.draw or
        House.draw for a composite. */
    method DrawModel(m: Model)
      modifies this`trace
      ensures trace == old(trace) + DrawTrace(m, Offset())
      decreases m, 1
    {
      if m.Triangle? {
        DrawTriangle(m);
      } else {
        DrawComposite(m);
      }
    }

    /** BaseModel.draw: push, pose, one glVertex per row between glBegin and glEnd, pop. */
    method DrawTriangle(m: Model)
      requires m.Triangle?
      modifies this`trace
      ensures trace == old(trace) + DrawTrace(m, Offset())
    {
      var vs := m.vertices;
      trace := trace + [Push];
      ApplyParameters(m.pose);
      trace := trace + [Begin];
      ghost var head := old(trace) + [Push] + PoseCommands(m.pose, Offset()) + [Begin];
      var i := 0;
      while i < |vs|
        invariant 0 <= i <= |vs|
        invariant trace == head + VertexCommands(vs[..i])
      {
        VertexCommandsSnoc(vs[..i], vs[i]);
        assert vs[..i + 1] == vs[..i] + [vs[i]];
        trace := trace + [Vertex(vs[i])];
        i := i + 1;
      }
      assert vs[..i] == vs;
      trace := trace + [End];
      trace := trace + [Pop];
    }

    /** Tree.draw and House.draw: push, pose, each component in list order, pop. */
    method DrawComposite(m: Model)
      requires m.Composite?
      modifies this`trace
      ensures trace == old(trace) + DrawTrace(m, Offset())
      decreases m, 0
    {
      var cs := m.components;
      trace := trace + [Push];
      ApplyParameters(m.pose);
      ghost var head := old(trace) + [Push] + PoseCommands(m.pose, Offset());
      var i := 0;
      while i < |cs|
        invariant 0 <= i <= |cs|
        invariant trace == head + DrawList(cs[..i], Offset())
      {
        DrawListSnoc(cs[..i], cs[i], Offset());
        assert cs[..i + 1] == cs[..i] + [cs[i]];
        DrawModel(cs[i]);
        i := i + 1;
      }
      assert cs[..i] == cs;
      trace := trace + [Pop];
    }

    /** Scene.draw: clear, draw every model in list order, flip. */
    method Draw()
      modifies this`trace
      ensures trace == old(trace) + FrameTrace(models, Offset())
    {
      trace := trace + [Clear];
      var i := 0;
      while i < |models|
        invariant 0 <= i <= |models|
        invariant trace == old(trace) + [Clear] + DrawList(models[..i], Offset())
      {
        DrawListSnoc(models[..i], models[i], Offset());
        assert models[..i + 1] == models[..i] + [models[i]];
        DrawModel(models[i]);
        i := i + 1;
      }
      assert models[..i] == models;
      trace := trace + [Flip];
    }

    /** Scene.handleInput, given the keys pygame reports as held. */
    method HandleInput(keys: set<Key>)
      modifies this`xOffset, this`yOffset
      ensures Offset() == PanStep(old(Offset()), keys, deltaTime)
    {
      if Up in keys {
        yOffset := yOffset - Speed * deltaTime;
      }
      if Down in keys {
        yOffset := yOffset + Speed * deltaTime;
      }
      if Left in keys {
        xOffset := xOffset + Speed * deltaTime;
      }
      if Right in keys {
        xOffset := xOffset - Speed * deltaTime;
      }
    }

    /** Scene.run over the given frames: returns how many iterations ran and whether the
        loop was still running when the frames ran out. */
    method Run(frames: seq<Frame>) returns (iterations: nat, running: bool)
      modifies this`trace, this`xOffset, this`yOffset, this`deltaTime
      ensures var r := RunFrames(models, Loop(old(Offset()), old(deltaTime), true, old(trace), 0), frames);
              Offset() == r.off && deltaTime == r.dt && trace == r.trace
              && iterations == r.iterations && running == r.running
    {
      ghost var start := Loop(Offset(), deltaTime, true, trace, 0);
      running := true;
      iterations := 0;
      while running && iterations < |frames|
        invariant iterations <= |frames|
        invariant RunFrames(models, Loop(Offset(), deltaTime, running, trace, iterations), frames[iterations..])
               == RunFrames(models, start, frames)
        decreases |frames| - iterations
      {
        ghost var before := Loop(Offset(), deltaTime, running, trace, iterations);
        var f := frames[iterations];
        var j := 0;
        while j < |f.events|
          invariant 0 <= j <= |f.events|
          invariant running == (Quit !in f.events[..j])
        {
          assert f.events[..j + 1] == f.events[..j] + [f.events[j]];
          if f.events[j] == Quit {
            running := false;
          }
          j := j + 1;
        }
        assert f.events[..j] == f.events;
        Draw();
        HandleInput(f.keys);
        deltaTime := f.elapsedMs as real / 1000.0;
        assert Loop(Offset(), deltaTime, running, trace, iterations + 1) == Iteration(models, before, f);
        assert frames[iterations..][1..] == frames[iterations + 1..];
        iterations := iterations + 1;
      }
      assert !running || frames[iterations..] == [];
    }
  }
}
