/** Scene.draw and the control of Scene.run, as functions of the frames the loop is
    given: one frame is the event batch pygame.event.get returns, the keys held when
    handleInput polls, and the milliseconds the clock reports at the end of the iteration. */
module FrameLoop {
  import opened Gl
  import opened Shapes
  import opened Pan

  datatype Event = Quit | OtherEvent(kind: nat)

  datatype Frame = Frame(events: seq<Event>, keys: set<Key>, elapsedMs: nat)

  /** deltaTime before the first clock tick. */
  const InitialDelta: real := 16.66

  /** The trace of Scene.draw: clear, every model in list order, flip. */
  function FrameTrace(models: seq<Model>, off: Vec3): (r: seq<Command>)
    ensures |r| >= 2 && r[0] == Clear && r[|r| - 1] == Flip
  {
    [Clear] + DrawList(models, off) + [Flip]
  }

  /** A frame presents exactly the models' painted vertices, in insertion order (later
      models paint over earlier ones), and leaves the matrix stack as it found it. */
  lemma FrameExec(models: seq<Model>, off: Vec3, s: GlState)
    requires !s.open
    ensures Exec(s, FrameTrace(models, off)) == Some(s.(rgb := ColorAfterList(models, s.rgb),
                                                        buffer := PaintedList(models, off, s.current),
                                                        shown := s.shown + [PaintedList(models, off, s.current)]))
  {
    var dl := DrawList(models, off);
    var s1 := s.(buffer := []);
    var s2 := s1.(rgb := ColorAfterList(models, s.rgb), buffer := PaintedList(models, off, s.current));
    assert FrameTrace(models, off) == [Clear] + (dl + [Flip]);
    ClearExec(s, dl + [Flip]);
    DrawListExec(models, off, s1);
    assert s1.buffer + PaintedList(models, off, s1.current) == PaintedList(models, off, s.current);
    ExecAppend(s1, dl, [Flip]);
    FlipExec(s2);
  }

  lemma ClearExec(s: GlState, t: seq<Command>)
    requires !s.open
    ensures Exec(s, [Clear] + t) == Exec(s.(buffer := []), t)
  {
    assert Step(s, Clear) == Some(s.(buffer := []));
    ExecCons(s, Clear, t);
  }

  lemma FlipExec(s: GlState)
    ensures Exec(s, [Flip]) == Some(s.(shown := s.shown + [s.buffer]))
  {
    ExecCons(s, Flip, []);
    assert [Flip] + [] == [Flip];
  }

  /** The loop's state between iterations. */
  datatype Loop = Loop(off: Vec3, dt: real, running: bool, trace: seq<Command>, iterations: nat)

  /** One iteration of the while loop: any QUIT in the batch clears running, then the
      scene is drawn at the current offset, the input step moves the offset using the
      current delta, and the delta becomes the measured milliseconds over 1000. */
  function Iteration(models: seq<Model>, st: Loop, f: Frame): (r: Loop)
    ensures r.iterations == st.iterations + 1
    ensures r.running <==> st.running && Quit !in f.events
    ensures st.trace < r.trace
  {
    Loop(PanStep(st.off, f.keys, st.dt), f.elapsedMs as real / 1000.0, st.running && Quit !in f.events,
         st.trace + FrameTrace(models, st.off), st.iterations + 1)
  }

  /** The loop run over a finite supply of frames: it stops once running is false, or
      when the frames run out (a prefix of the unbounded loop). */
  function RunFrames(models: seq<Model>, st: Loop, frames: seq<Frame>): (r: Loop)
    ensures st.iterations <= r.iterations <= st.iterations + |frames|
    ensures r.running ==> st.running
    ensures st.trace <= r.trace
    decreases |frames|
  {
    if !st.running || frames == [] then st
    else RunFrames(models, Iteration(models, st, frames[0]), frames[1..])
  }

  // ---------------------------------------------------------------------------------
  // A closed form of the loop, frame by frame.

  predicate QuitFree(frames: seq<Frame>, n: nat)
    requires n <= |frames|
  {
    forall j :: 0 <= j < n ==> Quit !in frames[j].events
  }

  /** The delta in force during iteration k. */
  function DeltaAt(dt0: real, frames: seq<Frame>, k: nat): real
    requires k <= |frames|
  {
    if k == 0 then dt0 else frames[k - 1].elapsedMs as real / 1000.0
  }

  /** The offset in force during iteration k: the one iteration k - 1's input step produced. */
  function OffsetAt(off0: Vec3, dt0: real, frames: seq<Frame>, k: nat): Vec3
    requires k <= |frames|
  {
    if k == 0 then off0
    else PanStep(OffsetAt(off0, dt0, frames, k - 1), frames[k - 1].keys, DeltaAt(dt0, frames, k - 1))
  }

  /** The trace of the first k iterations: one whole Scene.draw each, at that iteration's offset. */
  function FramesTrace(models: seq<Model>, off0: Vec3, dt0: real, frames: seq<Frame>, k: nat): seq<Command>
    requires k <= |frames|
  {
    if k == 0 then []
    else FramesTrace(models, off0, dt0, frames, k - 1) + FrameTrace(models, OffsetAt(off0, dt0, frames, k - 1))
  }

  /** The frames the first k iterations present. */
  function ShownFrames(models: seq<Model>, off0: Vec3, dt0: real, frames: seq<Frame>, k: nat, ctx: seq<Xform>): seq<seq<Mark>>
    requires k <= |frames|
  {
    if k == 0 then []
    else ShownFrames(models, off0, dt0, frames, k - 1, ctx) + [PaintedList(models, OffsetAt(off0, dt0, frames, k - 1), ctx)]
  }

  lemma {:induction false} OffsetAtShift(off0: Vec3, dt0: real, frames: seq<Frame>, k: nat)
    requires k < |frames|
    ensures OffsetAt(off0, dt0, frames, k + 1)
         == OffsetAt(PanStep(off0, frames[0].keys, dt0), frames[0].elapsedMs as real / 1000.0, frames[1..], k)
    decreases k
  {
    if k > 0 {
      OffsetAtShift(off0, dt0, frames, k - 1);
    }
  }

  lemma {:induction false} FramesTraceShift(models: seq<Model>, off0: Vec3, dt0: real, frames: seq<Frame>, k: nat)
    requires k < |frames|
    ensures FramesTrace(models, off0, dt0, frames, k + 1)
         == FrameTrace(models, off0)
          + FramesTrace(models, PanStep(off0, frames[0].keys, dt0), frames[0].elapsedMs as real / 1000.0, frames[1..], k)
    decreases k
  {
    if k > 0 {
      FramesTraceShift(models, off0, dt0, frames, k - 1);
      OffsetAtShift(off0, dt0, frames, k - 1);
    }
  }

  /** The loop stops right after the first frame that holds a QUIT (that frame is still
      drawn and its input still handled), and otherwise uses up every frame. */
  lemma {:induction false} RunStopsAfterFirstQuit(models: seq<Model>, st: Loop, frames: seq<Frame>)
    requires st.running
    ensures st.iterations <= RunFrames(models, st, frames).iterations <= st.iterations + |frames|
    ensures var r := RunFrames(models, st, frames);
            var n := r.iterations - st.iterations;
            (n > 0 ==> QuitFree(frames, n - 1))
            && (r.running <==> n == |frames| && QuitFree(frames, |frames|))
            && (!r.running ==> n > 0 && Quit in frames[n - 1].events)
    decreases |frames|
  {
    if frames != [] {
      var st1 := Iteration(models, st, frames[0]);
      if st1.running {
        RunStopsAfterFirstQuit(models, st1, frames[1..]);
        var r := RunFrames(models, st1, frames[1..]);
        var n := r.iterations - st.iterations;
        assert forall j :: 1 <= j <= |frames[1..]| ==> frames[1..][j - 1] == frames[j];
        if r.running {
          assert QuitFree(frames, |frames|);
        } else {
          assert Quit in frames[n - 1].events;
        }
      }
    }
  }

  /** After the loop, the offset, the delta and the trace are those of the closed form:
      the draw of each iteration sees the offset produced by the previous iteration's
      input step, and the first input step uses the delta the loop started with. */
  lemma {:induction false} RunClosedForm(models: seq<Model>, st: Loop, frames: seq<Frame>)
    requires st.running
    ensures st.iterations <= RunFrames(models, st, frames).iterations <= st.iterations + |frames|
    ensures var r := RunFrames(models, st, frames);
            var n := r.iterations - st.iterations;
            r.off == OffsetAt(st.off, st.dt, frames, n)
            && r.dt == DeltaAt(st.dt, frames, n)
            && r.trace == st.trace + FramesTrace(models, st.off, st.dt, frames, n)
    decreases |frames|
  {
    if frames != [] {
      var st1 := Iteration(models, st, frames[0]);
      assert RunFrames(models, st, frames) == RunFrames(models, st1, frames[1..]);
      if st1.running {
        RunClosedForm(models, st1, frames[1..]);
        var r := RunFrames(models, st1, frames[1..]);
        var n := r.iterations - st.iterations;
        assert 1 <= n <= |frames|;
        OffsetAtShift(st.off, st.dt, frames, n - 1);
        IterationTrace(models, st, frames, n - 1);
        assert r.dt == DeltaAt(st.dt, frames, n) by {
          if n - 1 > 0 {
            assert frames[1..][n - 2] == frames[n - 1];
          }
        }
      } else {
        assert RunFrames(models, st1, frames[1..]) == st1;
        assert FramesTrace(models, st.off, st.dt, frames, 1) == [] + FrameTrace(models, st.off);
      }
    }
  }

  /** The trace after the first iteration and k more is the closed form's trace of k + 1. */
  lemma IterationTrace(models: seq<Model>, st: Loop, frames: seq<Frame>, k: nat)
    requires k < |frames|
    ensures var st1 := Iteration(models, st, frames[0]);
            st1.trace + FramesTrace(models, st1.off, st1.dt, frames[1..], k)
              == st.trace + FramesTrace(models, st.off, st.dt, frames, k + 1)
  {
    FramesTraceShift(models, st.off, st.dt, frames, k);
    var rest := FramesTrace(models, PanStep(st.off, frames[0].keys, st.dt), frames[0].elapsedMs as real / 1000.0, frames[1..], k);
    assert (st.trace + FrameTrace(models, st.off)) + rest == st.trace + (FrameTrace(models, st.off) + rest);
  }

  /** An iteration whose batch holds a QUIT still draws and still handles input, and is the last. */
  lemma QuitIterationStillRuns(models: seq<Model>, st: Loop, frames: seq<Frame>)
    requires st.running && |frames| > 0 && Quit in frames[0].events
    ensures RunFrames(models, st, frames)
         == Loop(PanStep(st.off, frames[0].keys, st.dt), frames[0].elapsedMs as real / 1000.0, false,
                 st.trace + FrameTrace(models, st.off), st.iterations + 1)
  {
  }

  /** v added to itself n times. */
  function Repeat(n: nat, v: Vec3): Vec3
  {
    if n == 0 then Vec3(0.0, 0.0, 0.0) else Add(Repeat(n - 1, v), v)
  }

  lemma {:induction false} RepeatIsTimes(n: nat, v: Vec3)
    ensures Repeat(n, v) == Times(n as real, v)
    decreases n
  {
    if n > 0 {
      RepeatIsTimes(n - 1, v);
      var m := (n - 1) as real;
      assert m * v.x + v.x == (m + 1.0) * v.x;
      assert m * v.y + v.y == (m + 1.0) * v.y;
      assert m * v.z + v.z == (m + 1.0) * v.z;
    }
  }

  /** Holding the same keys through the first k iterations moves the offset by the first
      input step, taken with whatever delta the loop started with, and then k - 1 more
      steps of a quarter of d along the keys' heading, where d is the delta every clock tick
      but the last one measured. When the loop starts with d itself, that is k steps of
      0.25 * d from the start. */
  lemma SteadyKeysAccumulate(off0: Vec3, dt0: real, d: real, keys: set<Key>, frames: seq<Frame>, k: nat)
    requires 0 < k <= |frames|
    requires forall j :: 0 <= j < k ==> frames[j].keys == keys
    requires forall j :: 0 <= j < k - 1 ==> frames[j].elapsedMs as real == 1000.0 * d
    ensures OffsetAt(off0, dt0, frames, k)
         == Add(PanStep(off0, keys, dt0), Times((k - 1) as real, Times(Speed * d, Heading(keys))))
    ensures dt0 == d ==> OffsetAt(off0, dt0, frames, k) == Add(off0, Times(k as real, Times(Speed * d, Heading(keys))))
  {
    var v := Times(Speed * d, Heading(keys));
    SteadyKeysRepeat(off0, dt0, d, keys, frames, k);
    RepeatIsTimes(k - 1, v);
    if dt0 == d {
      var r := Repeat(k - 1, v);
      assert Add(Add(off0, v), r) == Add(off0, Add(r, v));
      RepeatIsTimes(k, v);
    }
  }

  lemma {:induction false} SteadyKeysRepeat(off0: Vec3, dt0: real, d: real, keys: set<Key>, frames: seq<Frame>, k: nat)
    requires 0 < k <= |frames|
    requires forall j :: 0 <= j < k ==> frames[j].keys == keys
    requires forall j :: 0 <= j < k - 1 ==> frames[j].elapsedMs as real == 1000.0 * d
    ensures OffsetAt(off0, dt0, frames, k) == Add(PanStep(off0, keys, dt0), Repeat(k - 1, Times(Speed * d, Heading(keys))))
    decreases k
  {
    var v := Times(Speed * d, Heading(keys));
    if k == 1 {
      assert frames[0].keys == keys;
      assert Add(PanStep(off0, keys, dt0), Repeat(0, v)) == PanStep(off0, keys, dt0);
    } else {
      SteadyKeysRepeat(off0, dt0, d, keys, frames, k - 1);
      assert frames[k - 1].keys == keys;
      assert DeltaAt(dt0, frames, k - 1) == d by {
        assert frames[k - 2].elapsedMs as real == 1000.0 * d;
      }
      var r := Repeat(k - 2, v);
      assert Add(Add(PanStep(off0, keys, dt0), r), v) == Add(PanStep(off0, keys, dt0), Add(r, v));
    }
  }

  /** Releasing the arrow keys stops the pan: an iteration with no arrow key held leaves
      the offset for the next one unchanged. */
  lemma ReleaseHalts(off0: Vec3, dt0: real, frames: seq<Frame>, k: nat)
    requires k < |frames|
    requires Up !in frames[k].keys && Down !in frames[k].keys && Left !in frames[k].keys && Right !in frames[k].keys
    ensures OffsetAt(off0, dt0, frames, k + 1) == OffsetAt(off0, dt0, frames, k)
  {
    NoArrowNoChange(OffsetAt(off0, dt0, frames, k), frames[k].keys, DeltaAt(dt0, frames, k));
  }

  /** Played on a context outside glBegin/glEnd, the trace of k iterations never fails,
      leaves the matrix stack and current matrix as they were, and presents k frames, the
      j-th being every model in insertion order painted at iteration j's offset. */
  lemma {:induction false} RunPresents(models: seq<Model>, off0: Vec3, dt0: real, frames: seq<Frame>, k: nat, s: GlState)
    requires k <= |frames| && !s.open
    ensures var r := Exec(s, FramesTrace(models, off0, dt0, frames, k));
            r.Some? && r.value.stack == s.stack && r.value.current == s.current && !r.value.open
            && r.value.shown == s.shown + ShownFrames(models, off0, dt0, frames, k, s.current)
    decreases k
  {
    if k == 0 {
      assert s.shown + [] == s.shown;
    } else {
      RunPresents(models, off0, dt0, frames, k - 1, s);
      var s1 := Exec(s, FramesTrace(models, off0, dt0, frames, k - 1)).value;
      var off := OffsetAt(off0, dt0, frames, k - 1);
      ExecAppend(s, FramesTrace(models, off0, dt0, frames, k - 1), FrameTrace(models, off));
      FrameExec(models, off, s1);
      assert s1.shown + [PaintedList(models, off, s.current)]
          == s.shown + ShownFrames(models, off0, dt0, frames, k, s.current);
    }
  }

  /** A new scene's run, played on a fresh GL context: the whole trace never fails, ends
      with every push popped and the identity matrix current, and presents one frame per
      iteration, each showing every model at that iteration's offset. */
  lemma NewSceneRunPresents(models: seq<Model>, frames: seq<Frame>)
    ensures var r := RunFrames(models, Loop(Origin, InitialDelta, true, [], 0), frames);
            var e := Exec(Fresh, r.trace);
            e.Some? && e.value.stack == [] && e.value.current == []
            && e.value.shown == ShownFrames(models, Origin, InitialDelta, frames, r.iterations, [])
  {
    var st := Loop(Origin, InitialDelta, true, [], 0);
    var r := RunFrames(models, st, frames);
    RunClosedForm(models, st, frames);
    RunPresents(models, Origin, InitialDelta, frames, r.iterations, Fresh);
    assert r.trace == FramesTrace(models, Origin, InitialDelta, frames, r.iterations);
  }
}
