# Worksheet 1 scene graph, modelled in Dafny

This project models the logic of `Worksheet1/ecm3423_ws1.py`, which sits between its OpenGL
and pygame calls. `Scene` keeps an ordered list of models. `Scene.draw` clears the screen,
draws every model, then flips the display. A `TriangleModel` draws one `GL_TRIANGLES` batch
under its pose. A `Tree` or `House` applies its pose and then draws its triangle components.
`Scene.handleInput` pans the global offset with the arrow keys. `Scene.run` repeats draw,
input and clock until the window is closed.

Every GL call the draw methods make, and `pygame.display.flip`, becomes a `Command`
appended to a trace (`gl.dfy`). `Exec` runs a
trace over the fixed-function state those calls touch. That state is the modelview matrix
stack, the current colour, whether a `glBegin` is open, the back buffer and the presented
frames. Matrices are kept symbolically, as the list of translate, rotate and scale factors
multiplied onto the identity. This makes "the stack is restored" and "this vertex was
submitted under these transforms in this colour" statements that can be proved.

- `shapes.dfy` (module `Shapes`): poses and models (`Triangle` and `Composite`), and the
  `TriangleModel`, `Tree` and `House` constructors with their literal components. It also
  holds `DrawTrace`, the trace each `draw()` emits. `Painted` is a separate reference meaning:
  every vertex of every leaf, depth first, under the enclosing poses, in the leaf's own colour.
- `pan.dfy` (module `Pan`): `PanStep`, the offset after one `handleInput`, defined as the
  old offset plus `0.25 * deltaTime` along the heading of the held arrow keys.
- `frameloop.dfy` (module `FrameLoop`): the trace of `Scene.draw`. It also holds one loop
  iteration and the loop run over a finite list of frames. A frame is an event batch, the
  held keys, and the elapsed milliseconds. Beside the loop sits a per-iteration closed form
  (`OffsetAt`, `DeltaAt`, `FramesTrace`) and the lemmas connecting the two.
- `scene.dfy` (module `Scenes`): the class `Scene`. It holds `models`, the module globals
  `x_offset`, `y_offset`, `z_offset` and `deltaTime`, and the trace. Its methods follow the
  source step by step and are proved against the functions above.

Four places where the code is easy to misread, and what the model does:

- `glPushMatrix` saves matrices only. After a model is drawn, the current colour is that
  model's last `glColor`, not the colour before the call. `DrawExec` states this.
- `TriangleModel` does not check that it has three rows. Any number of rows is accepted
  and each is drawn.
- An iteration whose event batch holds `QUIT` still draws and still handles input. Only
  the next iteration is skipped.
- `deltaTime` starts at 16.66 (line 13). That looks like milliseconds, but after the first
  tick it holds elapsed milliseconds divided by 1000, which is seconds. The model keeps
  16.66 as written.

## Model

| member | source | states |
|---|---|---|
| `Shapes.TriangleModel` | Worksheet1/ecm3423_ws1.py:174-179 | the leaf holds the given position, orientation, scale, colour and vertex rows, defaulting to the origin, 0 degrees, scale 1, white and the three default rows |
| `Shapes.Tree` | Worksheet1/ecm3423_ws1.py:181-192 | a composite whose pose is the given position, orientation and scale in white, and whose components are the five fixed triangles, whatever the arguments |
| `Shapes.House` | Worksheet1/ecm3423_ws1.py:207-223 | a composite whose pose is the given position, orientation and scale in white, and whose components are the nine fixed triangles, whatever the arguments |
| `Shapes.PoseCommands` | Worksheet1/ecm3423_ws1.py:127-137 | applyParameters issues four calls, all matrix multiplies or a colour: first translate by position plus pan offset, last the pose's colour |
| `Shapes.DrawTrace` | Worksheet1/ecm3423_ws1.py:140-165 | the calls `m.draw()` makes: push, the pose, then for a leaf begin, one vertex per row, end (lines 153-162), or for a Tree or House each component's draw in order (lines 201-202 and 232-233), then pop |
| `Shapes.DrawList` | Worksheet1/ecm3423_ws1.py:201-202 | the calls of drawing each model of a list, one after another in list order |
| `Shapes.PoseExec` | Worksheet1/ecm3423_ws1.py:127-137 | applyParameters multiplies translate by position plus pan offset, then rotate about z, then uniform scale onto the current matrix; it makes the pose's colour current; it touches nothing else |
| `Shapes.VerticesExec` | Worksheet1/ecm3423_ws1.py:153-162 | between glBegin and glEnd, each vertex row becomes exactly one submitted vertex, in row order, under the current matrix and colour |
| `Shapes.DrawExec` | Worksheet1/ecm3423_ws1.py:140-165 | drawing any model, leaf or composite, never fails and restores the matrix stack and current matrix, on every path including an empty component list; the buffer gains exactly `Painted(m)`; only the colour is left changed |
| `Shapes.DrawListExec` | Worksheet1/ecm3423_ws1.py:201-202 | drawing a component list draws each component in list order, restoring the stack after each |
| `Shapes.DrawCounts` | Worksheet1/ecm3423_ws1.py:194-204 | a model emits one Push and one Pop per node and one Begin and one End per leaf: a leaf one pair, a composite its own pair plus its components' |
| `Shapes.LeafPainted` | Worksheet1/ecm3423_ws1.py:153-162 | a leaf paints one vertex per row, in row order, in its own colour, under the enclosing matrix plus its own pose |
| `Shapes.PaintedUnderOwnPose` | Worksheet1/ecm3423_ws1.py:127-137 | every vertex a model paints lies under the model's own translate (position plus pan offset), rotate and scale |
| `Shapes.ComponentVertexPainted` | Worksheet1/ecm3423_ws1.py:194-204 | a component's vertex is painted under the composite's translate by its position plus the offset, then the component's translate by its position plus the offset again: the pan is added at every level |
| `Shapes.FlatCompositeCounts` | Worksheet1/ecm3423_ws1.py:186-192 | a composite of three-row triangles has one node per component and paints three vertices per component |
| `Shapes.DefaultTriangle` | Worksheet1/ecm3423_ws1.py:174-179 | a TriangleModel with default vertices paints exactly 3 vertices with one Push/Pop pair |
| `Shapes.TreeParts` | Worksheet1/ecm3423_ws1.py:181-192 | a Tree is a white pose around 5 triangles: 6 Push/Pop pairs and 15 vertices |
| `Shapes.HouseParts` | Worksheet1/ecm3423_ws1.py:207-223 | a House is a white pose around 9 triangles: 10 Push/Pop pairs and 27 vertices |
| `Pan.PanStep` | Worksheet1/ecm3423_ws1.py:72-81 | the offset after one handleInput: a quarter of deltaTime per held arrow key along its axis; z_offset is never touched |
| `Pan.SingleKeys` | Worksheet1/ecm3423_ws1.py:74-81 | UP subtracts 0.25·deltaTime from y, DOWN adds it, LEFT adds it to x, RIGHT subtracts it |
| `Pan.NoArrowNoChange` | Worksheet1/ecm3423_ws1.py:72-81 | z_offset never changes; with no arrow key held, the offset does not change |
| `Pan.OppositeKeysCancel` | Worksheet1/ecm3423_ws1.py:74-81 | UP with DOWN, and LEFT with RIGHT, cancel exactly |
| `Pan.KeysCompose` | Worksheet1/ecm3423_ws1.py:74-81 | simultaneous keys add: the vertical step followed by the horizontal step |
| `FrameLoop.FrameTrace` | Worksheet1/ecm3423_ws1.py:49-66 | the calls of Scene.draw: glClear first, pygame.display.flip last, each model's draw in between in list order |
| `FrameLoop.Iteration` | Worksheet1/ecm3423_ws1.py:92-101 | one pass of the while loop: one more iteration; still running only if it was and no event of the batch is QUIT; one Scene.draw appended to the trace |
| `FrameLoop.RunFrames` | Worksheet1/ecm3423_ws1.py:91-101 | the loop from running = True: iterates while running and frames remain; it never runs more iterations than frames, never restarts once stopped, and only extends the trace |
| `FrameLoop.FrameExec` | Worksheet1/ecm3423_ws1.py:49-66 | a Scene.draw trace clears and presents exactly the models' vertices, in models order (later ones paint over earlier ones), and leaves the matrix stack as it was |
| `FrameLoop.RunStopsAfterFirstQuit` | Worksheet1/ecm3423_ws1.py:91-101 | the loop runs exactly up to and including the first iteration whose batch has a QUIT; with no QUIT it uses every frame and is still running |
| `FrameLoop.RunClosedForm` | Worksheet1/ecm3423_ws1.py:92-101 | each iteration draws once at the offset from the previous iteration's input step; the first input step uses the initial deltaTime, and step k uses frame k-1's elapsed/1000 |
| `FrameLoop.QuitIterationStillRuns` | Worksheet1/ecm3423_ws1.py:94-101 | an iteration with QUIT still draws and handles input, then the loop stops |
| `FrameLoop.SteadyKeysAccumulate` | Worksheet1/ecm3423_ws1.py:74-101 | holding the same keys through the first k iterations gives the first input step at the starting deltaTime, then k - 1 steps of 0.25·d along the keys' heading when the clock measured d each time; when the start delta is d, that is k steps from the start |
| `FrameLoop.ReleaseHalts` | Worksheet1/ecm3423_ws1.py:72-81 | an iteration with no arrow key held leaves the next iteration's offset unchanged |
| `FrameLoop.RunPresents` | Worksheet1/ecm3423_ws1.py:92-101 | the trace of k iterations never fails on a fresh stack, restores it, and presents k frames; frame j shows every model in order at iteration j's offset |
| `FrameLoop.NewSceneRunPresents` | Worksheet1/ecm3423_ws1.py:83-101 | the run of a new scene (offset at the origin, deltaTime 16.66, nothing drawn), played on a fresh GL context, never fails, pops every push, leaves the identity matrix current, and presents one frame per iteration |
| `Scenes.Scene.constructor` | Worksheet1/ecm3423_ws1.py:10-39 | no models, offsets (0, 0, 0), deltaTime 16.66, nothing drawn |
| `Scenes.Scene.AddModel` | Worksheet1/ecm3423_ws1.py:41-47 | models becomes old models + [model]; offsets, deltaTime and trace do not change |
| `Scenes.Scene.ApplyParameters` | Worksheet1/ecm3423_ws1.py:127-137 | appends exactly translate(position + offset), rotate(orientation, 0, 0, 1), scale(s, s, s), color, in that order |
| `Scenes.Scene.DrawModel` | Worksheet1/ecm3423_ws1.py:59-60 | dispatching `model.draw()` appends exactly that model's draw trace |
| `Scenes.Scene.DrawTriangle` | Worksheet1/ecm3423_ws1.py:140-165 | BaseModel.draw appends push, pose, begin, one vertex per row, end, pop |
| `Scenes.Scene.DrawComposite` | Worksheet1/ecm3423_ws1.py:194-204 | Tree.draw (and House.draw, lines 225-235, the same code) appends push, pose, each component's trace in order, pop |
| `Scenes.Scene.Draw` | Worksheet1/ecm3423_ws1.py:49-66 | appends the frame trace for the current models and offset: clear, each model in order, flip |
| `Scenes.Scene.HandleInput` | Worksheet1/ecm3423_ws1.py:68-81 | the sequential key tests produce exactly `PanStep` of the old offset |
| `Scenes.Scene.Run` | Worksheet1/ecm3423_ws1.py:83-101 | offsets, deltaTime, trace, iteration count and running flag afterwards are those of `RunFrames` from the state before the call |

## Left out

- Window and context setup (`pygame.init`, `set_mode`, `glViewport`, `glClearColor`, lines 28-35) is I/O plumbing and not modelled.
- OpenGL itself is only modelled as the interpreter `Exec`. It does no rasterisation, no pixel overpaint and no matrix arithmetic. Paint order is the order of the `Mark`s in the buffer.
- The modelview stack depth limit of OpenGL is not modelled. The scene nests at most two levels.
- `glVertex` outside `glBegin`/`glEnd` is treated as a failing call. OpenGL leaves its effect undefined.
- `pygame.key.get_pressed` and `pygame.event.get` are replaced by inputs: a key set, and one event list per iteration.
- `gameClock.tick()` and `get_time()` are replaced by the elapsed milliseconds of each frame, given as input.
- Floating point and numpy `float32` rounding are not modelled: coordinates, offsets and deltas are exact reals.
- The random placement of 500 trees and 20 houses in `__main__` (lines 238-249) is not modelled.
- Python's shared mutable default arguments are not modelled. No instance mutates its vertices or position, so sharing is not observable.
- `Scenes.Scene.constructor`: the pan offsets and `deltaTime` are module globals (lines 10 and 13) that `Scene.__init__` (lines 21-39) never sets. The model makes them fields that the constructor initialises. So the model does not capture that a second `Scene` would inherit the first one's offsets and delta. The program builds only one `Scene` (line 240), so this makes no difference to it.
- `Scenes.Scene.Run`: the source loop is unbounded. The model runs it over a finite list of frames. If no frame holds a QUIT, it reports that the loop is still running when the frames run out.
