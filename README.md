# Articulated hand renderer: keyboard state, mesh loading and the frame

`main.cpp` renders a hand-like hierarchy: a root block, four arm segments, a torus, a wrist, three fingers and three fingertips. Five meshes are loaded at start-up. Eleven global scalars drive the animation and the camera. This project models three pieces of that program and proves what they promise:

- **`keypress`** (`controls.dfy`, module `Controls`). The eleven globals are the fields of the class `Controls.Scene`. The callback is the method `Scene.Keypress`: twelve sequential tests, each adding a fixed step to one field. It is proved against the specification function `Controls.Apply`, which looks up the pure key table `BindingOf`. The lemmas about `Apply` and `ApplyAll` (a sequence of presses) cover:
  - an unknown key is a no-op;
  - a recognised key changes exactly one parameter by its step;
  - five parameters are never touched by any key;
  - inverse keys cancel and any two presses commute;
  - values grow without bound.
- **`load_mesh`** (`meshes.dfy`, module `Meshes`). The importer's result is an `Option` of a sequence of meshes; `None` is a failed import. `LoadMesh` keeps the source's two nested loops. The inner loop is the method `AppendVertices`. Both are proved against the functions `PointCount` and `Flat`:
  - a failed import gives the empty record;
  - otherwise the point count is the sum of the vertex counts;
  - each stream is the concatenation, in mesh order and then vertex order, of the arrays of the meshes that have that attribute.

  Lemmas then relate the stream lengths to the point count.
- **`display`** (`scene_graph.dfy` and `render.dfy`, modules `SceneGraph` and `Render`). The hierarchy is written once, declaratively: each node's parent, mesh, local transform recipe and the parameters that recipe reads. `Render.Display` is the straight-line computation of `display()`: thirteen model matrices and thirteen draws, each with its bound vertex array, point count and model matrix. `DisplayFollowsGraph` proves that this computation is exactly the frame the graph prescribes. Further lemmas derive:
  - the parent-before-child order;
  - the mesh binding sequence 0,0,0,0,0,4,1,2,2,2,3,3,3;
  - `model = parent * local`;
  - which key press can change which draw.

The matrix library (`identity_mat4`, `translate`, `rotate_*_deg`, `perspective`, `operator*`) is modelled in `maths.dfy` as the free term datatype `Maths.Mat`. Every matrix is the call tree that built it. An equality proved between two such terms therefore holds whatever the library computes, and nothing is assumed about its arithmetic. The converse does not carry over: `!=` between two `Mat` values compares call trees, not matrices. For example, `Translate(Identity, Vec3(0.0, 0.0, 0.0))` and `Identity` are different terms. So the "moving this parameter changes the matrix" lemmas say that the parameter occurs in the matrix's construction. They do not say that the numeric matrix differs.

GLfloat values are modelled as `real`. The key steps (1, 2 and 5) are exact in single precision while a parameter's magnitude stays below 2^24.

The draw sequence follows the code, which issues 13 draws per frame.

## Model

| member | source | states |
|---|---|---|
| Controls.Scene.constructor | main.cpp:62-73 | every one of the eleven animation and root globals starts at 0 |
| Controls.Scene.Keypress | main.cpp:464-518 | the new field values are exactly `Apply(old values, key)`: the recognised key's parameter moves by its step and every other field is untouched |
| Controls.BindingOf | main.cpp:465-517 | a key has a binding if and only if it is one of the twelve recognised characters; every bound parameter is outside the five never-touched ones and every step is non-zero |
| Controls.Params.Set | main.cpp:62-73 | replacing one parameter gives that parameter the new value and leaves the other ten as they were |
| Controls.Apply | main.cpp:464-518 | no contract of its own: one key press on a parameter snapshot, looked up in BindingOf. Scene.Keypress is proved to equal it, and the Controls lemmas below state its properties |
| Controls.Inverse | main.cpp:465-517 | every recognised key has a distinct partner key bound to the same parameter with the opposite step |
| Controls.InverseInvolutive | main.cpp:465-517 | a key's partner's partner is the key itself |
| Controls.UnknownKeyIsNoOp | main.cpp:464-518 | a key outside the twelve leaves every parameter unchanged |
| Controls.KeyChangesExactlyOne | main.cpp:465-517 | a recognised key adds its step to its own parameter, so that parameter really changes, and leaves the other ten unchanged |
| Controls.UntouchedParamsNeverChange | main.cpp:464-518 | after any sequence of key presses, rootRotx, rootRotz, rotate_x, rotate_y and rotate_z still hold their old values |
| Controls.InversePairCancels | main.cpp:465-517 | pressing a key and then its partner restores the whole parameter state; since the partner of the partner is the key, this covers both orders |
| Controls.KeysCommute | main.cpp:465-517 | any two key presses give the same state in either order |
| Controls.RepeatAccumulatesAt | main.cpp:465-517 | n presses of one key add n steps to its parameter and nothing to any other one |
| Controls.RepeatAccumulates | main.cpp:465-517 | n presses of a recognised key give the old state with that parameter increased by n steps |
| Controls.StepsIsProduct | main.cpp:465-517 | n steps of size d sum to n·d |
| Controls.StepsAtLeast | main.cpp:465-517 | n steps of magnitude at least 1 move at least n units, in the step's direction |
| Controls.KeyIsUnbounded | main.cpp:465-517 | no clamping: for every bound there is a number of presses that moves the key's parameter at least that far |
| Controls.StepMagnitude | main.cpp:467-516 | every step in the key table is at least one unit in size |
| Controls.ApplyAt | main.cpp:465-517 | one press adds its step to its own parameter and zero to every other |
| Controls.ShiftedAt | main.cpp:62-73 | a state that differs from another by s at one parameter only equals that state with the parameter set to old value + s |
| Controls.ParamsExtensional | main.cpp:62-73 | two states agreeing on all eleven parameters are equal |
| Meshes.LoadMesh | main.cpp:80-130 | a failed import returns the default record (count 0, three empty streams); otherwise the point count is the sum of all meshes' vertex counts and each stream is the concatenation, mesh by mesh, of the arrays present (texture coordinates cut to their first two components) |
| Meshes.AppendVertices | main.cpp:106-125 | one mesh's vertex loop appends to each stream exactly that mesh's array for the attribute if it has one, and nothing otherwise; the point count is untouched |
| Meshes.StreamLength | main.cpp:102-118 | a stream never holds more entries than the point count, and holds exactly as many if and only if every mesh with vertices has that attribute |
| Meshes.PositionsAndNormalsAligned | main.cpp:102-118 | when every mesh has positions and normals, the position stream, the normal stream and the point count are all the same length |
| Meshes.FlatAt | main.cpp:102-118 | when every mesh has the attribute, vertex k of mesh i sits at offset (vertices of meshes 0..i-1) + k: mesh order first, then vertex order |
| Meshes.TakeStep | main.cpp:106-118 | one vertex step extends the prefix of a present array by that vertex's entry and leaves the prefix of an absent array empty |
| Meshes.TakeWhole | main.cpp:106-118 | after numVertices steps the prefix is the mesh's whole array, or empty if the array is absent |
| Meshes.StreamStep | main.cpp:107-114 | after one vertex step, appending the present entry keeps the stream equal to the base followed by the array's prefix |
| Meshes.TexStep | main.cpp:115-118 | the same for texture coordinates, which keep two components |
| Meshes.ToVec2sSnoc | main.cpp:116-117 | cutting a stream to two components commutes with appending one entry |
| SceneGraph.IndexOf | main.cpp:299-400 | every node has a position in the draw order at which it is found |
| SceneGraph.MeshOf | main.cpp:299-400 | every node's mesh is one of the five loaded meshes |
| SceneGraph.Local | main.cpp:305-398 | no contract of its own: each node's local recipe, the library calls that build it from the identity. LocalReadsOnly, RecipeUsesReads and LocalIgnores state which parameters it uses |
| SceneGraph.DrawOrderIsPermutation | main.cpp:299-400 | the draw order lists thirteen nodes, with none repeated and every node present |
| SceneGraph.ParentDrawnFirst | main.cpp:318-400 | every parent is computed and drawn before its children |
| SceneGraph.WorldIsChain | main.cpp:305-398 | each node's model matrix is the left-to-right product of the local recipes along its path from the root |
| SceneGraph.Hierarchy | main.cpp:318-398 | the chain is root, arm1 to arm4, torus, wrist; fingertip i hangs off finger i, which hangs off the wrist |
| SceneGraph.LocalReadsOnly | main.cpp:305-398 | a node's local recipe depends only on the parameters it lists as read |
| SceneGraph.RecipeUsesReads | main.cpp:305-398 | every parameter a node lists as read does occur in its recipe: moving it changes the recipe |
| SceneGraph.WorldReadsOnly | main.cpp:305-398 | a node's model matrix depends only on the parameters read along its path from the root |
| SceneGraph.WorldUsesReads | main.cpp:305-398 | every parameter read on a node's path occurs in its model matrix: moving it by one unit changes the matrix's call tree |
| SceneGraph.LocalIgnores | main.cpp:305-398 | a recipe that does not read a parameter is the same whatever value that parameter holds |
| SceneGraph.WorldIgnores | main.cpp:305-398 | a model matrix whose path does not read a parameter is the same whatever value that parameter holds |
| SceneGraph.MovesIffReads | main.cpp:305-398 | moving a parameter by one unit changes a node's model matrix if and only if the parameter is read on the node's path |
| SceneGraph.RootRotationsReachAll | main.cpp:305-309 | the three root rotations are read on every node's path, and moving any of them changes every node's model matrix |
| SceneGraph.ArmAngleReach | main.cpp:332-335 | rotate_z is read by a node, and moving it changes the node's model matrix, if and only if the node is arm3 or drawn after it |
| SceneGraph.WristAngleReach | main.cpp:353-358 | rotatewrist is read by a node, and moving it changes the node's model matrix, if and only if the node is the wrist or drawn after it |
| SceneGraph.FingerAngleReach | main.cpp:363-367 | rotatefinger is read by, and changes the model matrix of, exactly finger1 and fingertip1 |
| SceneGraph.UnreadParams | main.cpp:301-313 | the root translations and rotate_x, rotate_y are read on no node's path |
| SceneGraph.UnreadParamsMoveNothing | main.cpp:301-313 | setting a root translation, rotate_x or rotate_y to any value leaves every model matrix unchanged |
| Render.Display | main.cpp:284-403 | no contract of its own: the straight-line computation of display(). DisplayFollowsGraph proves it is the frame the graph prescribes |
| Render.DisplayFollowsGraph | main.cpp:284-403 | the frame display() computes has the fixed projection, the view built from the root translation, and thirteen draws, the i-th being node i's mesh, that mesh's point count and the node's model matrix |
| Render.ArmDraws | main.cpp:299-360 | draws 0 to 6 (root, four arm segments, torus, wrist) are the ones the graph prescribes |
| Render.HandDraws | main.cpp:362-400 | draws 7 to 12 (three fingers, three fingertips) are the ones the graph prescribes |
| Render.DrawsInOrder | main.cpp:299-400 | thirteen draws matching the nodes one by one are the prescribed draws in draw order |
| Render.FrameComposesParent | main.cpp:322-398 | in the frame, each non-root node's uploaded model matrix is its parent's uploaded model matrix times its own local recipe, and the parent is drawn earlier |
| Render.BoundSequence | main.cpp:299-383 | the bound-array sequence has one entry per draw, the array bound for that draw |
| Render.FrameMeshBinding | main.cpp:299-400 | the bound arrays are 0,0,0,0,0,4,1,2,2,2,3,3,3, and each draw's count is the point count of the mesh whose array is bound |
| Render.MeshInOrder | main.cpp:299-383 | the i-th drawn node uses the i-th mesh of that sequence |
| Render.EmptyMeshDrawsNothing | main.cpp:93-96 | a mesh whose import failed is drawn with count 0 wherever it is bound |
| Render.KeyPressRedraws | main.cpp:284-403 | after a key press the projection is unchanged, the view is unchanged unless a root translation moved, and every draw whose model matrix does not read the moved parameter is unchanged |
| Render.TranslationKeysMoveOnlyView | main.cpp:306 | a translation key leaves all thirteen draws unchanged and changes only the view |

## Left out

- `updateScene` (main.cpp:406-427) is not modelled. It reads a clock and uses `fmodf` on floats. `rotate_x`, `rotate_y` and `rotate_z` are therefore free inputs of `Display`.
- Shader loading and compilation (main.cpp:136-235) are left out. They are GL and file I/O.
- `generateObjectBufferMesh` (main.cpp:240-280) is left out. It uploads buffers to the GPU. The model records only which vertex array is bound and how many points are drawn.
- `init` and `main` (main.cpp:430-461, 520-545) are left out: window and callback setup, and the five `load_mesh` calls. `Display` takes the five loaded records as a parameter instead.
- GL state changes in `display` (depth test, clear colour, program, uniform lookups, buffer swap) are not modelled. The frame records only the uniforms and draws.
- Diagnostic printing in `load_mesh` (main.cpp:94, 98-100, 104) is left out.
- Scene.Keypress: the mouse coordinates `x` and `y`, which the callback ignores, are not parameters.
- Controls.KeyIsUnbounded: the accumulation is unbounded only in the real-valued model. In GLfloat, `rootTransx += 1` stops changing once the value reaches 2^24.
- Scene.Keypress: GLfloat rounding is not modelled. The fields are reals, so the cancellation and accumulation lemmas hold exactly. On hardware they also hold exactly while the values stay below 2^24.
- Meshes.LoadMesh: `size_t` wrap-around of the point count sum (`mPointCount`, main.cpp:41, added to at main.cpp:105) is not modelled; counts are unbounded naturals.
- Meshes.LoadMesh: vertex components are copied as opaque values. The tangent branch (main.cpp:119-124) is empty in the source and is not modelled.
- Meshes.LoadMesh: it requires each array the importer supplies to hold one entry per vertex, which is the importer's own guarantee. `aiImportFile` itself is foreign.
- Maths.Mat: the matrix library's arithmetic is not modelled. Only the call trees that build the matrices are compared. Equal call trees mean equal matrices, but different call trees can still denote the same matrix. So the inequality lemmas, such as RecipeUsesReads, WorldUsesReads and the second ensures of TranslationKeysMoveOnlyView, are facts about call trees only.
- Render.Display: the point count is converted to GLsizei, a signed 32-bit int, at each glDrawArrays call (main.cpp:315-400). Counts of 2^31 or more, which that conversion would make negative or cut short, are not modelled; a draw records the count as an unbounded natural.
- Render.Display: modelled as a function that returns the frame, not as a sequence of GL calls. The order of the draws is the order of the frame's draw list.
