# MultiTexture: a Dafny model of the texture-readiness draw gate

MultiTexture is a WebGL demo. It draws one quad whose colour is the per-pixel
product of two textures. The user supplies the two images one at a time, and
each can come from a file picker or from a drag-and-drop region. Images arrive
in any order. Both readiness flags start false. Each arriving image calls
`loadTexture`, which does four things in order:

- sets the readiness flag of its texture unit;
- uploads the image into that unit;
- clears the canvas;
- draws the quad, but only once both flags are true.

The model has four modules:

- `Gl` (gl.dfy): the WebGL calls the demo makes, as a datatype of commands.
  `GlContext` is a class that records every state-changing call in order.
  `Draws` and `Clears` count the commands of one kind in a stream.
- `Geometry` (geometry.dfy): the interleaved vertex table of 4 vertices × 4
  floats. It also holds the two attribute pointers (position at byte offset 0,
  texture coordinate at byte offset 8, stride 16 bytes) and `Fetch`, the index
  arithmetic that gives each vertex its attribute values.
- `DrawGate` (gate.dfy): the two flags `g_texUnit0`/`g_texUnit1` as the class
  `TextureGate`, with `loadTexture` as the method `LoadTexture`. The pure
  functions `Mark`, `LoadCommands`, `After` and `Commands` describe one call
  and any sequence of calls. The lemmas are about arbitrary call sequences.
  Every delivery runs on the single event thread, so an arbitrary sequence of
  calls covers every order in which images can arrive.
- `Startup` (startup.dfy): `main`, `initVertexBuffers` and `initTextures` as
  chains of steps that stop at the first failure. It also has the four
  image-load callbacks and a three-delivery session.

The browser supplies the answers to queries: whether a context exists,
whether the shaders compiled, buffer and texture allocation, and
attribute/uniform lookups. These answers are a `Platform` value passed in as a
parameter.

A few facts about the program that the model keeps:

- A `texUnit` other than 0 selects unit 1 and sets `g_texUnit1`.
- A start-up failure only ends `main`, after a log line.
- `loadTexture` activates its unit on every call.
- The draw uses the `n` that `initVertexBuffers` returned, which the model
  proves is 4 whenever start-up succeeds.

## Model

| member | source | states |
|---|---|---|
| `DrawGate.TextureGate.constructor` | MultiTexture.FILE.js:207 | both readiness flags start false |
| `DrawGate.TextureGate.LoadTexture` | MultiTexture.FILE.js:208-234 | the new flags are `Mark` of the old ones for `texUnit`; the commands recorded are the old ones followed by exactly `LoadCommands` for this call and the new flags |
| `DrawGate.UnitFor` | MultiTexture.FILE.js:211-217 | TEXTURE0 is activated exactly when `texUnit == 0`, TEXTURE1 for every other value |
| `DrawGate.Mark` | MultiTexture.FILE.js:211-217 | a call sets the flag of the unit it selects and leaves the other flag unchanged; no flag becomes false |
| `DrawGate.LoadCommands` | MultiTexture.FILE.js:208-234 | one call issues, in order: flip-on-unpack, activate the selected unit, bind the given texture, linear min filter, upload the given image, the sampler uniform set to exactly `texUnit`; then exactly one clear; then a draw if and only if both flags are true after the update, and nothing else (8 commands with the draw, 7 without); any draw comes after the clear and is `TRIANGLE_STRIP, 0, n` |
| `DrawGate.StepExtends` | MultiTexture.FILE.js:208-234 | one more call extends the call-sequence model by that call's flag update and commands alone |
| `DrawGate.Monotonic` | MultiTexture.FILE.js:207-217 | over any call sequence, a flag that is set stays set, and so does completion |
| `DrawGate.AfterSeen` | MultiTexture.FILE.js:207-217 | after any call sequence, flag 0 (flag 1) is set if and only if it was set at the start or some call had `texUnit == 0` (`texUnit != 0`) |
| `DrawGate.OrderIndependent` | MultiTexture.FILE.js:207-217 | two call sequences with the same calls in a different order leave identical flags |
| `DrawGate.MonotonicPrefix` | MultiTexture.FILE.js:207-217 | if both flags are set after a prefix of the calls, they are set after all of them |
| `DrawGate.AfterConcat` | MultiTexture.FILE.js:207-217 | running two call sequences one after the other gives the same flags as running their concatenation |
| `DrawGate.OneClearPerCall` | MultiTexture.FILE.js:228-229 | any sequence of k calls clears the canvas exactly k times |
| `DrawGate.DrawsAreQuad` | MultiTexture.FILE.js:231-233 | every draw any call sequence issues is `DrawArrays(TRIANGLE_STRIP, 0, n)` |
| `DrawGate.CallDrawsIff` | MultiTexture.FILE.js:231-233 | call k adds one draw if both flags are true after its own update, and no draw otherwise |
| `DrawGate.NoDrawWhileIncomplete` | MultiTexture.FILE.js:231-233 | a sequence after which either flag is still false has issued no draw at all |
| `DrawGate.RedrawEveryCall` | MultiTexture.FILE.js:231-233 | once both flags are true, each further call issues exactly one more draw |
| `DrawGate.FirstDrawAtCompletion` | MultiTexture.FILE.js:207-233 | if call k is the first after which both units have been loaded, in either order, then the calls before it drew nothing, call k drew once, and a sequence of `m` calls drew `m - k` times |
| `DrawGate.EitherOrder` | MultiTexture.FILE.js:207-233 | unit 0 then unit 1, and unit 1 then unit 0: neither first call draws, and each second call draws once |
| `Geometry.AttributeLayout` | MultiTexture.FILE.js:73-109 | with `Fetch` as the definition of what a pointer gives vertex i (the `size` floats from float `(offset + i·stride) / FSIZE`): the table holds 4 vertices of 4 floats; both pointers stay inside it for every vertex; vertex i reads its position from floats 4i..4i+1 and its texture coordinate from floats 4i+2..4i+3, which together are exactly row i with no overlap |
| `Geometry.VertexValues` | MultiTexture.FILE.js:73-79 | the four (position, texture coordinate) pairs in strip order |
| `Geometry.TextureCoversQuad` | MultiTexture.FILE.js:73-79 | every texture coordinate is its vertex's position plus (0.5, 0.5); the positions are the four distinct corners of [-0.5, 0.5]²; texture coordinate (0,0) pairs with position (-0.5,-0.5) and (1,1) pairs with (0.5,0.5) |
| `Geometry.StripSharesDiagonal` | MultiTexture.FILE.js:73-80 | in strip order, vertices 1 and 2 are the bottom-left and top-right corners, and vertices 0 and 3 are the other two corners |
| `Startup.InitVertexBuffers` | MultiTexture.FILE.js:72-113 | returns -1 or 4; returns 4 if and only if the buffer is created and both attribute lookups succeed; records exactly the calls made before the first failing step |
| `Startup.InitTextures` | MultiTexture.FILE.js:115-205 | succeeds if and only if both texture objects and both sampler locations exist; on success the callbacks capture `n` and each unit's own texture and sampler, and the canvas is cleared once; on failure nothing is issued |
| `Startup.Start` | MultiTexture.FILE.js:38-70 | the outcome and the recorded commands are those of `StartOutcome` and `StartCommands` for the platform's answers |
| `Startup.StopsAtFirstFailure` | MultiTexture.FILE.js:38-70 | `main` aborts at a step if and only if that step fails and every earlier step succeeded; it installs the listeners if and only if every step succeeds |
| `Startup.StartEffects` | MultiTexture.FILE.js:38-70 | after a successful start the callbacks get `n == 4` and the platform's textures and samplers; start-up never draws; it clears once on success and never on failure; it sets the black clear colour if and only if it got past `initVertexBuffers` |
| `Startup.SetupPointersReadTable` | MultiTexture.FILE.js:90-110 | after a successful vertex setup, the table is uploaded; every attribute pointer set reads inside the table for each of the 4 vertices and goes to one of the two looked-up locations; both locations are enabled |
| `Startup.HandlerLoad` | MultiTexture.FILE.js:134-199 | sky images, whether picked or dropped, go to unit 0 with the first texture and `u_Sampler0`; circle images go to unit 1 with the second texture and `u_Sampler1`; the image passed is the one delivered |
| `Startup.SessionDraws` | MultiTexture.FILE.js:134-234 | with `SessionLoads` as the definition of the loadTexture calls a sequence of deliveries makes (one callback call per delivery, in order): after a successful start, any sequence of deliveries draws at least once if and only if it contains both a sky image and a circle image; every draw is a 4-vertex triangle strip from vertex 0; each delivery clears once |
| `Startup.OnImageLoaded` | MultiTexture.FILE.js:142-144 | an image-load callback performs exactly the loadTexture call its listener captured, and adds one draw exactly when both flags end up true |
| `Startup.ThreeDeliveries` | MultiTexture.FILE.js:207-233 | after a successful start, a dropped circle image, then a picked sky image, then a replacement circle image leave 0, 1 and 2 draws |

## Left out

- The effects of the WebGL calls in the driver (`texImage2D` decoding and the
  vertical flip, `texParameteri`, `bufferData`, `vertexAttribPointer`,
  `enableVertexAttribArray`): foreign browser APIs, so each is recorded only
  as an opaque command in the stream.
- The fragment shader's `color0 * color1` and all shader source text: GLSL
  floating-point maths runs on the GPU, outside this program.
- `getWebGLContext` and `initShaders`: library code that is not part of this
  model. Only their success or failure is modelled, as a `Platform` field.
  Any GL calls they make are not recorded.
- The lookup queries (`createBuffer`, `getAttribLocation`, `createTexture`,
  `getUniformLocation`): their answers come from `Platform` and they are not
  recorded as commands.
- `console.log` messages on start-up failure: output only. The failure itself
  is modelled as `Aborted(failure)`.
- DOM event wiring, `FileReader` reads, `Image` loading and the
  `preventDefault` calls of the drop handlers: asynchronous I/O. Their only
  effect on the core is that some callback runs `loadTexture`. Any sequence of
  deliveries covers this (`SessionLoads`, `OnImageLoaded`).
- Decode failures and stalls: the source has no error path for these. A
  failed decode simply causes no delivery, which a shorter delivery sequence
  already covers.
- The four image listeners are installed and captured as a `Listeners` value.
  The model does not register callbacks with an event system.
