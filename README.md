# lensflaregen-rs: a verified model of the rendering core

lensflaregen-rs renders a lens-flare effect with OpenGL. It has these parts:

- A flare: a screen quad tinted with a colour.
- A list of ghosts: reflections of the flare mirrored through the image centre.
- The `gl_wrapper` layer that the flare and the ghosts draw through: geometry, shaders, textures and framebuffers.
- The shader library that compiles the three GLSL programs.

This project models that core in Dafny.

**GL calls as a command trace.**
- Every operation that talks to the GL returns the sequence of GL calls it issues, as a `seq<Cmd>`.
- Everything the driver answers comes from a `Driver` value passed in:
  - a compile log or a link log;
  - a uniform location;
  - whether a framebuffer is complete.
- GL object names (vertex arrays, buffers, textures, shader objects) are parameters.
- A Rust panic (`panic!`, `unwrap`, `assert_eq!`) is the terminal command `Panic(reason)`.
  - `Gl.Then` composes two steps, and drops the second when the first panicked.
  - Operations that also return a value give `None` exactly when they panicked.

**Meaning of a trace.** The module `GlState` interprets a trace over a small GL state:
- the bound framebuffer, program, vertex array and textures;
- the active unit;
- texture storage;
- the clear colour and the clears;
- the draw calls.

This gives each trace an independent meaning. The lemmas prove what a drawing operation does to that state: which framebuffer it clears, which draw calls it issues, and what storage a texture gets.

**Classes and in-place updates.** Where the Rust code mutates a value in place, the model is a class with those fields:
- the framebuffer's `bound` flag;
- the shader builder's include list;
- the flare's position and colour;
- the effect's ghost list.

Loops are methods proved against a specification function:
- the attribute loop of `GeometryBuilder::build`;
- the source-list loop of `compile_shader`;
- the blade loop of `gen_ghost_geo`;
- the ghost loop of `Effect::draw`.

**Two copies of the GL wrapper.** The repository has the `gl_wrapper` crate (gl_wrapper/src/) and an older in-tree module (src/gl_wrapper/). Where the in-tree code does exactly what the crate does, one member models both:
- `set_float_uniform` (src/gl_wrapper/shader.rs:57-69) is `Shaders.SetFloatUniform`;
- the data-type mapping (src/gl_wrapper/texture.rs:72-86) is `Texture.GlType`;
- `bind` (src/gl_wrapper/texture.rs:43-48) is `Texture.Bind`, with `Texture.BindEffect`.

Where the in-tree code differs, the modules `LegacyShader` and `LegacyTexture` model it.

**Rust integer widths.**
- `u32` and `u8` are subset types.
- `as i32` casts are two's-complement reinterpretations (`Gl.AsI32`).
- `as u32` truncations are written out.

**Where the documented design and the code differ, the model follows the code:**
- **Vertex data.** `GeometryBuilder::build` does not reject vertex data whose length is not a multiple of the stride. The integer division truncates the vertex count (src/gl_wrapper/geometry.rs:94).
- **Shader stages.** `ShaderBuilder::build` deletes the two stage objects only after a successful link. When linking fails, the stages are left alive (gl_wrapper/src/shader.rs:193-203).
- **Shader sources.** The sources are the version line, the common code and the stage source, in that order. There are no feature defines, and no newline is inserted between the parts.
- **Which `ShaderBuilder`.** src/lfg/shader_lib.rs imports `ShaderBuilder` from the in-tree `gl_wrapper::shader`, which has no such type. The model uses the `ShaderBuilder` of the `gl_wrapper` crate (gl_wrapper/src/shader.rs).
- **Which `Geometry`.** src/lfg/ghost.rs:3-6 imports `Geometry` and `Shader` from the `gl_wrapper` crate, whose geometry.rs is not part of this model. The model builds the ghost fan and the quad with the in-tree src/gl_wrapper/geometry.rs, the `Geometry` that src/lfg/flare.rs uses.
- **The ghost pass in `Effect::draw`.** `Effect::draw` calls `ghost.draw` with the program alone, a signature `Ghost` does not have. The ghost pass is therefore a parameter of `Effect.Effect.Draw`.
- **The frame counter.** `draw_dispersed` reads a frame counter that `WindowState` does not declare. The frame number is a parameter.

## Model

| member | source | states |
|---|---|---|
| Gl.AsI32 | src/gl_wrapper/framebuffer.rs:25-26 | an `as i32` cast of a u32 lies in the i32 range, is congruent to the input modulo 2^32, and is the input itself below 2^31 |
| Gl.ShaderTypeToGl | gl_wrapper/src/shader.rs:104-111 | vertex stages map to VERTEX_SHADER and fragment stages to FRAGMENT_SHADER, each iff |
| Geometry.ToGlEnum | src/gl_wrapper/geometry.rs:107-115 | each geometry type maps to its own primitive enum, iff |
| Geometry.NewBuilder | src/gl_wrapper/geometry.rs:37-43 | a new builder keeps the data, has no attributes and draws triangles |
| Geometry.WithMode | src/gl_wrapper/geometry.rs:45-48 | only the mode changes |
| Geometry.WithAttributes | src/gl_wrapper/geometry.rs:50-53 | the attributes are the old ones followed by the new ones, element by element; data and mode unchanged |
| Geometry.DrawIssuesOneDraw | src/gl_wrapper/geometry.rs:13-18 | `Geometry.Draw` issues exactly one draw call, through the geometry's vertex array, with its mode and its count as i32 |
| Geometry.Total | src/gl_wrapper/geometry.rs:71 | the fold returns the stride: the sum of the components of all attributes |
| Geometry.Build | src/gl_wrapper/geometry.rs:55-97 | the loop issues the trace and the geometry the specification functions give; it yields None iff it panicked |
| Geometry.AttribCmdsAt | src/gl_wrapper/geometry.rs:71-85 | attribute i is declared at index i with its size, the stride and the running offset, and then enabled |
| Geometry.AttributeWithinStride | src/gl_wrapper/geometry.rs:71-85 | every attribute ends within the stride, and the last ends exactly at it |
| Geometry.BuiltCount | src/gl_wrapper/geometry.rs:94 | the vertex count is the data length divided by the stride, truncated; exact when the stride divides the length |
| Geometry.Quad | src/gl_wrapper/geometry.rs:125-137 | the quad is a triangle strip of 4 vertices and its build never panics |
| Shaders.BindEffect | gl_wrapper/src/shader.rs:19-23 | `Shaders.Bind` makes the program current and changes nothing else |
| Shaders.GetUniformLocation | gl_wrapper/src/shader.rs:66-79 | a location is returned iff the name has no NUL and the driver knows it; a NUL gives the zero-bytes error |
| Shaders.SetFloatUniform | gl_wrapper/src/shader.rs:25-37 | the uniform is set iff it exists and the vector has 1 to 4 components; otherwise a single panic, `InvalidVectorSize` when the uniform exists |
| Shaders.SetIntUniform | gl_wrapper/src/shader.rs:39-51 | the integer uniform is set iff it exists and the vector has 1 to 4 components; otherwise a single panic, `InvalidVectorSize` when the uniform exists |
| Shaders.MatrixDim | gl_wrapper/src/shader.rs:55-61 | a dimension exists iff the length is 4, 9 or 16, and its square is the length |
| Shaders.SetMatrixUniform | gl_wrapper/src/shader.rs:53-64 | the matrix uniform is set iff it exists and the length is 4, 9 or 16; otherwise a single panic, `InvalidMatrixSize` when the uniform exists |
| Shaders.CompileStage | gl_wrapper/src/shader.rs:113-148 | the loop over the sources issues the compile trace; the result is the compiled stage, and None iff it panicked |
| Shaders.ShaderBuilder.constructor | gl_wrapper/src/shader.rs:165-171 | a new builder holds both sources, with the version line as its only include |
| Shaders.ShaderBuilder.WithCommonCode | gl_wrapper/src/shader.rs:173-176 | the include is appended after the existing ones |
| Shaders.ShaderBuilder.Build | gl_wrapper/src/shader.rs:178-209 | the build issues the build trace and returns the specified program or error |
| Shaders.BuildOkIff | gl_wrapper/src/shader.rs:178-209 | the build succeeds iff both stages compile and the program links; None iff the trace panicked |
| Shaders.BuildNonEmpty | gl_wrapper/src/shader.rs:113-114 | a build always starts by creating the vertex stage |
| Shaders.BuildSources | gl_wrapper/src/shader.rs:116-130 | after a successful build each stage got the includes followed by its own source |
| Shaders.VertexFailureStopsBuild | gl_wrapper/src/shader.rs:180-181 | a vertex compile error is returned, and no fragment stage is ever created |
| Shaders.FragmentFailureStopsBuild | gl_wrapper/src/shader.rs:180-190 | after the vertex stage compiled, a fragment compile error is returned tagged `Fragment`, and no program is created or linked |
| Shaders.LinkFailureKeepsStages | gl_wrapper/src/shader.rs:193-207 | stage objects are deleted iff the link succeeded |
| LegacyShader.CompileOneSource | src/gl_wrapper/shader.rs:118-142 | the in-tree compile passes exactly one source; a compile error is returned; None iff it panicked |
| LegacyShader.FromStr | src/gl_wrapper/shader.rs:18-49 | the program is returned iff both stages compile and it links; a vertex error stops the build; a fragment error after a compiled vertex stage is returned tagged `Fragment` with no program created or linked; after a link error no stage is deleted; a success ends by deleting both stages |
| Framebuffer.Framebuffer.constructor | src/gl_wrapper/framebuffer.rs:44-48 | a new framebuffer holds its ids and is not bound |
| Framebuffer.Framebuffer.Hdr | src/gl_wrapper/framebuffer.rs:12-50 | the trace is the HDR set-up; a framebuffer is returned iff it is complete, unbound |
| Framebuffer.HdrEffect | src/gl_wrapper/framebuffer.rs:12-50 | after set-up the colour texture has R11F_G11F_B10F storage of the requested size and is the framebuffer's attachment, and the default framebuffer is bound again |
| Framebuffer.BindAsColorTextureEffect | src/gl_wrapper/framebuffer.rs:52-57 | after `Framebuffer.FramebufferRef.BindAsColorTexture(u)`, unit TEXTURE0 + u samples the colour buffer |
| Framebuffer.ResizeEffect | src/gl_wrapper/framebuffer.rs:59-75 | `Framebuffer.FramebufferRef.Resize` gives the colour buffer storage of the new size; other textures, attachments and the bound framebuffer are unchanged; texture 0 is bound afterwards |
| Framebuffer.ClearEffect | src/gl_wrapper/framebuffer.rs:77-84 | `Framebuffer.FramebufferRef.Clear` on a bound framebuffer clears the current target to opaque black; on an unbound one it changes nothing |
| Framebuffer.Framebuffer.DrawWith | src/gl_wrapper/framebuffer.rs:98-109 | the trace binds, draws and rebinds the default; `bound` stays set iff the callback panicked |
| Framebuffer.DrawWithRestoresDefault | src/gl_wrapper/framebuffer.rs:98-109 | after a callback that does not panic, `Framebuffer.BindDefault` has bound the default framebuffer |
| Framebuffer.DrawWithClearClearsTarget | src/gl_wrapper/framebuffer.rs:77-109 | clearing inside `draw_with` clears this framebuffer, not the window |
| Framebuffer.DrawWithDefaultClearsWindow | src/gl_wrapper/framebuffer.rs:111-123 | clearing inside `Framebuffer.DrawWithDefault` clears the window, framebuffer 0 |
| Texture.GlType | gl_wrapper/src/texture.rs:82-96 | f32 data uploads as FLOAT and u8 as UNSIGNED_BYTE, each iff |
| Texture.InternalFormat | gl_wrapper/src/texture.rs:25-29 | Rgb and Rgba store RGBA8, Srgba stores SRGB_ALPHA, and R8 stores R8, each iff |
| Texture.UploadFormat | gl_wrapper/src/texture.rs:72-80 | Rgb uploads RGB, Rgba and Srgba upload RGBA, and R8 uploads RED, each iff |
| Texture.ExpectedLenMatchesUpload | gl_wrapper/src/texture.rs:12-16 | `Texture.ExpectedLen`, the required length, is one element per uploaded component of every pixel |
| Texture.New | gl_wrapper/src/texture.rs:11-48 | a texture is created iff the data length is the expected one; otherwise the length assertion panics before any GL call |
| Texture.NewEffect | gl_wrapper/src/texture.rs:19-43 | a new texture has level-0 storage of its internal format and size, and stays bound |
| Texture.BindEffect | gl_wrapper/src/texture.rs:50-55 | after `Texture.Bind(u)`, unit TEXTURE0 + u samples the texture; storage is unchanged |
| LegacyTexture.UploadFormat | src/gl_wrapper/texture.rs:63-70 | Rgb uploads RGB and Rgba uploads RGBA, each iff |
| LegacyTexture.New | src/gl_wrapper/texture.rs:11-41 | a texture is created iff the data length is `LegacyTexture.ExpectedLen` (width·height·3 for Rgb, ·4 for Rgba); None iff it panicked |
| LegacyTexture.AgreesWithCrate | src/gl_wrapper/texture.rs:11-41 | the in-tree constructor issues exactly the crate constructor's trace for the same format |
| LegacyTexture.StorageAlwaysRgba8 | src/gl_wrapper/texture.rs:24 | in-tree textures always get RGBA8 storage |
| Ghosts.NewGhostMirrors | src/lfg/ghost.rs:24-37 | a default ghost (`Ghosts.New`) sits at the flare mirrored through the centre whenever the flare is off the centre, scales by 0.3 and disperses from the image; its colour is (0.5, 0.5, 0.5, 1), intensity 2, dispersion 0.1, distortion 0.9, centre transparency 1 and aspect ratio 1 |
| Ghosts.GhostPosGeometry | src/lfg/ghost.rs:80-94 | `Ghosts.GhostPos` is the mapped flare scaled by the offset, plus the perpendicular offset at right angles to the direction and proportional to it; away from the centre, a zero perpendicular offset leaves the ghost on the line through the flare |
| Ghosts.ModelMatrixPlaces | src/lfg/ghost.rs:44-47 | `Ghosts.ModelMatrix` scales by size/100 and then translates to the ghost position |
| Ghosts.DrawSequence | src/lfg/ghost.rs:39-50 | with all uniforms present, a ghost draw (`Ghosts.Draw`) sets color, empty, ratio and modelMatrix, then draws the geometry |
| Ghosts.DrawMissingUniform | src/lfg/ghost.rs:39-50 | in `Ghosts.Draw`, a missing uniform panics and nothing is drawn |
| Ghosts.JitterPeriodic | src/lfg/ghost.rs:62-68 | the jitter offset repeats every 4 frames |
| Ghosts.JitterCycle | src/lfg/ghost.rs:62-68 | the offsets of `Ghosts.Jitter` for four consecutive frames are four distinct ones, which average to (0.25, 0.25) |
| Ghosts.DrawDispersedSequence | src/lfg/ghost.rs:52-77 | the dispersed draw (`Ghosts.DrawDispersed`) sets intensity, dispersion, distortion, the centre flag and the jitter, then draws the quad |
| Ghosts.GhostPosIffGhostCentre | src/lfg/ghost.rs:57-75 | ghost_pos is set iff dispersion is from the ghost centre |
| Ghosts.DrawDispersedPeriodic | src/lfg/ghost.rs:62-71 | frames four apart issue the same dispersed draw |
| Ghosts.FanDataLength | src/lfg/ghost.rs:104-112 | the fan holds one centre vertex plus one vertex per loop iteration, 3 floats each |
| Ghosts.FanDataVertex | src/lfg/ghost.rs:105-112 | the centre vertex is all zeros; vertex k+1 is the start vector rotated k times, with a third component of 1 |
| Ghosts.FanVertices | src/lfg/ghost.rs:104-112 | the loop produces the centre vertex followed by blades + 1 perimeter vertices, vertex k+1 being the start vector turned k times |
| Ghosts.GenGhostGeo | src/lfg/ghost.rs:103-118 | the loop builds the fan data; the result is a triangle fan of ((3(b+2)) mod 2^32)/3 vertices and never panics |
| Ghosts.GhostGeoCount | src/lfg/ghost.rs:114-117 | without u32 overflow the fan has blades + 2 vertices |
| Flare.Flare.constructor | src/lfg/flare.rs:15-22 | a new flare is at the origin with colour (1, 0.5, 0.5, 1) |
| Flare.Flare.New | src/lfg/flare.rs:15-22 | a new flare is drawn on a new quad, a triangle strip of 4 vertices |
| Flare.Flare.Draw | src/lfg/flare.rs:24-30 | the flare draw panics iff the colour uniform is missing, and then draws nothing; it never sets flare_position |
| Flare.DrawEffect | src/lfg/flare.rs:24-30 | the flare draw is exactly: bind the program, set the one colour uniform, noise texture on unit 0, then draw the quad; it issues one draw call with the flare program and quad, and leaves the noise texture on unit 0 |
| Flare.DrawIgnoresPosition | src/lfg/flare.rs:26 | the position does not affect what is drawn |
| Flare.Flare.SetPosition | src/lfg/flare.rs:32-35 | the position changes and the colour does not |
| Flare.Flare.SetColor | src/lfg/flare.rs:37-39 | the colour changes and the position does not |
| Effect.Effect.constructor | src/lfg/effect.rs:11-16 | a new effect holds the flare and no ghosts |
| Effect.Effect.New | src/lfg/effect.rs:11-16 | a new effect has a default flare and no ghosts |
| Effect.Effect.Draw | src/lfg/effect.rs:18-24 | the loop issues the flare pass followed by the ghost passes, stopping at the first panic |
| Effect.PassesInOrder | src/lfg/effect.rs:21-23 | with no panics, the ghost passes are each ghost's pass once, in list order |
| Effect.FirstPanicStops | src/lfg/effect.rs:21-23 | a panicking ghost pass ends the trace; the ghosts before it were drawn in order, and none after |
| Effect.DrawOrder | src/lfg/effect.rs:18-24 | without panics the effect is the flare pass followed by all ghost passes; with no ghosts, the flare alone |
| Effect.FlarePanicStops | src/lfg/effect.rs:18-19 | a panicking flare pass ends the effect before any ghost is drawn |
| ShaderLib.New | src/lfg/shader_lib.rs:20-28 | three builders, each with the common code, produce the specified library and trace |
| ShaderLib.NewOkIff | src/lfg/shader_lib.rs:20-28 | the library is built iff all three programs build; its trace is the three build traces in order |
| ShaderLib.FlareFailureStops | src/lfg/shader_lib.rs:21 | a flare build error is returned, and nothing else is built |
| ShaderLib.GhostFailureStops | src/lfg/shader_lib.rs:21-22 | a ghost build error is returned after the flare build, and the tonemap is not built |
| ShaderLib.StageSources | src/lfg/shader_lib.rs:3-23 | each stage is compiled from the version line, the common code and its own source |
| ShaderLib.NewLibNoneIffAborted | src/lfg/shader_lib.rs:20-28 | the library is None iff its trace panicked |
| ShaderLib.Default | src/lfg/shader_lib.rs:31-35 | the default library exists iff the build succeeded; a build error panics in `unwrap` |

## Left out

- Ghosts.NewGhostMirrors: states the default ghost's position only for a flare off the image centre, for the reason on the next line.
- Ghosts.GhostPosGeometry: states nothing for a flare exactly at the image centre. There the source normalises a zero vector and the ghost position is NaN, which exact reals cannot express.
- Floating point: the model computes over exact reals. `f32` rounding, NaN and infinities are not modelled.
- The normalised flare direction (src/lfg/ghost.rs:87) is a parameter. The normalisation, and the NaN it gives for a flare exactly at the centre, are not modelled.
- The rotation matrix in `gen_ghost_geo` is a parameter. The angle 360/blades, and the division by zero when blades is 0, are not modelled.
- `Ghosts.ModelMatrixPlaces` states the matrix's effect on points in the plane only. The matrix layout that cgmath passes (column-major) is not modelled beyond its 16 entries.
- Shader info logs: the driver's log is an input. Reading the log into a buffer, `MAX_ERR_LEN`, `CStr` conversion and `snailquote` escaping are not modelled.
- Query calls (`glGetShaderiv`, `glGetUniformLocation`, `glCheckFramebufferStatus`) are answered by the `Driver` parameter and are not recorded in traces.
- Shader file contents (`include_str!`) are inputs of `ShaderLib`.
- Pixel data: a texture upload records only the data length, not the pixels.
- The `total` fold and the `stride` and `offset` computations in `GeometryBuilder::build` are i32. Their overflow is not modelled.
- Texture.New: requires width·height·4 < 2^32. The u32 overflow of the expected-length product is not modelled.
- LegacyTexture.New: the same u32 overflow limit as `Texture.New`.
- Framebuffer.DrawWithRestoresDefault: requires a callback that does not panic. After a panic the default framebuffer is not rebound; `Framebuffer.Framebuffer.DrawWith` states that `bound` then stays set.
- `Drop` implementations (deleting GL objects) are not modelled. The framebuffer `drop` casts ids to pointers (src/gl_wrapper/framebuffer.rs:133-137).
- Blending (`Framebuffer::blend`, src/gl_wrapper/state.rs) and the viewport are not modelled.
- The application shell is not part of this model: src/main.rs, src/window.rs, src/ui.rs, src/fps_cap.rs, src/window_state.rs, src/flare.rs, src/lfg.rs.
- Logging macros (`debug!`, `error!`) have no effect on the model.
- The wording of `set_int_uniform`'s panic message (it says "float") is not modelled. Only the panic reason is recorded.
