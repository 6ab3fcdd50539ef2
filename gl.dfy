/**
 * The OpenGL driver as the renderer sees it.
 *
 * Every operation of the renderer is modelled by the sequence of GL commands
 * it issues (its trace). What the driver answers (whether a shader compiled,
 * whether a program linked, where a uniform lives, whether a framebuffer is
 * complete) is an input, the `Driver`. Object names handed out by
 * glGen and glCreate calls are inputs too. A Rust panic ends the trace with a
 * `Panic` command: nothing is issued after it.
 *
 * The shader types shared by both copies of the shader wrapper
 * (gl_wrapper/src/shader.rs and src/gl_wrapper/shader.rs declare them
 * identically) live here as well.
 */
module Gl {

  datatype Option<+T> = None | Some(value: T)

  datatype Result<+T, +E> = Ok(value: T) | Err(error: E)

  // OpenGL enumerants used by the renderer, with their registry values.
  const TRIANGLES: nat := 0x0004
  const TRIANGLE_STRIP: nat := 0x0005
  const TRIANGLE_FAN: nat := 0x0006
  const UNSIGNED_BYTE: nat := 0x1401
  const FLOAT: nat := 0x1406
  const RED: nat := 0x1903
  const RGB: nat := 0x1907
  const RGBA: nat := 0x1908
  const LINEAR: nat := 0x2601
  const TEXTURE_MAG_FILTER: nat := 0x2800
  const TEXTURE_MIN_FILTER: nat := 0x2801
  const RGBA8: nat := 0x8058
  const R8: nat := 0x8229
  const TEXTURE0: nat := 0x84C0
  const FRAGMENT_SHADER: nat := 0x8B30
  const VERTEX_SHADER: nat := 0x8B31
  const R11F_G11F_B10F: nat := 0x8C3A
  const SRGB_ALPHA: nat := 0x8C42

  /** Bytes in one f32 vertex component (`size_of::<f32>()`). */
  const FLOAT_SIZE: nat := 4

  const U32_LIMIT: nat := 0x1_0000_0000
  const I32_LIMIT: nat := 0x8000_0000

  type u32 = n: nat | n < U32_LIMIT
  type u8 = n: nat | n < 0x100

  /** An `[f32; 4]` colour. */
  type Color4 = c: seq<real> | |c| == 4 witness [0.0, 0.0, 0.0, 0.0]

  /** A GL object name; 0 names the default object. */
  type Name = nat

  /** Rust's `x as i32` on a u32: two's-complement reinterpretation. */
  function AsI32(x: u32): (r: int)
    ensures -(I32_LIMIT as int) <= r < I32_LIMIT
    ensures r % U32_LIMIT == x
    ensures x < I32_LIMIT ==> r == x
  {
    if x < I32_LIMIT then x else x - U32_LIMIT
  }

  datatype ShaderType = Fragment | Vertex

  /** `From<ShaderType> for GLenum`: a closed, one-to-one mapping onto the two stage enums. */
  function ShaderTypeToGl(t: ShaderType): (e: nat)
    ensures e == VERTEX_SHADER <==> t == Vertex
    ensures e == FRAGMENT_SHADER <==> t == Fragment
  {
    match t
    case Fragment => FRAGMENT_SHADER
    case Vertex => VERTEX_SHADER
  }

  datatype ShaderCompilationError =
    | ProgramError(stage: ShaderType, log: string)
    | LinkageError(log: string)

  /** A linked program. Only a successful compile and link produce one. */
  datatype Shader = Shader(programId: Name)

  /** What a glUniform* call receives: the GL entry point is fixed by the constructor and the arity. */
  datatype UniformValue =
    | FloatVec(floats: seq<real>)              // glUniform{1,2,3,4}f
    | IntVec(ints: seq<int>)                   // glUniform{1,2,3,4}i
    | FloatMatrix(dim: nat, entries: seq<real>) // glUniformMatrix{2,3,4}fv, one matrix, not transposed

  datatype PanicReason =
    | MissingUniform(error: string)         // `get_uniform_location(..).unwrap()` on an Err
    | InvalidVectorSize                     // "invalid float vector size passed"
    | InvalidMatrixSize                     // "invalid matrix size passed"
    | NulInSource                           // `CString::new(..).unwrap()` on a string holding a NUL
    | LengthMismatch(found: nat, expected: nat) // `assert_eq!` on texture data length
    | DivideByZero                          // vertex count of an empty attribute layout
    | FramebufferIncomplete                 // `panic!()` after the completeness check
    | ShaderLibFailed(cause: ShaderCompilationError) // `ShaderLib::default`'s unwrap

  /** The GL calls the renderer issues. Queries are not recorded: their answers come from the `Driver`. */
  datatype Cmd =
    | GenVertexArray(vao: Name)
    | GenBuffer(vbo: Name)
    | BindVertexArray(vao: Name)
    | BindArrayBuffer(vbo: Name)
    | BufferData(floats: seq<real>)         // ARRAY_BUFFER, STATIC_DRAW
    | VertexAttribPointer(index: nat, size: nat, stride: int, offset: int) // FLOAT, not normalised, bytes
    | EnableVertexAttribArray(index: nat)
    | DrawArrays(mode: nat, first: int, count: int)
    | CreateShader(stage: nat, shader: Name)
    | ShaderSource(shader: Name, sources: seq<string>)
    | CompileShader(shader: Name)
    | CreateProgram(program: Name)
    | AttachShader(program: Name, shader: Name)
    | LinkProgram(program: Name)
    | DeleteShader(shader: Name)
    | UseProgram(program: Name)
    /** glGetUniformLocation(program, name) followed by the glUniform* call for `value` */
    | SetUniform(program: Name, name: string, value: UniformValue)
    | GenTexture(texture: Name)
    | GenFramebuffer(framebuffer: Name)
    | ActiveTexture(unit: nat)
    | BindTexture(texture: Name)            // TEXTURE_2D
    | TexImage2D(internalFormat: nat, width: int, height: int, format: nat, dataType: nat) // level 0, no data
    | TexParameter(pname: nat, param: nat)  // TEXTURE_2D
    | TexStorage2D(levels: nat, internalFormat: nat, width: int, height: int)
    | TexSubImage2D(width: int, height: int, format: nat, dataType: nat, length: nat) // level 0 at (0, 0)
    | BindFramebuffer(framebuffer: Name)    // FRAMEBUFFER
    | FramebufferTexture2D(texture: Name)   // COLOR_ATTACHMENT0, level 0
    | ClearColor(r: real, g: real, b: real, a: real)
    | Clear                                 // COLOR_BUFFER_BIT
    | Panic(reason: PanicReason)

  /**
   * The driver's answers. `compileLog` and `linkLog` are None when the status
   * query reports success and otherwise give the info log; `location` is what
   * glGetUniformLocation returns (-1 for no such active uniform).
   */
  datatype Driver = Driver(
    compileLog: (ShaderType, seq<string>) -> Option<string>,
    linkLog: (seq<string>, seq<string>) -> Option<string>,
    location: (Name, string) -> int,
    framebufferComplete: bool)

  /** The trace ended in a panic. */
  predicate Aborted(t: seq<Cmd>) {
    |t| > 0 && t[|t| - 1].Panic?
  }

  /** Sequential composition: `b` runs only if `a` did not panic. */
  function Then(a: seq<Cmd>, b: seq<Cmd>): (r: seq<Cmd>)
    ensures Aborted(r) <==> Aborted(a) || Aborted(b)
  {
    if Aborted(a) then a else a + b
  }

  /** Three commands, then two single commands, in front of a trace. */
  lemma PrependThreeTwo(c1: Cmd, c2: Cmd, c3: Cmd, c4: Cmd, c5: Cmd, t: seq<Cmd>)
    ensures [c1, c2, c3] + ([c4] + ([c5] + t)) == [c1, c2, c3, c4, c5] + t
  {
  }

  /** A concatenation ends in a panic exactly when its last non-empty part does. */
  lemma AbortedAppend(a: seq<Cmd>, b: seq<Cmd>)
    ensures b == [] ==> (Aborted(a + b) <==> Aborted(a))
    ensures b != [] ==> (Aborted(a + b) <==> Aborted(b))
  {
    if b == [] {
      assert a + b == a;
    } else {
      assert (a + b)[|a + b| - 1] == b[|b| - 1];
    }
  }

  /** Composing three traces does not depend on how they are grouped. */
  lemma ThenAssoc(a: seq<Cmd>, b: seq<Cmd>, c: seq<Cmd>)
    ensures Then(Then(a, b), c) == Then(a, Then(b, c))
  {
    if !Aborted(a) {
      AbortedAppend(a, b);
      if b == [] {
        assert a + b == a;
      } else if !Aborted(b) {
        assert Then(a, b) == a + b;
        assert Then(b, c) == b + c;
        assert a + b + c == a + (b + c);
      }
    }
  }

  /** No command of the trace is a panic. */
  predicate PanicFree(t: seq<Cmd>) {
    forall i :: 0 <= i < |t| ==> !t[i].Panic?
  }

  /** A command that is not a panic, in front of a panic-free trace. */
  lemma PanicFreePrepend(c: Cmd, t: seq<Cmd>)
    requires !c.Panic? && PanicFree(t)
    ensures PanicFree([c] + t)
  {
    forall i | 0 <= i < |[c] + t|
      ensures !([c] + t)[i].Panic?
    {
      if i > 0 {
        assert ([c] + t)[i] == t[i - 1];
      }
    }
  }

  /** Some command of the trace sets the uniform called `name`. */
  predicate SetsUniform(t: seq<Cmd>, name: string) {
    exists i :: 0 <= i < |t| && t[i].SetUniform? && t[i].name == name
  }

  /** A concatenation sets a uniform exactly when one of its parts does. */
  lemma SetsUniformAppend(a: seq<Cmd>, b: seq<Cmd>, name: string)
    ensures SetsUniform(a + b, name) <==> SetsUniform(a, name) || SetsUniform(b, name)
  {
    if SetsUniform(a + b, name) {
      var i :| 0 <= i < |a + b| && (a + b)[i].SetUniform? && (a + b)[i].name == name;
      if i >= |a| {
        assert b[i - |a|] == (a + b)[i];
      }
    }
    if SetsUniform(b, name) {
      var i :| 0 <= i < |b| && b[i].SetUniform? && b[i].name == name;
      assert (a + b)[i + |a|] == b[i];
    }
    if SetsUniform(a, name) {
      var i :| 0 <= i < |a| && a[i].SetUniform? && a[i].name == name;
      assert (a + b)[i] == a[i];
    }
  }

  predicate DrawsAnything(t: seq<Cmd>) {
    exists i :: 0 <= i < |t| && t[i].DrawArrays?
  }

  /** One command that neither panics nor draws, in front of a trace that panics without drawing. */
  lemma StepBeforePanic(a: seq<Cmd>, b: seq<Cmd>)
    requires |a| == 1 && !a[0].Panic? && !a[0].DrawArrays?
    requires Aborted(b) && !DrawsAnything(b)
    ensures Then(a, b) == a + b
    ensures Aborted(Then(a, b)) && !DrawsAnything(Then(a, b))
    ensures Then(a, b)[|Then(a, b)| - 1] == b[|b| - 1]
  {
    var r := a + b;
    forall i | 0 <= i < |r|
      ensures !r[i].DrawArrays?
    {
      if i > 0 {
        assert r[i] == b[i - 1];
      }
    }
  }

  /** `s` contains an interior NUL, so `CString::new(s)` fails. */
  predicate HasNul(s: string) {
    '\0' in s
  }
}
