/**
 * Shader program assembly and uniform setting in the gl_wrapper crate
 * (gl_wrapper/src/shader.rs): the version line and shared includes put in
 * front of each stage's source, compile vertex, compile fragment, link, and
 * the arity-dispatched uniform setters.
 */
module Shaders {
  import opened Gl
  import GlState

  const SHADER_VERSION: string := "#version 450\n"

  /** `Shader::bind`. */
  function Bind(s: Shader): seq<Cmd> {
    [UseProgram(s.programId)]
  }

  /** Binding a program makes it the current one and changes nothing else. */
  lemma BindEffect(st: GlState.State, s: Shader)
    requires !st.aborted
    ensures GlState.Run(st, Bind(s)) == st.(program := s.programId)
  {
    GlState.RunOne(st, UseProgram(s.programId));
  }

  /** `get_uniform_location`: fails on a name with a NUL byte (before asking GL) or a location of -1. */
  function GetUniformLocation(d: Driver, s: Shader, name: string): (r: Result<int, string>)
    ensures r.Ok? <==> !HasNul(name) && d.location(s.programId, name) != -1
    ensures r.Ok? ==> r.value == d.location(s.programId, name)
    ensures HasNul(name) ==> r == Err("uniform name has zero bytes")
  {
    if HasNul(name) then Err("uniform name has zero bytes")
    else
      var loc := d.location(s.programId, name);
      if loc == -1 then Err("uniform with name '" + name + "' does not exist") else Ok(loc)
  }

  predicate UniformExists(d: Driver, s: Shader, name: string) {
    GetUniformLocation(d, s, name).Ok?
  }

  /**
   * `set_float_uniform`: the location lookup is unwrapped first, then
   * vectors of 1 to 4 floats go to glUniform{1,2,3,4}f; any other size panics.
   */
  function SetFloatUniform(d: Driver, s: Shader, name: string, v: seq<real>): (cmds: seq<Cmd>)
    ensures !Aborted(cmds) <==> UniformExists(d, s, name) && 1 <= |v| <= 4
    ensures !Aborted(cmds) ==> cmds == [SetUniform(s.programId, name, FloatVec(v))]
    ensures Aborted(cmds) ==> |cmds| == 1
    ensures !UniformExists(d, s, name) ==> cmds == [Panic(MissingUniform(GetUniformLocation(d, s, name).error))]
    ensures UniformExists(d, s, name) && !(1 <= |v| <= 4) ==> cmds == [Panic(InvalidVectorSize)]
  {
    match GetUniformLocation(d, s, name)
    case Err(e) => [Panic(MissingUniform(e))]
    case Ok(_) => if 1 <= |v| <= 4 then [SetUniform(s.programId, name, FloatVec(v))] else [Panic(InvalidVectorSize)]
  }

  /** `set_int_uniform`: the same dispatch for 1 to 4 ints. */
  function SetIntUniform(d: Driver, s: Shader, name: string, v: seq<int>): (cmds: seq<Cmd>)
    ensures !Aborted(cmds) <==> UniformExists(d, s, name) && 1 <= |v| <= 4
    ensures !Aborted(cmds) ==> cmds == [SetUniform(s.programId, name, IntVec(v))]
    ensures Aborted(cmds) ==> |cmds| == 1
    ensures !UniformExists(d, s, name) ==> cmds == [Panic(MissingUniform(GetUniformLocation(d, s, name).error))]
    ensures UniformExists(d, s, name) && !(1 <= |v| <= 4) ==> cmds == [Panic(InvalidVectorSize)]
  {
    match GetUniformLocation(d, s, name)
    case Err(e) => [Panic(MissingUniform(e))]
    case Ok(_) => if 1 <= |v| <= 4 then [SetUniform(s.programId, name, IntVec(v))] else [Panic(InvalidVectorSize)]
  }

  /** Setting an existing uniform with 1 to 4 floats issues one call and lets the next step run. */
  lemma SetFloatThen(d: Driver, s: Shader, name: string, v: seq<real>, rest: seq<Cmd>)
    requires UniformExists(d, s, name) && 1 <= |v| <= 4
    ensures Then(SetFloatUniform(d, s, name, v), rest) == [SetUniform(s.programId, name, FloatVec(v))] + rest
  {
  }

  /** Setting an existing uniform with 1 to 4 ints issues one call and lets the next step run. */
  lemma SetIntThen(d: Driver, s: Shader, name: string, v: seq<int>, rest: seq<Cmd>)
    requires UniformExists(d, s, name) && 1 <= |v| <= 4
    ensures Then(SetIntUniform(d, s, name, v), rest) == [SetUniform(s.programId, name, IntVec(v))] + rest
  {
  }

  /** Three float uniforms that exist, set one after the other, issue three calls in that order. */
  lemma SetThreeFloats(d: Driver, s: Shader, n1: string, v1: seq<real>, n2: string, v2: seq<real>,
                       n3: string, v3: seq<real>, rest: seq<Cmd>)
    requires UniformExists(d, s, n1) && UniformExists(d, s, n2) && UniformExists(d, s, n3)
    requires 1 <= |v1| <= 4 && 1 <= |v2| <= 4 && 1 <= |v3| <= 4
    ensures Then(SetFloatUniform(d, s, n1, v1), Then(SetFloatUniform(d, s, n2, v2), Then(SetFloatUniform(d, s, n3, v3), rest)))
         == [SetUniform(s.programId, n1, FloatVec(v1)), SetUniform(s.programId, n2, FloatVec(v2)),
             SetUniform(s.programId, n3, FloatVec(v3))] + rest
  {
    var c1 := SetUniform(s.programId, n1, FloatVec(v1));
    var c2 := SetUniform(s.programId, n2, FloatVec(v2));
    var c3 := SetUniform(s.programId, n3, FloatVec(v3));
    SetFloatThen(d, s, n3, v3, rest);
    SetFloatThen(d, s, n2, v2, [c3] + rest);
    SetFloatThen(d, s, n1, v1, [c2] + ([c3] + rest));
    assert [c1] + ([c2] + ([c3] + rest)) == [c1, c2, c3] + rest;
  }

  /** Setting an existing uniform with 16 floats issues one 4x4 matrix call and lets the next step run. */
  lemma SetMatrix4Then(d: Driver, s: Shader, name: string, m: seq<real>, rest: seq<Cmd>)
    requires UniformExists(d, s, name) && |m| == 16
    ensures Then(SetMatrixUniform(d, s, name, m), rest) == [SetUniform(s.programId, name, FloatMatrix(4, m))] + rest
  {
    assert MatrixDim(|m|) == Some(4);
  }

  /** The square matrix size that a flat array of `n` floats is taken as: 4, 9 and 16 only. */
  function MatrixDim(n: nat): (dim: Option<nat>)
    ensures dim.Some? <==> n in {4, 9, 16}
    ensures dim.Some? ==> dim.value * dim.value == n && 2 <= dim.value <= 4
  {
    if n == 4 then Some(2) else if n == 9 then Some(3) else if n == 16 then Some(4) else None
  }

  /** `set_matrix_uniform`: 4, 9 or 16 floats are one 2x2, 3x3 or 4x4 matrix; any other size panics. */
  function SetMatrixUniform(d: Driver, s: Shader, name: string, m: seq<real>): (cmds: seq<Cmd>)
    ensures !Aborted(cmds) <==> UniformExists(d, s, name) && |m| in {4, 9, 16}
    ensures !Aborted(cmds) ==>
              exists dim: nat :: dim * dim == |m| && cmds == [SetUniform(s.programId, name, FloatMatrix(dim, m))]
    ensures Aborted(cmds) ==> |cmds| == 1
    ensures !UniformExists(d, s, name) ==> cmds == [Panic(MissingUniform(GetUniformLocation(d, s, name).error))]
    ensures UniformExists(d, s, name) && |m| !in {4, 9, 16} ==> cmds == [Panic(InvalidMatrixSize)]
  {
    match GetUniformLocation(d, s, name)
    case Err(e) => [Panic(MissingUniform(e))]
    case Ok(_) =>
      match MatrixDim(|m|)
      case Some(dim) => [SetUniform(s.programId, name, FloatMatrix(dim, m))]
      case None => [Panic(InvalidMatrixSize)]
  }

  /** The source list one stage hands to glShaderSource: the includes, then the stage source. */
  function SourceList(includes: seq<string>, src: string): seq<string> {
    includes + [src]
  }

  predicate AnyNul(strs: seq<string>) {
    exists i :: 0 <= i < |strs| && HasNul(strs[i])
  }

  /** The commands of `compile_shader`. The shader object is created before the sources are converted. */
  function CompileTrace(stage: ShaderType, src: string, includes: seq<string>, id: Name): seq<Cmd> {
    [CreateShader(ShaderTypeToGl(stage), id)]
    + if AnyNul(SourceList(includes, src)) then [Panic(NulInSource)]
      else [ShaderSource(id, SourceList(includes, src)), CompileShader(id)]
  }

  /** What `compile_shader` returns; None when it panicked. */
  function Compiled(d: Driver, stage: ShaderType, src: string, includes: seq<string>, id: Name)
    : Option<Result<Name, ShaderCompilationError>>
  {
    if AnyNul(SourceList(includes, src)) then None
    else match d.compileLog(stage, SourceList(includes, src))
      case None => Some(Ok(id))
      case Some(log) => Some(Err(ProgramError(stage, log)))
  }

  /**
   * `compile_shader`: converts each include and then the source to a C
   * string (a NUL byte panics), passes all of them, includes first, as one
   * glShaderSource call, compiles, and reports a failure tagged with the stage.
   */
  method CompileStage(d: Driver, stage: ShaderType, src: string, includes: seq<string>, id: Name)
    returns (r: Option<Result<Name, ShaderCompilationError>>, cmds: seq<Cmd>)
    ensures cmds == CompileTrace(stage, src, includes, id)
    ensures r == Compiled(d, stage, src, includes, id)
    ensures r.None? <==> Aborted(cmds)
  {
    cmds := [CreateShader(ShaderTypeToGl(stage), id)];
    var sources: seq<string> := [];
    var i := 0;
    while i < |includes|
      invariant 0 <= i <= |includes|
      invariant sources == includes[..i]
      invariant !AnyNul(sources)
    {
      if HasNul(includes[i]) {
        assert AnyNul(SourceList(includes, src)) by {
          assert SourceList(includes, src)[i] == includes[i];
        }
        cmds := cmds + [Panic(NulInSource)];
        return None, cmds;
      }
      sources := sources + [includes[i]];
      i := i + 1;
    }
    assert includes[..i] == includes;
    if HasNul(src) {
      assert AnyNul(SourceList(includes, src)) by {
        assert SourceList(includes, src)[|includes|] == src;
      }
      cmds := cmds + [Panic(NulInSource)];
      return None, cmds;
    }
    sources := sources + [src];
    assert sources == SourceList(includes, src);
    assert !AnyNul(sources) by {
      forall k | 0 <= k < |sources| ensures !HasNul(sources[k]) {
        if k < |includes| {
          assert sources[k] == sources[..|includes|][k];
        }
      }
    }
    cmds := cmds + [ShaderSource(id, sources), CompileShader(id)];
    match d.compileLog(stage, sources) {
      case None => r := Some(Ok(id));
      case Some(log) => r := Some(Err(ProgramError(stage, log)));
    }
  }

  /** GL names for the two stages and the program of one `build`. */
  datatype ShaderNames = ShaderNames(vert: Name, frag: Name, program: Name)

  /** Create, attach both stages, link; the stages are deleted only when the link succeeded. */
  function LinkTrace(d: Driver, vertSrcs: seq<string>, fragSrcs: seq<string>, n: ShaderNames): seq<Cmd> {
    [CreateProgram(n.program), AttachShader(n.program, n.vert), AttachShader(n.program, n.frag), LinkProgram(n.program)]
    + if d.linkLog(vertSrcs, fragSrcs).Some? then [] else [DeleteShader(n.vert), DeleteShader(n.frag)]
  }

  /** The commands of `ShaderBuilder::build`: each `?` stops at the first failing stage. */
  function BuildTrace(d: Driver, vert: string, frag: string, includes: seq<string>, n: ShaderNames): seq<Cmd> {
    var vr := Compiled(d, Vertex, vert, includes, n.vert);
    var fr := Compiled(d, Fragment, frag, includes, n.frag);
    CompileTrace(Vertex, vert, includes, n.vert)
    + if vr != Some(Ok(n.vert)) then []
      else CompileTrace(Fragment, frag, includes, n.frag)
           + if fr != Some(Ok(n.frag)) then []
             else LinkTrace(d, SourceList(includes, vert), SourceList(includes, frag), n)
  }

  /** What `ShaderBuilder::build` returns; None when it panicked. */
  function Built(d: Driver, vert: string, frag: string, includes: seq<string>, n: ShaderNames)
    : Option<Result<Shader, ShaderCompilationError>>
  {
    var vr := Compiled(d, Vertex, vert, includes, n.vert);
    var fr := Compiled(d, Fragment, frag, includes, n.frag);
    if vr.None? then None
    else if vr.value.Err? then Some(Err(vr.value.error))
    else if fr.None? then None
    else if fr.value.Err? then Some(Err(fr.value.error))
    else match d.linkLog(SourceList(includes, vert), SourceList(includes, frag))
      case Some(log) => Some(Err(LinkageError(log)))
      case None => Some(Ok(Shader(n.program)))
  }

  /** Builder for a program from a vertex and a fragment source sharing a list of includes. */
  class ShaderBuilder {
    const vert: string
    const frag: string
    var includes: seq<string>

    /** `ShaderBuilder::new`: the include list starts as the version line alone. */
    constructor (vert: string, frag: string)
      ensures this.vert == vert && this.frag == frag
      ensures includes == [SHADER_VERSION]
    {
      this.vert := vert;
      this.frag := frag;
      includes := [SHADER_VERSION];
    }

    /** `with_common_code`: one more include, after the earlier ones. */
    method WithCommonCode(common: string)
      modifies this
      ensures includes == old(includes) + [common]
    {
      includes := includes + [common];
    }

    /**
     * `build`: compile the vertex stage, then the fragment stage, then link.
     * The first failure is returned and nothing after it is issued.
     */
    method Build(d: Driver, n: ShaderNames) returns (r: Option<Result<Shader, ShaderCompilationError>>, cmds: seq<Cmd>)
      ensures r == Built(d, vert, frag, includes, n)
      ensures cmds == BuildTrace(d, vert, frag, includes, n)
    {
      var vr, vcmds := CompileStage(d, Vertex, vert, includes, n.vert);
      cmds := vcmds;
      if vr.None? {
        return None, cmds;
      }
      if vr.value.Err? {
        return Some(Err(vr.value.error)), cmds;
      }
      var fr, fcmds := CompileStage(d, Fragment, frag, includes, n.frag);
      cmds := cmds + fcmds;
      if fr.None? {
        return None, cmds;
      }
      if fr.value.Err? {
        return Some(Err(fr.value.error)), cmds;
      }
      var vertId, fragId := vr.value.value, fr.value.value;
      cmds := cmds + [CreateProgram(n.program), AttachShader(n.program, vertId), AttachShader(n.program, fragId),
                      LinkProgram(n.program)];
      match d.linkLog(SourceList(includes, vert), SourceList(includes, frag)) {
        case Some(log) =>
          return Some(Err(LinkageError(log))), cmds;
        case None =>
      }
      cmds := cmds + [DeleteShader(vertId), DeleteShader(fragId)];
      r := Some(Ok(Shader(n.program)));
    }
  }

  /**
   * A program comes out of `build` exactly when neither source holds a NUL,
   * both stages compile and the link succeeds; there is no partial program.
   */
  lemma BuildOkIff(d: Driver, vert: string, frag: string, includes: seq<string>, n: ShaderNames)
    ensures Built(d, vert, frag, includes, n) == Some(Ok(Shader(n.program)))
        <==> Compiled(d, Vertex, vert, includes, n.vert) == Some(Ok(n.vert))
             && Compiled(d, Fragment, frag, includes, n.frag) == Some(Ok(n.frag))
             && d.linkLog(SourceList(includes, vert), SourceList(includes, frag)).None?
    ensures Built(d, vert, frag, includes, n).None? <==> Aborted(BuildTrace(d, vert, frag, includes, n))
  {
  }

  /** Every build starts by creating the vertex shader object, whatever happens later. */
  lemma BuildNonEmpty(d: Driver, vert: string, frag: string, includes: seq<string>, n: ShaderNames)
    ensures |BuildTrace(d, vert, frag, includes, n)| > 0
    ensures BuildTrace(d, vert, frag, includes, n)[0] == CreateShader(VERTEX_SHADER, n.vert)
  {
  }

  /** Both stages get the same includes, in order, ahead of their own source. */
  lemma BuildSources(d: Driver, vert: string, frag: string, includes: seq<string>, n: ShaderNames)
    requires Built(d, vert, frag, includes, n).Some? && Built(d, vert, frag, includes, n).value.Ok?
    ensures ShaderSource(n.vert, includes + [vert]) in BuildTrace(d, vert, frag, includes, n)
    ensures ShaderSource(n.frag, includes + [frag]) in BuildTrace(d, vert, frag, includes, n)
  {
    var t := BuildTrace(d, vert, frag, includes, n);
    var ct := CompileTrace(Vertex, vert, includes, n.vert);
    assert t[1] == ct[1];
    var ft := CompileTrace(Fragment, frag, includes, n.frag);
    assert t[|ct| + 1] == ft[1];
  }

  /** A failing vertex stage is reported as such and the fragment stage is never created. */
  lemma VertexFailureStopsBuild(d: Driver, vert: string, frag: string, includes: seq<string>, n: ShaderNames)
    requires !AnyNul(SourceList(includes, vert))
    requires d.compileLog(Vertex, SourceList(includes, vert)).Some?
    ensures Built(d, vert, frag, includes, n)
         == Some(Err(ProgramError(Vertex, d.compileLog(Vertex, SourceList(includes, vert)).value)))
    ensures forall c :: c in BuildTrace(d, vert, frag, includes, n) ==> !c.CreateShader? || c.stage == VERTEX_SHADER
  {
  }

  /**
   * A failing fragment stage, after the vertex stage compiled, is reported
   * as a fragment error, and no program is created or linked.
   */
  lemma FragmentFailureStopsBuild(d: Driver, vert: string, frag: string, includes: seq<string>, n: ShaderNames)
    requires Compiled(d, Vertex, vert, includes, n.vert) == Some(Ok(n.vert))
    requires !AnyNul(SourceList(includes, frag))
    requires d.compileLog(Fragment, SourceList(includes, frag)).Some?
    ensures Built(d, vert, frag, includes, n)
         == Some(Err(ProgramError(Fragment, d.compileLog(Fragment, SourceList(includes, frag)).value)))
    ensures forall c :: c in BuildTrace(d, vert, frag, includes, n) ==> !c.CreateProgram? && !c.LinkProgram?
  {
  }

  /**
   * A failed link returns the linker log and deletes neither stage, while a
   * successful build ends by deleting both.
   */
  lemma LinkFailureKeepsStages(d: Driver, vert: string, frag: string, includes: seq<string>, n: ShaderNames)
    requires Compiled(d, Vertex, vert, includes, n.vert) == Some(Ok(n.vert))
    requires Compiled(d, Fragment, frag, includes, n.frag) == Some(Ok(n.frag))
    ensures var t := BuildTrace(d, vert, frag, includes, n);
            match d.linkLog(SourceList(includes, vert), SourceList(includes, frag))
            case Some(log) =>
              Built(d, vert, frag, includes, n) == Some(Err(LinkageError(log)))
              && forall c :: c in t ==> !c.DeleteShader?
            case None =>
              Built(d, vert, frag, includes, n) == Some(Ok(Shader(n.program)))
              && t[|t| - 2..] == [DeleteShader(n.vert), DeleteShader(n.frag)]
  {
  }
}
