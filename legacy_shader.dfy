/**
 * The older in-tree shader wrapper (src/gl_wrapper/shader.rs): one source
 * string per stage, no version line and no includes, and only a float
 * uniform setter. Its `set_float_uniform`, `get_uniform_location`,
 * `ShaderType` and error enum are textually the same as the crate's and are
 * the ones in modules Shaders and Gl.
 */
module LegacyShader {
  import opened Gl
  import Shaders

  /** The commands of this `compile_shader`: the C string is made before the shader object. */
  function CompileTrace(stage: ShaderType, src: string, id: Name): seq<Cmd> {
    if HasNul(src) then [Panic(NulInSource)]
    else [CreateShader(ShaderTypeToGl(stage), id), ShaderSource(id, [src]), CompileShader(id)]
  }

  /** What this `compile_shader` returns; None when it panicked. */
  function Compiled(d: Driver, stage: ShaderType, src: string, id: Name)
    : Option<Result<Name, ShaderCompilationError>>
  {
    if HasNul(src) then None
    else match d.compileLog(stage, [src])
      case None => Some(Ok(id))
      case Some(log) => Some(Err(ProgramError(stage, log)))
  }

  /**
   * `compile_shader`: exactly one source string reaches the driver, and a
   * failure is tagged with the stage that failed.
   */
  lemma CompileOneSource(d: Driver, stage: ShaderType, src: string, id: Name)
    ensures !HasNul(src) ==> CompileTrace(stage, src, id)[1] == ShaderSource(id, [src])
    ensures forall c :: c in CompileTrace(stage, src, id) && c.ShaderSource? ==> |c.sources| == 1
    ensures Compiled(d, stage, src, id).Some? && Compiled(d, stage, src, id).value.Err? ==>
              Compiled(d, stage, src, id).value.error.ProgramError?
              && Compiled(d, stage, src, id).value.error.stage == stage
    ensures Compiled(d, stage, src, id).None? <==> Aborted(CompileTrace(stage, src, id))
  {
  }

  /** The commands of `Shader::from_str`. */
  function FromStrTrace(d: Driver, vert: string, frag: string, n: Shaders.ShaderNames): seq<Cmd> {
    var vr := Compiled(d, Vertex, vert, n.vert);
    var fr := Compiled(d, Fragment, frag, n.frag);
    CompileTrace(Vertex, vert, n.vert)
    + if vr != Some(Ok(n.vert)) then []
      else CompileTrace(Fragment, frag, n.frag)
           + if fr != Some(Ok(n.frag)) then []
             else Shaders.LinkTrace(d, [vert], [frag], n)
  }

  /** `Shader::from_str`: vertex, then fragment, then link, each failure returned through `?`. */
  function FromStr(d: Driver, vert: string, frag: string, n: Shaders.ShaderNames)
    : (r: Option<Result<Shader, ShaderCompilationError>>)
    ensures r == Some(Ok(Shader(n.program)))
        <==> Compiled(d, Vertex, vert, n.vert) == Some(Ok(n.vert))
             && Compiled(d, Fragment, frag, n.frag) == Some(Ok(n.frag))
             && d.linkLog([vert], [frag]).None?
    ensures r.None? <==> Aborted(FromStrTrace(d, vert, frag, n))
    ensures Compiled(d, Vertex, vert, n.vert).Some? && Compiled(d, Vertex, vert, n.vert).value.Err?
            ==> r == Some(Err(Compiled(d, Vertex, vert, n.vert).value.error))
    ensures Compiled(d, Vertex, vert, n.vert) == Some(Ok(n.vert)) && !HasNul(frag)
            && d.compileLog(Fragment, [frag]).Some?
            ==> r == Some(Err(ProgramError(Fragment, d.compileLog(Fragment, [frag]).value)))
                && forall c :: c in FromStrTrace(d, vert, frag, n) ==> !c.CreateProgram? && !c.LinkProgram?
    ensures r.Some? && r.value.Err? && r.value.error.LinkageError? ==>
              forall c :: c in FromStrTrace(d, vert, frag, n) ==> !c.DeleteShader?
    ensures r == Some(Ok(Shader(n.program))) ==>
              var t := FromStrTrace(d, vert, frag, n);
              t[|t| - 2..] == [DeleteShader(n.vert), DeleteShader(n.frag)]
  {
    var vr := Compiled(d, Vertex, vert, n.vert);
    var fr := Compiled(d, Fragment, frag, n.frag);
    if vr.None? then None
    else if vr.value.Err? then Some(Err(vr.value.error))
    else if fr.None? then None
    else if fr.value.Err? then Some(Err(fr.value.error))
    else match d.linkLog([vert], [frag])
      case Some(log) => Some(Err(LinkageError(log)))
      case None => Some(Ok(Shader(n.program)))
  }
}
