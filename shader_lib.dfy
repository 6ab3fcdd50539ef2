/**
 * The renderer's three programs (src/lfg/shader_lib.rs): flare, ghost and
 * tonemap, each built from a vertex and a fragment source with the common
 * GLSL code included after the version line, built in that order and
 * stopping at the first failure.
 */
module ShaderLib {
  import opened Gl
  import Shaders

  /** The GLSL files compiled into the binary; their text is an input here. */
  datatype Sources = Sources(
    common: string,
    quadVert: string,
    flareFrag: string,
    ghostVert: string,
    ghostFrag: string,
    tonemap: string)

  /** The three programs; `ghost` is a Dafny keyword, so that field is `ghostShader`. */
  datatype ShaderLib = ShaderLib(flare: Shader, ghostShader: Shader, tonemap: Shader)

  /** GL names for the objects of each of the three builds. */
  datatype LibNames = LibNames(flare: Shaders.ShaderNames, ghostShader: Shaders.ShaderNames, tonemap: Shaders.ShaderNames)

  /** The include list of every program: the version line, then the common code. */
  function Includes(src: Sources): seq<string> {
    [Shaders.SHADER_VERSION, src.common]
  }

  function FlareBuild(d: Driver, src: Sources, n: LibNames): Option<Result<Shader, ShaderCompilationError>> {
    Shaders.Built(d, src.quadVert, src.flareFrag, Includes(src), n.flare)
  }

  function GhostBuild(d: Driver, src: Sources, n: LibNames): Option<Result<Shader, ShaderCompilationError>> {
    Shaders.Built(d, src.ghostVert, src.ghostFrag, Includes(src), n.ghostShader)
  }

  function TonemapBuild(d: Driver, src: Sources, n: LibNames): Option<Result<Shader, ShaderCompilationError>> {
    Shaders.Built(d, src.quadVert, src.tonemap, Includes(src), n.tonemap)
  }

  /** A build that returned a program: neither panicked nor failed. */
  predicate Succeeded(r: Option<Result<Shader, ShaderCompilationError>>) {
    r.Some? && r.value.Ok?
  }

  /** The commands of `ShaderLib::new`: each build runs only if the previous one produced a program. */
  function NewTrace(d: Driver, src: Sources, n: LibNames): seq<Cmd> {
    Shaders.BuildTrace(d, src.quadVert, src.flareFrag, Includes(src), n.flare)
    + if !Succeeded(FlareBuild(d, src, n)) then []
      else Shaders.BuildTrace(d, src.ghostVert, src.ghostFrag, Includes(src), n.ghostShader)
           + if !Succeeded(GhostBuild(d, src, n)) then []
             else Shaders.BuildTrace(d, src.quadVert, src.tonemap, Includes(src), n.tonemap)
  }

  /** What `ShaderLib::new` returns; None when it panicked. */
  function NewLib(d: Driver, src: Sources, n: LibNames): Option<Result<ShaderLib, ShaderCompilationError>> {
    var f := FlareBuild(d, src, n);
    var g := GhostBuild(d, src, n);
    var t := TonemapBuild(d, src, n);
    if f.None? then None
    else if f.value.Err? then Some(Err(f.value.error))
    else if g.None? then None
    else if g.value.Err? then Some(Err(g.value.error))
    else if t.None? then None
    else if t.value.Err? then Some(Err(t.value.error))
    else Some(Ok(ShaderLib(f.value.value, g.value.value, t.value.value)))
  }

  /** `ShaderLib::new`, with the builder calls of the source; each `?` returns the first error. */
  method New(d: Driver, src: Sources, n: LibNames)
    returns (r: Option<Result<ShaderLib, ShaderCompilationError>>, cmds: seq<Cmd>)
    ensures r == NewLib(d, src, n)
    ensures cmds == NewTrace(d, src, n)
  {
    NewTraceSteps(d, src, n);
    var fb := new Shaders.ShaderBuilder(src.quadVert, src.flareFrag);
    fb.WithCommonCode(src.common);
    assert fb.includes == Includes(src);
    var flare, fcmds := fb.Build(d, n.flare);
    cmds := fcmds;
    if flare.None? {
      return None, cmds;
    }
    if flare.value.Err? {
      return Some(Err(flare.value.error)), cmds;
    }
    var gb := new Shaders.ShaderBuilder(src.ghostVert, src.ghostFrag);
    gb.WithCommonCode(src.common);
    assert gb.includes == Includes(src);
    var ghostProgram, gcmds := gb.Build(d, n.ghostShader);
    cmds := cmds + gcmds;
    if ghostProgram.None? {
      return None, cmds;
    }
    if ghostProgram.value.Err? {
      return Some(Err(ghostProgram.value.error)), cmds;
    }
    var tb := new Shaders.ShaderBuilder(src.quadVert, src.tonemap);
    tb.WithCommonCode(src.common);
    assert tb.includes == Includes(src);
    var tonemap, tcmds := tb.Build(d, n.tonemap);
    cmds := cmds + tcmds;
    if tonemap.None? {
      return None, cmds;
    }
    if tonemap.value.Err? {
      return Some(Err(tonemap.value.error)), cmds;
    }
    r := Some(Ok(ShaderLib(flare.value.value, ghostProgram.value.value, tonemap.value.value)));
  }

  /** The trace of `ShaderLib::new` is the builds up to the first one that did not produce a program. */
  lemma NewTraceSteps(d: Driver, src: Sources, n: LibNames)
    ensures var ft := Shaders.BuildTrace(d, src.quadVert, src.flareFrag, Includes(src), n.flare);
            var gt := Shaders.BuildTrace(d, src.ghostVert, src.ghostFrag, Includes(src), n.ghostShader);
            var tt := Shaders.BuildTrace(d, src.quadVert, src.tonemap, Includes(src), n.tonemap);
            && (!Succeeded(FlareBuild(d, src, n)) ==> NewTrace(d, src, n) == ft)
            && (Succeeded(FlareBuild(d, src, n)) && !Succeeded(GhostBuild(d, src, n)) ==> NewTrace(d, src, n) == ft + gt)
            && (Succeeded(FlareBuild(d, src, n)) && Succeeded(GhostBuild(d, src, n)) ==> NewTrace(d, src, n) == ft + gt + tt)
  {
    var ft := Shaders.BuildTrace(d, src.quadVert, src.flareFrag, Includes(src), n.flare);
    var gt := Shaders.BuildTrace(d, src.ghostVert, src.ghostFrag, Includes(src), n.ghostShader);
    var tt := Shaders.BuildTrace(d, src.quadVert, src.tonemap, Includes(src), n.tonemap);
    assert ft + gt + tt == ft + (gt + tt);
  }

  /**
   * The library is built exactly when all three programs build, in the order
   * flare, ghost, tonemap, and then holds those three programs.
   */
  lemma NewOkIff(d: Driver, src: Sources, n: LibNames)
    ensures NewLib(d, src, n).Some? && NewLib(d, src, n).value.Ok?
        <==> Succeeded(FlareBuild(d, src, n)) && Succeeded(GhostBuild(d, src, n)) && Succeeded(TonemapBuild(d, src, n))
    ensures NewLib(d, src, n).Some? && NewLib(d, src, n).value.Ok? ==>
              NewLib(d, src, n).value.value
              == ShaderLib(Shader(n.flare.program), Shader(n.ghostShader.program), Shader(n.tonemap.program))
    ensures NewLib(d, src, n).Some? && NewLib(d, src, n).value.Ok? ==>
              NewTrace(d, src, n)
              == Shaders.BuildTrace(d, src.quadVert, src.flareFrag, Includes(src), n.flare)
                 + Shaders.BuildTrace(d, src.ghostVert, src.ghostFrag, Includes(src), n.ghostShader)
                 + Shaders.BuildTrace(d, src.quadVert, src.tonemap, Includes(src), n.tonemap)
  {
    var f := FlareBuild(d, src, n);
    var g := GhostBuild(d, src, n);
    var t := TonemapBuild(d, src, n);
    if Succeeded(f) && Succeeded(g) && Succeeded(t) {
      Shaders.BuildOkIff(d, src.quadVert, src.flareFrag, Includes(src), n.flare);
      Shaders.BuildOkIff(d, src.ghostVert, src.ghostFrag, Includes(src), n.ghostShader);
      Shaders.BuildOkIff(d, src.quadVert, src.tonemap, Includes(src), n.tonemap);
    }
  }

  /**
   * A flare program that fails to build is the error returned, and no
   * command of the ghost or tonemap builds is issued.
   */
  lemma FlareFailureStops(d: Driver, src: Sources, n: LibNames)
    requires FlareBuild(d, src, n).Some? && FlareBuild(d, src, n).value.Err?
    ensures NewLib(d, src, n) == Some(Err(FlareBuild(d, src, n).value.error))
    ensures NewTrace(d, src, n) == Shaders.BuildTrace(d, src.quadVert, src.flareFrag, Includes(src), n.flare)
  {
  }

  /** A ghost program that fails to build is the error returned, after the flare build and before any tonemap command. */
  lemma GhostFailureStops(d: Driver, src: Sources, n: LibNames)
    requires Succeeded(FlareBuild(d, src, n))
    requires GhostBuild(d, src, n).Some? && GhostBuild(d, src, n).value.Err?
    ensures NewLib(d, src, n) == Some(Err(GhostBuild(d, src, n).value.error))
    ensures NewTrace(d, src, n)
         == Shaders.BuildTrace(d, src.quadVert, src.flareFrag, Includes(src), n.flare)
            + Shaders.BuildTrace(d, src.ghostVert, src.ghostFrag, Includes(src), n.ghostShader)
  {
  }

  /**
   * Every stage is compiled with the version line and the common code in
   * front of its own source, and the flare and tonemap programs share the
   * quad vertex source.
   */
  lemma StageSources(d: Driver, src: Sources, n: LibNames)
    requires NewLib(d, src, n).Some? && NewLib(d, src, n).value.Ok?
    ensures ShaderSource(n.flare.vert, [Shaders.SHADER_VERSION, src.common, src.quadVert]) in NewTrace(d, src, n)
    ensures ShaderSource(n.flare.frag, [Shaders.SHADER_VERSION, src.common, src.flareFrag]) in NewTrace(d, src, n)
    ensures ShaderSource(n.ghostShader.vert, [Shaders.SHADER_VERSION, src.common, src.ghostVert]) in NewTrace(d, src, n)
    ensures ShaderSource(n.ghostShader.frag, [Shaders.SHADER_VERSION, src.common, src.ghostFrag]) in NewTrace(d, src, n)
    ensures ShaderSource(n.tonemap.vert, [Shaders.SHADER_VERSION, src.common, src.quadVert]) in NewTrace(d, src, n)
    ensures ShaderSource(n.tonemap.frag, [Shaders.SHADER_VERSION, src.common, src.tonemap]) in NewTrace(d, src, n)
  {
    NewOkIff(d, src, n);
    var inc := Includes(src);
    Shaders.BuildSources(d, src.quadVert, src.flareFrag, inc, n.flare);
    Shaders.BuildSources(d, src.ghostVert, src.ghostFrag, inc, n.ghostShader);
    Shaders.BuildSources(d, src.quadVert, src.tonemap, inc, n.tonemap);
    assert inc + [src.quadVert] == [Shaders.SHADER_VERSION, src.common, src.quadVert];
    assert inc + [src.flareFrag] == [Shaders.SHADER_VERSION, src.common, src.flareFrag];
    assert inc + [src.ghostVert] == [Shaders.SHADER_VERSION, src.common, src.ghostVert];
    assert inc + [src.ghostFrag] == [Shaders.SHADER_VERSION, src.common, src.ghostFrag];
    assert inc + [src.tonemap] == [Shaders.SHADER_VERSION, src.common, src.tonemap];
  }

  /** The commands of `ShaderLib::default`: a failed build is unwrapped into a panic. */
  function DefaultTrace(d: Driver, src: Sources, n: LibNames): seq<Cmd> {
    var r := NewLib(d, src, n);
    NewTrace(d, src, n) + if r.Some? && r.value.Err? then [Panic(ShaderLibFailed(r.value.error))] else []
  }

  /** `ShaderLib::default`: the library, or a panic for any build that panics or fails. */
  function Default(d: Driver, src: Sources, n: LibNames): (r: Option<ShaderLib>)
    ensures r.Some? <==> NewLib(d, src, n).Some? && NewLib(d, src, n).value.Ok?
    ensures r.Some? ==> NewLib(d, src, n) == Some(Ok(r.value))
    ensures r.None? <==> Aborted(DefaultTrace(d, src, n))
  {
    NewLibNoneIffAborted(d, src, n);
    var lib := NewLib(d, src, n);
    if lib.Some? && lib.value.Ok? then Some(lib.value.value) else None
  }

  /** `ShaderLib::new` panics exactly when its trace ends in a panic. */
  lemma NewLibNoneIffAborted(d: Driver, src: Sources, n: LibNames)
    ensures NewLib(d, src, n).None? <==> Aborted(NewTrace(d, src, n))
  {
    var inc := Includes(src);
    var ft := Shaders.BuildTrace(d, src.quadVert, src.flareFrag, inc, n.flare);
    var gt := Shaders.BuildTrace(d, src.ghostVert, src.ghostFrag, inc, n.ghostShader);
    var tt := Shaders.BuildTrace(d, src.quadVert, src.tonemap, inc, n.tonemap);
    Shaders.BuildOkIff(d, src.quadVert, src.flareFrag, inc, n.flare);
    Shaders.BuildOkIff(d, src.ghostVert, src.ghostFrag, inc, n.ghostShader);
    Shaders.BuildOkIff(d, src.quadVert, src.tonemap, inc, n.tonemap);
    Shaders.BuildNonEmpty(d, src.ghostVert, src.ghostFrag, inc, n.ghostShader);
    Shaders.BuildNonEmpty(d, src.quadVert, src.tonemap, inc, n.tonemap);
    if Succeeded(FlareBuild(d, src, n)) {
      if Succeeded(GhostBuild(d, src, n)) {
        AbortedAppend(gt, tt);
        AbortedAppend(ft, gt + tt);
      } else {
        AbortedAppend(gt, []);
        AbortedAppend(ft, gt);
      }
    } else {
      AbortedAppend(ft, []);
    }
  }
}
