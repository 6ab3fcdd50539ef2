/**
 * A whole lens-flare effect (src/lfg/effect.rs): one flare and a list of
 * ghosts, drawn flare first and then every ghost in list order.
 *
 * `Effect::draw` calls `ghost.draw` with the ghost program alone, a
 * signature src/lfg/ghost.rs does not offer; the ghost pass is therefore a
 * parameter here, `pass(g, program)` standing for that call.
 */
module Effect {
  import opened Gl
  import Ghosts
  import Flare
  import ShaderLib
  import Texture
  import Geometry

  /** The ghost passes of `ghosts`, in order; a pass that panics ends the sequence. */
  function GhostPasses(ghosts: seq<Ghosts.Ghost>, shader: Shader, pass: (Ghosts.Ghost, Shader) -> seq<Cmd>)
    : seq<Cmd>
    decreases |ghosts|
  {
    if ghosts == [] then []
    else Then(GhostPasses(ghosts[..|ghosts| - 1], shader, pass), pass(ghosts[|ghosts| - 1], shader))
  }

  /** Every ghost's pass, each once, in list order: what an uninterrupted loop issues. */
  function AllPasses(ghosts: seq<Ghosts.Ghost>, shader: Shader, pass: (Ghosts.Ghost, Shader) -> seq<Cmd>)
    : seq<Cmd>
    decreases |ghosts|
  {
    if ghosts == [] then [] else pass(ghosts[0], shader) + AllPasses(ghosts[1..], shader, pass)
  }

  /** No ghost's pass panics. */
  predicate NoPassPanics(ghosts: seq<Ghosts.Ghost>, shader: Shader, pass: (Ghosts.Ghost, Shader) -> seq<Cmd>) {
    forall i :: 0 <= i < |ghosts| ==> !Aborted(pass(ghosts[i], shader))
  }

  lemma {:induction false} AllPassesAppend(a: seq<Ghosts.Ghost>, b: seq<Ghosts.Ghost>, shader: Shader,
                                           pass: (Ghosts.Ghost, Shader) -> seq<Cmd>)
    ensures AllPasses(a + b, shader, pass) == AllPasses(a, shader, pass) + AllPasses(b, shader, pass)
    decreases |a|
  {
    if a == [] {
      assert a + b == b;
    } else {
      assert (a + b)[0] == a[0];
      assert (a + b)[1..] == a[1..] + b;
      AllPassesAppend(a[1..], b, shader, pass);
    }
  }

  /**
   * When no ghost's pass panics, the ghost passes are each ghost's pass
   * exactly once, in list order, and nothing panics.
   */
  lemma {:induction false} PassesInOrder(ghosts: seq<Ghosts.Ghost>, shader: Shader,
                                         pass: (Ghosts.Ghost, Shader) -> seq<Cmd>)
    requires NoPassPanics(ghosts, shader, pass)
    ensures GhostPasses(ghosts, shader, pass) == AllPasses(ghosts, shader, pass)
    ensures !Aborted(GhostPasses(ghosts, shader, pass))
    decreases |ghosts|
  {
    if ghosts != [] {
      var n := |ghosts| - 1;
      var init := ghosts[..n];
      var last := ghosts[n];
      assert NoPassPanics(init, shader, pass) by {
        forall i | 0 <= i < |init| ensures !Aborted(pass(init[i], shader)) {
          assert init[i] == ghosts[i];
        }
      }
      PassesInOrder(init, shader, pass);
      assert !Aborted(pass(last, shader));
      assert ghosts == init + [last];
      AllPassesAppend(init, [last], shader, pass);
      assert AllPasses([last], shader, pass) == pass(last, shader) + AllPasses([], shader, pass);
      assert AllPasses([last], shader, pass) == pass(last, shader);
      var prefix := AllPasses(init, shader, pass);
      if pass(last, shader) == [] {
        assert prefix + [] == prefix;
      } else {
        AbortedAppend(prefix, pass(last, shader));
      }
    }
  }

  /**
   * When the pass of ghost k is the first to panic, the ghosts before it
   * were drawn in order, its pass ends the trace, and no later ghost is drawn.
   */
  lemma {:induction false} FirstPanicStops(ghosts: seq<Ghosts.Ghost>, k: nat, shader: Shader,
                                           pass: (Ghosts.Ghost, Shader) -> seq<Cmd>)
    requires k < |ghosts|
    requires NoPassPanics(ghosts[..k], shader, pass) && Aborted(pass(ghosts[k], shader))
    ensures GhostPasses(ghosts, shader, pass) == AllPasses(ghosts[..k], shader, pass) + pass(ghosts[k], shader)
    ensures Aborted(GhostPasses(ghosts, shader, pass))
    decreases |ghosts|
  {
    var n := |ghosts| - 1;
    if k < n {
      assert ghosts[..n][..k] == ghosts[..k];
      FirstPanicStops(ghosts[..n], k, shader, pass);
    } else {
      assert ghosts[..n] == ghosts[..k];
      PassesInOrder(ghosts[..k], shader, pass);
    }
    AbortedAppend(AllPasses(ghosts[..k], shader, pass), pass(ghosts[k], shader));
  }

  class Effect {
    const flare: Flare.Flare
    var ghosts: seq<Ghosts.Ghost>

    constructor (flare: Flare.Flare)
      ensures this.flare == flare && ghosts == []
    {
      this.flare := flare;
      ghosts := [];
    }

    /** `Effect::new`: a default flare and no ghosts. */
    static method New(vao: Name, vbo: Name) returns (e: Effect, cmds: seq<Cmd>)
      ensures fresh(e) && fresh(e.flare)
      ensures e.ghosts == []
      ensures e.flare.posX == 0.0 && e.flare.posY == 0.0 && e.flare.color == [1.0, 0.5, 0.5, 1.0]
      ensures e.flare.geometry.mode == Geometry.TriangleStrip && e.flare.geometry.count == 4
      ensures cmds == Geometry.BuildTrace(Geometry.QuadBuilder(), vao, vbo)
    {
      var f;
      f, cmds := Flare.Flare.New(vao, vbo);
      e := new Effect(f);
    }

    /**
     * `Effect::draw`: the flare with the flare program, then each ghost with
     * the ghost program, in list order. Drawing changes nothing in the effect.
     */
    method Draw(d: Driver, lib: ShaderLib.ShaderLib, noise: Texture.Texture2d,
                pass: (Ghosts.Ghost, Shader) -> seq<Cmd>)
      returns (cmds: seq<Cmd>)
      ensures cmds == Then(flare.Draw(d, lib.flare, noise), GhostPasses(ghosts, lib.ghostShader, pass))
    {
      var flareCmds := flare.Draw(d, lib.flare, noise);
      cmds := flareCmds;
      var i := 0;
      while i < |ghosts|
        invariant 0 <= i <= |ghosts|
        invariant cmds == Then(flareCmds, GhostPasses(ghosts[..i], lib.ghostShader, pass))
      {
        assert ghosts[..i + 1][..i] == ghosts[..i];
        ThenAssoc(flareCmds, GhostPasses(ghosts[..i], lib.ghostShader, pass), pass(ghosts[i], lib.ghostShader));
        cmds := Then(cmds, pass(ghosts[i], lib.ghostShader));
        i := i + 1;
      }
      assert ghosts[..i] == ghosts;
    }
  }

  /**
   * With no panics the effect's trace is the flare pass followed by every
   * ghost's pass once, in order; with no ghosts it is the flare pass alone.
   */
  lemma DrawOrder(e: Effect, d: Driver, lib: ShaderLib.ShaderLib, noise: Texture.Texture2d,
                  pass: (Ghosts.Ghost, Shader) -> seq<Cmd>)
    requires !Aborted(e.flare.Draw(d, lib.flare, noise))
    requires NoPassPanics(e.ghosts, lib.ghostShader, pass)
    ensures Then(e.flare.Draw(d, lib.flare, noise), GhostPasses(e.ghosts, lib.ghostShader, pass))
         == e.flare.Draw(d, lib.flare, noise) + AllPasses(e.ghosts, lib.ghostShader, pass)
    ensures e.ghosts == [] ==>
              Then(e.flare.Draw(d, lib.flare, noise), GhostPasses(e.ghosts, lib.ghostShader, pass))
              == e.flare.Draw(d, lib.flare, noise)
  {
    PassesInOrder(e.ghosts, lib.ghostShader, pass);
    if e.ghosts == [] {
      assert e.flare.Draw(d, lib.flare, noise) + [] == e.flare.Draw(d, lib.flare, noise);
    }
  }

  /** A flare pass that panics ends the effect's trace before any ghost is drawn. */
  lemma FlarePanicStops(e: Effect, d: Driver, lib: ShaderLib.ShaderLib, noise: Texture.Texture2d,
                        pass: (Ghosts.Ghost, Shader) -> seq<Cmd>)
    requires Aborted(e.flare.Draw(d, lib.flare, noise))
    ensures Then(e.flare.Draw(d, lib.flare, noise), GhostPasses(e.ghosts, lib.ghostShader, pass))
         == e.flare.Draw(d, lib.flare, noise)
    ensures !DrawsAnything(Then(e.flare.Draw(d, lib.flare, noise), GhostPasses(e.ghosts, lib.ghostShader, pass)))
  {
  }
}
