/**
 * The flare itself (src/lfg/flare.rs): a screen quad drawn with the flare
 * program, its colour uniform and the noise texture. Position and colour
 * are fields the UI overwrites in place.
 */
module Flare {
  import opened Gl
  import GlState
  import Shaders
  import Texture
  import Geometry

  class Flare {
    const geometry: Geometry.Geometry
    var posX: real
    var posY: real
    var color: Color4

    constructor (geometry: Geometry.Geometry)
      ensures this.geometry == geometry
      ensures posX == 0.0 && posY == 0.0 && color == [1.0, 0.5, 0.5, 1.0]
    {
      this.geometry := geometry;
      posX := 0.0;
      posY := 0.0;
      color := [1.0, 0.5, 0.5, 1.0];
    }

    /** `Flare::new`: a flare at the origin, pinkish, drawn on a new screen quad. */
    static method New(vao: Name, vbo: Name) returns (f: Flare, cmds: seq<Cmd>)
      ensures fresh(f)
      ensures f.posX == 0.0 && f.posY == 0.0 && f.color == [1.0, 0.5, 0.5, 1.0]
      ensures f.geometry.mode == Geometry.TriangleStrip && f.geometry.count == 4 && f.geometry.vao == vao
      ensures cmds == Geometry.BuildTrace(Geometry.QuadBuilder(), vao, vbo) && !Aborted(cmds)
    {
      var g;
      g, cmds := Geometry.Quad(vao, vbo);
      f := new Flare(g);
    }

    /**
     * `draw`: bind the program, set its colour, put the noise texture on unit
     * 0 and draw the quad. Only a missing `color` uniform stops it.
     */
    function Draw(d: Driver, shader: Shader, noise: Texture.Texture2d): (cmds: seq<Cmd>)
      reads this
      ensures !Aborted(cmds) <==> Shaders.UniformExists(d, shader, "color")
      ensures Aborted(cmds) ==> !DrawsAnything(cmds)
      ensures !Aborted(cmds) ==> !SetsUniform(cmds, "flare_position")
    {
      Then(Shaders.Bind(shader) + Shaders.SetFloatUniform(d, shader, "color", color),
           Texture.Bind(noise, 0) + Geometry.Draw(geometry))
    }

    /** `set_position`: the position changes and nothing else. */
    method SetPosition(newX: real, newY: real)
      modifies this
      ensures posX == newX && posY == newY
      ensures color == old(color)
    {
      posX := newX;
      posY := newY;
    }

    /** `set_color`: the colour changes and nothing else. */
    method SetColor(c: Color4)
      modifies this
      ensures color == c
      ensures posX == old(posX) && posY == old(posY)
    {
      color := c;
    }
  }

  /**
   * A flare draw binds the flare program, sets exactly one uniform, the
   * current colour, puts the noise texture on unit 0 and then draws the quad,
   * in that order; it issues exactly one draw call, with the flare program
   * bound, through the quad's vertex array and with the noise texture on
   * unit 0.
   */
  lemma DrawEffect(f: Flare, s: GlState.State, d: Driver, shader: Shader, noise: Texture.Texture2d)
    requires !s.aborted && Shaders.UniformExists(d, shader, "color")
    ensures f.Draw(d, shader, noise)
         == [UseProgram(shader.programId), SetUniform(shader.programId, "color", FloatVec(f.color)),
             ActiveTexture(TEXTURE0), BindTexture(noise.texId)]
            + Geometry.Draw(f.geometry)
    ensures var e := GlState.Run(s, f.Draw(d, shader, noise));
            && e.draws == s.draws + [GlState.DrawCall(s.framebuffer, shader.programId, f.geometry.vao,
                                                       Geometry.ToGlEnum(f.geometry.mode), AsI32(f.geometry.count))]
            && e.activeTexture == TEXTURE0
            && GlState.BoundTexture(e) == noise.texId
  {
    var c := SetUniform(shader.programId, "color", FloatVec(f.color));
    Shaders.SetFloatThen(d, shader, "color", f.color, Texture.Bind(noise, 0) + Geometry.Draw(f.geometry));
    assert f.Draw(d, shader, noise) == [UseProgram(shader.programId), c] + Texture.Bind(noise, 0) + Geometry.Draw(f.geometry);
    assert [UseProgram(shader.programId), c] + Texture.Bind(noise, 0) + Geometry.Draw(f.geometry)
        == [UseProgram(shader.programId), c, ActiveTexture(TEXTURE0), BindTexture(noise.texId)] + Geometry.Draw(f.geometry);
    QuadPassEffect(s, shader.programId, c, noise, f.geometry);
  }

  /**
   * Bind a program, set one uniform, put a texture on unit 0 and draw a
   * geometry: one draw with that program and vertex array, unit 0 active
   * and sampling the texture.
   */
  lemma QuadPassEffect(s: GlState.State, program: Name, uniform: Cmd, tex: Texture.Texture2d, g: Geometry.Geometry)
    requires !s.aborted && uniform.SetUniform?
    ensures var e := GlState.Run(s, [UseProgram(program), uniform] + Texture.Bind(tex, 0) + Geometry.Draw(g));
            && e.draws == s.draws + [GlState.DrawCall(s.framebuffer, program, g.vao,
                                                       Geometry.ToGlEnum(g.mode), AsI32(g.count))]
            && e.activeTexture == TEXTURE0
            && GlState.BoundTexture(e) == tex.texId
  {
    var draw := DrawArrays(Geometry.ToGlEnum(g.mode), 0, AsI32(g.count));
    var a := [UseProgram(program), uniform, ActiveTexture(TEXTURE0)];
    var b := [BindTexture(tex.texId), BindVertexArray(g.vao), draw];
    assert [UseProgram(program), uniform] + Texture.Bind(tex, 0) + Geometry.Draw(g) == a + b;
    GlState.RunAppend(s, a, b);
    BindProgramEffect(s, program, uniform);
    DrawTextureEffect(GlState.Run(s, a), tex, g);
  }

  /** Binding a program, setting a uniform and activating unit 0 change only those two bindings. */
  lemma BindProgramEffect(s: GlState.State, program: Name, uniform: Cmd)
    requires !s.aborted && uniform.SetUniform?
    ensures GlState.Run(s, [UseProgram(program), uniform, ActiveTexture(TEXTURE0)])
         == s.(program := program, activeTexture := TEXTURE0)
  {
    GlState.RunThree(s, UseProgram(program), uniform, ActiveTexture(TEXTURE0));
  }

  /** Binding a texture on the active unit, then drawing a geometry, issues that one draw. */
  lemma DrawTextureEffect(s: GlState.State, tex: Texture.Texture2d, g: Geometry.Geometry)
    requires !s.aborted
    ensures var e := GlState.Run(s, [BindTexture(tex.texId), BindVertexArray(g.vao),
                                      DrawArrays(Geometry.ToGlEnum(g.mode), 0, AsI32(g.count))]);
            && e.draws == s.draws + [GlState.DrawCall(s.framebuffer, s.program, g.vao,
                                                       Geometry.ToGlEnum(g.mode), AsI32(g.count))]
            && e.activeTexture == s.activeTexture
            && GlState.BoundTexture(e) == tex.texId
  {
    GlState.RunThree(s, BindTexture(tex.texId), BindVertexArray(g.vao),
                     DrawArrays(Geometry.ToGlEnum(g.mode), 0, AsI32(g.count)));
  }

  /** The position never reaches the GL: two flares differing only in position draw identically. */
  lemma DrawIgnoresPosition(f1: Flare, f2: Flare, d: Driver, shader: Shader, noise: Texture.Texture2d)
    requires f1.geometry == f2.geometry && f1.color == f2.color
    ensures f1.Draw(d, shader, noise) == f2.Draw(d, shader, noise)
  {
  }
}
