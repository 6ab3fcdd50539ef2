/**
 * The offscreen HDR render target (src/gl_wrapper/framebuffer.rs): a
 * framebuffer with one R11F_G11F_B10F colour texture, the `bound` flag that
 * guards `clear`, and the scoped `draw_with` that binds the target around a
 * callback and restores the default framebuffer afterwards.
 */
module Framebuffer {
  import opened Gl
  import GlState

  /**
   * A shared borrow `&Framebuffer`: the field values a callback or a `&self`
   * method sees. Such methods cannot change the fields, so they are functions
   * of these values.
   */
  datatype FramebufferRef = FramebufferRef(fbId: Name, colorBuf: Name, bound: bool) {

    /** `clear`: opaque black, but only while this target is bound. */
    function Clear(): seq<Cmd> {
      if bound then [ClearColor(0.0, 0.0, 0.0, 1.0), Cmd.Clear] else []
    }

    /** `bind_as_color_texture`: the colour texture on texture unit `unit`. */
    function BindAsColorTexture(unit: u8): seq<Cmd> {
      [ActiveTexture(TEXTURE0 + unit), BindTexture(colorBuf)]
    }

    /** `resize`: new storage for the same colour texture. */
    function Resize(width: u32, height: u32): seq<Cmd> {
      [BindTexture(colorBuf), TexImage2D(R11F_G11F_B10F, AsI32(width), AsI32(height), RGBA, FLOAT), BindTexture(0)]
    }
  }

  /** `bind_default`: the window's framebuffer. */
  function BindDefault(): seq<Cmd> {
    [BindFramebuffer(0)]
  }

  /** The commands of `Framebuffer::hdr`; an incomplete framebuffer panics while still bound. */
  function HdrTrace(d: Driver, width: u32, height: u32, fb: Name, tex: Name): seq<Cmd> {
    [GenFramebuffer(fb), GenTexture(tex), BindTexture(tex),
     TexImage2D(R11F_G11F_B10F, AsI32(width), AsI32(height), RGBA, FLOAT),
     TexParameter(TEXTURE_MIN_FILTER, LINEAR), TexParameter(TEXTURE_MAG_FILTER, LINEAR),
     BindFramebuffer(fb), FramebufferTexture2D(tex)]
    + if d.framebufferComplete then BindDefault() else [Panic(FramebufferIncomplete)]
  }

  /** The commands of `draw_with`: nothing runs after a callback that panicked. */
  function DrawWithTrace(fbId: Name, colorBuf: Name, draw: FramebufferRef -> seq<Cmd>): seq<Cmd> {
    Then([BindFramebuffer(fbId)] + draw(FramebufferRef(fbId, colorBuf, true)), BindDefault())
  }

  /** The commands of `draw_with_default`: the callback gets a bound stand-in with names 0. */
  function DrawWithDefault(draw: FramebufferRef -> seq<Cmd>): seq<Cmd> {
    BindDefault() + draw(FramebufferRef(0, 0, true))
  }

  class Framebuffer {
    const fbId: Name
    const colorBuf: Name
    var bound: bool

    constructor (fbId: Name, colorBuf: Name)
      ensures this.fbId == fbId && this.colorBuf == colorBuf && !bound
    {
      this.fbId := fbId;
      this.colorBuf := colorBuf;
      bound := false;
    }

    function Borrow(): FramebufferRef
      reads this
    {
      FramebufferRef(fbId, colorBuf, bound)
    }

    /**
     * `Framebuffer::hdr`: a new target with its colour texture attached,
     * not bound, and the default framebuffer bound again; it panics if the
     * driver reports the framebuffer incomplete.
     */
    static method Hdr(d: Driver, width: u32, height: u32, fb: Name, tex: Name)
      returns (r: Option<Framebuffer>, cmds: seq<Cmd>)
      ensures cmds == HdrTrace(d, width, height, fb, tex)
      ensures r.Some? <==> d.framebufferComplete
      ensures r.Some? ==> fresh(r.value) && r.value.Borrow() == FramebufferRef(fb, tex, false)
    {
      cmds := [GenFramebuffer(fb), GenTexture(tex), BindTexture(tex),
               TexImage2D(R11F_G11F_B10F, AsI32(width), AsI32(height), RGBA, FLOAT),
               TexParameter(TEXTURE_MIN_FILTER, LINEAR), TexParameter(TEXTURE_MAG_FILTER, LINEAR),
               BindFramebuffer(fb), FramebufferTexture2D(tex)];
      if !d.framebufferComplete {
        cmds := cmds + [Panic(FramebufferIncomplete)];
        return None, cmds;
      }
      cmds := cmds + BindDefault();
      var f := new Framebuffer(fb, tex);
      r := Some(f);
    }

    /**
     * `draw_with`: binds this target, runs the callback while `bound` is
     * true, then clears the flag and binds the default framebuffer. If the
     * callback panics the flag stays set and nothing is restored.
     */
    method DrawWith(draw: FramebufferRef -> seq<Cmd>) returns (cmds: seq<Cmd>)
      modifies this
      ensures cmds == DrawWithTrace(fbId, colorBuf, draw)
      ensures bound <==> Aborted(draw(FramebufferRef(fbId, colorBuf, true)))
    {
      cmds := [BindFramebuffer(fbId)];
      bound := true;
      var inner := draw(Borrow());
      cmds := cmds + inner;
      if Aborted(inner) {
        return;
      }
      bound := false;
      cmds := cmds + BindDefault();
    }
  }

  /** `hdr` leaves the texture attached, sized and the default framebuffer bound. */
  lemma HdrEffect(s: GlState.State, d: Driver, width: u32, height: u32, fb: Name, tex: Name)
    requires !s.aborted && d.framebufferComplete
    ensures var e := GlState.Run(s, HdrTrace(d, width, height, fb, tex));
            && e.framebuffer == 0
            && fb in e.attachments && e.attachments[fb] == tex
            && tex in e.storage && e.storage[tex] == GlState.Storage(R11F_G11F_B10F, AsI32(width), AsI32(height))
            && !e.aborted
  {
    var a := [GenFramebuffer(fb), GenTexture(tex), BindTexture(tex)];
    var b := [TexImage2D(R11F_G11F_B10F, AsI32(width), AsI32(height), RGBA, FLOAT),
              TexParameter(TEXTURE_MIN_FILTER, LINEAR), TexParameter(TEXTURE_MAG_FILTER, LINEAR)];
    var c := [BindFramebuffer(fb), FramebufferTexture2D(tex), BindFramebuffer(0)];
    assert HdrTrace(d, width, height, fb, tex) == a + (b + c);
    GlState.RunAppend(s, a, b + c);
    GlState.RunAppend(GlState.Run(s, a), b, c);
    HdrAllocates(s, fb, tex);
    HdrStores(GlState.Run(s, a), width, height);
    HdrAttaches(GlState.Run(GlState.Run(s, a), b), fb, tex);
  }

  /** The first three commands of `hdr`: only the new texture is bound on the active unit. */
  lemma HdrAllocates(s: GlState.State, fb: Name, tex: Name)
    requires !s.aborted
    ensures var e := GlState.Run(s, [GenFramebuffer(fb), GenTexture(tex), BindTexture(tex)]);
            !e.aborted && GlState.BoundTexture(e) == tex
  {
    GlState.RunThree(s, GenFramebuffer(fb), GenTexture(tex), BindTexture(tex));
  }

  /** The next three: storage for the bound texture, then its filters. */
  lemma HdrStores(s: GlState.State, width: u32, height: u32)
    requires !s.aborted
    ensures GlState.Run(s, [TexImage2D(R11F_G11F_B10F, AsI32(width), AsI32(height), RGBA, FLOAT),
                            TexParameter(TEXTURE_MIN_FILTER, LINEAR), TexParameter(TEXTURE_MAG_FILTER, LINEAR)])
            .storage
         == s.storage[GlState.BoundTexture(s) := GlState.Storage(R11F_G11F_B10F, AsI32(width), AsI32(height))]
    ensures !GlState.Run(s, [TexImage2D(R11F_G11F_B10F, AsI32(width), AsI32(height), RGBA, FLOAT),
                             TexParameter(TEXTURE_MIN_FILTER, LINEAR), TexParameter(TEXTURE_MAG_FILTER, LINEAR)]).aborted
  {
    GlState.RunThree(s, TexImage2D(R11F_G11F_B10F, AsI32(width), AsI32(height), RGBA, FLOAT),
                     TexParameter(TEXTURE_MIN_FILTER, LINEAR), TexParameter(TEXTURE_MAG_FILTER, LINEAR));
  }

  /** The last three: the texture attached to the new framebuffer, then the default one bound. */
  lemma HdrAttaches(s: GlState.State, fb: Name, tex: Name)
    requires !s.aborted
    ensures var e := GlState.Run(s, [BindFramebuffer(fb), FramebufferTexture2D(tex), BindFramebuffer(0)]);
            && e.attachments == s.attachments[fb := tex] && e.framebuffer == 0
            && e.storage == s.storage && !e.aborted
  {
    GlState.RunThree(s, BindFramebuffer(fb), FramebufferTexture2D(tex), BindFramebuffer(0));
    var s1 := GlState.Step(s, BindFramebuffer(fb));
    assert !s1.aborted && s1.framebuffer == fb && s1.storage == s.storage && s1.attachments == s.attachments;
  }

  /** A bound target's `clear` clears exactly the bound framebuffer to opaque black; unbound, it does nothing. */
  lemma ClearEffect(s: GlState.State, r: FramebufferRef)
    requires !s.aborted
    ensures r.bound ==> GlState.Run(s, r.Clear()).cleared == s.cleared + [s.framebuffer]
    ensures r.bound ==> GlState.Run(s, r.Clear()).clearColor == (0.0, 0.0, 0.0, 1.0)
    ensures !r.bound ==> GlState.Run(s, r.Clear()) == s
  {
    if r.bound {
      var s1 := GlState.Step(s, ClearColor(0.0, 0.0, 0.0, 1.0));
      assert s1.framebuffer == s.framebuffer && !s1.aborted && s1.cleared == s.cleared;
      GlState.RunTwo(s, ClearColor(0.0, 0.0, 0.0, 1.0), Cmd.Clear);
    } else {
      assert r.Clear() == [];
    }
  }

  /**
   * `resize` gives the same colour texture new storage: the framebuffer
   * keeps that texture as its attachment and stays bound as before, and
   * TEXTURE_2D is unbound afterwards.
   */
  lemma ResizeEffect(s: GlState.State, r: FramebufferRef, width: u32, height: u32)
    requires !s.aborted
    ensures var e := GlState.Run(s, r.Resize(width, height));
            && r.colorBuf in e.storage
            && e.storage[r.colorBuf] == GlState.Storage(R11F_G11F_B10F, AsI32(width), AsI32(height))
            && (forall t :: t in s.storage && t != r.colorBuf ==> t in e.storage && e.storage[t] == s.storage[t])
            && e.attachments == s.attachments
            && e.framebuffer == s.framebuffer
            && GlState.BoundTexture(e) == 0
  {
    var t := r.Resize(width, height);
    GlState.RunThree(s, t[0], t[1], t[2]);
    assert GlState.BoundTexture(GlState.Step(s, t[0])) == r.colorBuf;
  }

  /** `bind_as_color_texture(u)` makes the colour texture the one sampled on unit TEXTURE0 + u. */
  lemma BindAsColorTextureEffect(s: GlState.State, r: FramebufferRef, unit: u8)
    requires !s.aborted
    ensures var e := GlState.Run(s, r.BindAsColorTexture(unit));
            e.activeTexture == TEXTURE0 + unit && GlState.BoundTexture(e) == r.colorBuf
            && e.framebuffer == s.framebuffer && e.storage == s.storage
  {
    var t := r.BindAsColorTexture(unit);
    GlState.RunTwo(s, t[0], t[1]);
  }

  /** Whatever a non-panicking callback does, `draw_with` ends with the default framebuffer bound. */
  lemma DrawWithRestoresDefault(s: GlState.State, fbId: Name, colorBuf: Name, draw: FramebufferRef -> seq<Cmd>)
    requires !s.aborted && PanicFree(draw(FramebufferRef(fbId, colorBuf, true)))
    ensures GlState.Run(s, DrawWithTrace(fbId, colorBuf, draw)).framebuffer == 0
  {
    var inner := draw(FramebufferRef(fbId, colorBuf, true));
    var body := [BindFramebuffer(fbId)] + inner;
    PanicFreePrepend(BindFramebuffer(fbId), inner);
    GlState.RunAppend(s, body, BindDefault());
    GlState.RunPanicFree(s, body);
    GlState.RunOne(GlState.Run(s, body), BindFramebuffer(0));
  }

  /** A callback that clears clears this target: it runs with the target bound and `bound` set. */
  lemma DrawWithClearClearsTarget(s: GlState.State, fbId: Name, colorBuf: Name)
    requires !s.aborted
    ensures var e := GlState.Run(s, DrawWithTrace(fbId, colorBuf, (r: FramebufferRef) => r.Clear()));
            e.cleared == s.cleared + [fbId] && e.framebuffer == 0
  {
    var inner := FramebufferRef(fbId, colorBuf, true).Clear();
    var s1 := GlState.Step(s, BindFramebuffer(fbId));
    GlState.RunAppend(s, [BindFramebuffer(fbId)], inner);
    GlState.RunOne(s, BindFramebuffer(fbId));
    ClearEffect(s1, FramebufferRef(fbId, colorBuf, true));
    var s2 := GlState.Run(s1, inner);
    GlState.RunTwo(s1, ClearColor(0.0, 0.0, 0.0, 1.0), Cmd.Clear);
    GlState.RunAppend(s, [BindFramebuffer(fbId)] + inner, BindDefault());
    GlState.RunOne(s2, BindFramebuffer(0));
  }

  /** Inside `draw_with_default`, `clear` acts on the window's framebuffer. */
  lemma DrawWithDefaultClearsWindow(s: GlState.State)
    requires !s.aborted
    ensures GlState.Run(s, DrawWithDefault((r: FramebufferRef) => r.Clear())).cleared == s.cleared + [0]
  {
    var inner := FramebufferRef(0, 0, true).Clear();
    var s1 := GlState.Step(s, BindFramebuffer(0));
    GlState.RunAppend(s, BindDefault(), inner);
    GlState.RunOne(s, BindFramebuffer(0));
    ClearEffect(s1, FramebufferRef(0, 0, true));
  }
}
