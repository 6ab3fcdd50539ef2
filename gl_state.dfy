/**
 * What a trace does to the parts of the GL context the renderer relies on:
 * the bound framebuffer, texture units, vertex array and program, texture
 * storage, framebuffer attachments, and the clears and draws issued so far.
 * This is an independent reading of a trace, used to state what the
 * renderer's command sequences achieve rather than which calls they make.
 */
module GlState {
  import opened Gl

  datatype Storage = Storage(internalFormat: nat, width: int, height: int)

  /** One glDrawArrays call together with the bindings it used. */
  datatype DrawCall = DrawCall(framebuffer: Name, program: Name, vertexArray: Name, mode: nat, count: int)

  datatype State = State(
    framebuffer: Name,            // FRAMEBUFFER binding
    activeTexture: nat,           // argument of the last glActiveTexture (TEXTURE0 + unit)
    units: map<nat, Name>,        // TEXTURE_2D binding per texture unit enum
    vertexArray: Name,
    arrayBuffer: Name,
    program: Name,
    storage: map<Name, Storage>,  // texture name to its level-0 storage
    attachments: map<Name, Name>, // framebuffer name to its COLOR_ATTACHMENT0 texture
    clearColor: (real, real, real, real),
    cleared: seq<Name>,           // framebuffers cleared, in order
    draws: seq<DrawCall>,         // draws issued, in order
    aborted: bool)

  /** The texture bound to TEXTURE_2D on the active unit. */
  function BoundTexture(s: State): Name {
    if s.activeTexture in s.units then s.units[s.activeTexture] else 0
  }

  function Step(s: State, c: Cmd): State {
    if s.aborted then s
    else match c
      case BindVertexArray(vao) => s.(vertexArray := vao)
      case BindArrayBuffer(vbo) => s.(arrayBuffer := vbo)
      case DrawArrays(mode, _, count) =>
        s.(draws := s.draws + [DrawCall(s.framebuffer, s.program, s.vertexArray, mode, count)])
      case UseProgram(p) => s.(program := p)
      case ActiveTexture(unit) => s.(activeTexture := unit)
      case BindTexture(t) => s.(units := s.units[s.activeTexture := t])
      case TexImage2D(f, w, h, _, _) => s.(storage := s.storage[BoundTexture(s) := Storage(f, w, h)])
      case TexStorage2D(_, f, w, h) => s.(storage := s.storage[BoundTexture(s) := Storage(f, w, h)])
      case BindFramebuffer(fb) => s.(framebuffer := fb)
      case FramebufferTexture2D(t) => s.(attachments := s.attachments[s.framebuffer := t])
      case ClearColor(r, g, b, a) => s.(clearColor := (r, g, b, a))
      case Clear => s.(cleared := s.cleared + [s.framebuffer])
      case Panic(_) => s.(aborted := true)
      case _ => s
  }

  function Run(s: State, t: seq<Cmd>): State
    decreases |t|
  {
    if t == [] then s else Run(Step(s, t[0]), t[1..])
  }

  /** Running two traces one after the other is running their concatenation. */
  lemma {:induction false} RunAppend(s: State, a: seq<Cmd>, b: seq<Cmd>)
    ensures Run(s, a + b) == Run(Run(s, a), b)
    decreases |a|
  {
    if a == [] {
      assert a + b == b;
    } else {
      assert (a + b)[0] == a[0];
      assert (a + b)[1..] == a[1..] + b;
      RunAppend(Step(s, a[0]), a[1..], b);
    }
  }

  lemma RunOne(s: State, c: Cmd)
    ensures Run(s, [c]) == Step(s, c)
  {
    assert [c][1..] == [];
  }

  lemma RunTwo(s: State, c0: Cmd, c1: Cmd)
    ensures Run(s, [c0, c1]) == Step(Step(s, c0), c1)
  {
    assert [c0, c1][1..] == [c1];
    RunOne(Step(s, c0), c1);
  }

  lemma RunThree(s: State, c0: Cmd, c1: Cmd, c2: Cmd)
    ensures Run(s, [c0, c1, c2]) == Step(Step(Step(s, c0), c1), c2)
  {
    assert [c0, c1, c2][1..] == [c1, c2];
    RunTwo(Step(s, c0), c1, c2);
  }

  /** A trace without a panic never aborts the context. */
  lemma {:induction false} RunPanicFree(s: State, t: seq<Cmd>)
    requires !s.aborted && PanicFree(t)
    ensures !Run(s, t).aborted
    decreases |t|
  {
    if t != [] {
      assert PanicFree(t[1..]) by {
        forall i | 0 <= i < |t[1..]| ensures !t[1..][i].Panic? {
          assert t[1..][i] == t[i + 1];
        }
      }
      RunPanicFree(Step(s, t[0]), t[1..]);
    }
  }
}
