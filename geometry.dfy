/**
 * Static vertex buffers: the builder, the vertex count derived from the
 * attribute layout, and the single draw call a geometry issues
 * (src/gl_wrapper/geometry.rs).
 */
module Geometry {
  import opened Gl
  import GlState

  datatype GeometryType = Triangles | TriangleFan | TriangleStrip

  /** `From<GeometryType> for GLenum`: each mode has its own primitive enum. */
  function ToGlEnum(t: GeometryType): (e: nat)
    ensures e == TRIANGLES <==> t == Triangles
    ensures e == TRIANGLE_FAN <==> t == TriangleFan
    ensures e == TRIANGLE_STRIP <==> t == TriangleStrip
  {
    match t
    case Triangles => TRIANGLES
    case TriangleFan => TRIANGLE_FAN
    case TriangleStrip => TRIANGLE_STRIP
  }

  /** Number of f32 components of one vertex attribute (the enum's discriminant). */
  datatype AttrSize = Float | Vec2 | Vec3 | Vec4

  function Components(a: AttrSize): nat {
    match a
    case Float => 1
    case Vec2 => 2
    case Vec3 => 3
    case Vec4 => 4
  }

  /** Sum of the component counts of a layout: the stride, in floats, of an interleaved vertex. */
  function Sum(attrs: seq<AttrSize>): nat {
    if attrs == [] then 0 else Sum(attrs[..|attrs| - 1]) + Components(attrs[|attrs| - 1])
  }

  datatype GeometryBuilder = GeometryBuilder(data: seq<real>, attributes: seq<AttrSize>, mode: GeometryType)

  /** `GeometryBuilder::new`: the data, no attributes, and triangle lists. */
  function NewBuilder(data: seq<real>): (b: GeometryBuilder)
    ensures b.data == data && b.attributes == [] && b.mode == Triangles
  {
    GeometryBuilder(data, [], Triangles)
  }

  /** `mode`: only the primitive mode changes. */
  function WithMode(b: GeometryBuilder, mode: GeometryType): (r: GeometryBuilder)
    ensures r.mode == mode
    ensures r.data == b.data && r.attributes == b.attributes
  {
    b.(mode := mode)
  }

  /** `with_attributes`: the new attributes follow the existing ones, in order. */
  function WithAttributes(b: GeometryBuilder, attrs: seq<AttrSize>): (r: GeometryBuilder)
    ensures |r.attributes| == |b.attributes| + |attrs|
    ensures r.attributes[..|b.attributes|] == b.attributes
    ensures forall i :: 0 <= i < |attrs| ==> r.attributes[|b.attributes| + i] == attrs[i]
    ensures r.data == b.data && r.mode == b.mode
  {
    b.(attributes := b.attributes + attrs)
  }

  datatype Geometry = Geometry(mode: GeometryType, count: u32, vao: Name, vbo: Name)

  /** `Geometry::draw`. */
  function Draw(g: Geometry): seq<Cmd> {
    [BindVertexArray(g.vao), DrawArrays(ToGlEnum(g.mode), 0, AsI32(g.count))]
  }

  /** Drawing adds exactly one draw call, of the whole buffer, through the geometry's vertex array. */
  lemma DrawIssuesOneDraw(g: Geometry, s: GlState.State)
    requires !s.aborted
    ensures GlState.Run(s, Draw(g)).draws
         == s.draws + [GlState.DrawCall(s.framebuffer, s.program, g.vao, ToGlEnum(g.mode), AsI32(g.count))]
    ensures GlState.Run(s, Draw(g)).vertexArray == g.vao
  {
    var s1 := GlState.Step(s, BindVertexArray(g.vao));
    var t := Draw(g);
    assert t[1..][1..] == [];
    assert GlState.Run(s, t) == GlState.Run(GlState.Step(s1, t[1]), []);
  }

  /** The VertexAttribPointer and EnableVertexAttribArray calls for the first `n` attributes. */
  function AttribCmds(attrs: seq<AttrSize>, total: nat, n: nat): seq<Cmd>
    requires n <= |attrs|
  {
    if n == 0 then []
    else AttribCmds(attrs, total, n - 1)
         + [VertexAttribPointer(n - 1, Components(attrs[n - 1]), total * FLOAT_SIZE, Sum(attrs[..n - 1]) * FLOAT_SIZE),
            EnableVertexAttribArray(n - 1)]
  }

  /** The commands of `build`. An empty layout divides by zero after the buffer is set up. */
  function BuildTrace(b: GeometryBuilder, vao: Name, vbo: Name): seq<Cmd> {
    var total := Sum(b.attributes);
    [GenVertexArray(vao), GenBuffer(vbo), BindVertexArray(vao), BindArrayBuffer(vbo), BufferData(b.data)]
    + AttribCmds(b.attributes, total, |b.attributes|)
    + [BindArrayBuffer(0), BindVertexArray(0)]
    + (if total == 0 then [Panic(DivideByZero)] else [])
  }

  /** The geometry `build` returns: the count is `data.len() as u32 / total as u32`. */
  function Built(b: GeometryBuilder, vao: Name, vbo: Name): Option<Geometry> {
    var total := Sum(b.attributes);
    if total == 0 then None
    else Some(Geometry(b.mode, (|b.data| % U32_LIMIT) / total, vao, vbo))
  }

  /** Attribute i gets stride 4*total bytes and byte offset 4*(sizes of attributes 0..i-1). */
  lemma {:induction false} AttribCmdsAt(attrs: seq<AttrSize>, total: nat, n: nat, i: nat)
    requires n <= |attrs| && i < n
    ensures |AttribCmds(attrs, total, n)| == 2 * n
    ensures AttribCmds(attrs, total, n)[2 * i]
         == VertexAttribPointer(i, Components(attrs[i]), total * FLOAT_SIZE, Sum(attrs[..i]) * FLOAT_SIZE)
    ensures AttribCmds(attrs, total, n)[2 * i + 1] == EnableVertexAttribArray(i)
  {
    if i < n - 1 {
      AttribCmdsAt(attrs, total, n - 1, i);
    } else {
      AttribCmdsLength(attrs, total, n - 1);
    }
  }

  lemma {:induction false} AttribCmdsLength(attrs: seq<AttrSize>, total: nat, n: nat)
    requires n <= |attrs|
    ensures |AttribCmds(attrs, total, n)| == 2 * n
  {
    if n > 0 {
      AttribCmdsLength(attrs, total, n - 1);
    }
  }

  /** Summing a layout one attribute further. */
  lemma PrefixSumStep(attrs: seq<AttrSize>, i: nat)
    requires i < |attrs|
    ensures Sum(attrs[..i + 1]) == Sum(attrs[..i]) + Components(attrs[i])
  {
    assert attrs[..i + 1][..i] == attrs[..i];
  }

  /** Each attribute lies inside the vertex: offset plus size never exceeds the stride. */
  lemma {:induction false} AttributeWithinStride(attrs: seq<AttrSize>, i: nat)
    requires i < |attrs|
    ensures Sum(attrs[..i]) + Components(attrs[i]) <= Sum(attrs)
    ensures i + 1 == |attrs| ==> Sum(attrs[..i]) + Components(attrs[i]) == Sum(attrs)
    decreases |attrs|
  {
    PrefixSumStep(attrs, i);
    if i + 1 < |attrs| {
      var init := attrs[..|attrs| - 1];
      assert init[..i] == attrs[..i] && init[i] == attrs[i];
      AttributeWithinStride(init, i);
    } else {
      assert attrs[..i + 1] == attrs;
    }
  }

  /** The fold in `build` that adds up the components of all attributes: the stride in floats. */
  method Total(attrs: seq<AttrSize>) returns (total: nat)
    ensures total == Sum(attrs)
  {
    total := 0;
    var i := 0;
    while i < |attrs|
      invariant 0 <= i <= |attrs|
      invariant total == Sum(attrs[..i])
    {
      PrefixSumStep(attrs, i);
      total := total + Components(attrs[i]);
      i := i + 1;
    }
    assert attrs[..|attrs|] == attrs;
  }

  /** `GeometryBuilder::build`: uploads the data, declares one pointer per attribute, derives the count. */
  method Build(b: GeometryBuilder, vao: Name, vbo: Name) returns (g: Option<Geometry>, cmds: seq<Cmd>)
    ensures cmds == BuildTrace(b, vao, vbo)
    ensures g == Built(b, vao, vbo)
    ensures g.None? <==> Aborted(cmds)
  {
    var attrs := b.attributes;
    cmds := [GenVertexArray(vao), GenBuffer(vbo), BindVertexArray(vao), BindArrayBuffer(vbo), BufferData(b.data)];
    ghost var setup := cmds;

    var total := Total(attrs);
    var offset := 0;
    var i := 0;
    while i < |attrs|
      invariant 0 <= i <= |attrs|
      invariant offset == Sum(attrs[..i])
      invariant cmds == setup + AttribCmds(attrs, total, i)
    {
      var step := [VertexAttribPointer(i, Components(attrs[i]), total * FLOAT_SIZE, offset * FLOAT_SIZE),
                   EnableVertexAttribArray(i)];
      AttribCmdsStep(setup, attrs, total, i);
      cmds := cmds + step;
      PrefixSumStep(attrs, i);
      offset := offset + Components(attrs[i]);
      i := i + 1;
    }

    cmds := cmds + [BindArrayBuffer(0), BindVertexArray(0)];
    if total == 0 {
      cmds := cmds + [Panic(DivideByZero)];
      g := None;
    } else {
      assert cmds[|cmds| - 1] == BindVertexArray(0);
      assert cmds + [] == cmds;
      g := Some(Geometry(b.mode, (|b.data| % U32_LIMIT) / total, vao, vbo));
    }
  }

  /** One more attribute appends its pointer declaration and its enable to the trace so far. */
  lemma AttribCmdsStep(setup: seq<Cmd>, attrs: seq<AttrSize>, total: nat, i: nat)
    requires i < |attrs|
    ensures setup + AttribCmds(attrs, total, i + 1)
         == setup + AttribCmds(attrs, total, i)
            + [VertexAttribPointer(i, Components(attrs[i]), total * FLOAT_SIZE, Sum(attrs[..i]) * FLOAT_SIZE),
               EnableVertexAttribArray(i)]
  {
  }

  /**
   * The vertex count is the number of whole vertices in the data: a length
   * that is not a multiple of the stride loses its tail, and an exact
   * multiple gives exactly length / stride vertices.
   */
  lemma BuiltCount(b: GeometryBuilder, vao: Name, vbo: Name)
    requires Sum(b.attributes) > 0 && |b.data| < U32_LIMIT
    ensures Built(b, vao, vbo).Some?
    ensures var n := Built(b, vao, vbo).value.count;
            n * Sum(b.attributes) <= |b.data| < (n + 1) * Sum(b.attributes)
    ensures |b.data| % Sum(b.attributes) == 0 ==>
            Built(b, vao, vbo).value.count * Sum(b.attributes) == |b.data|
  {
  }

  /** The 16 floats of the screen quad: position and texture coordinate for four corners. */
  const QUAD: seq<real> := [
    -1.0, -1.0, 0.0, 0.0,
    -1.0, 1.0, 0.0, 1.0,
    1.0, -1.0, 1.0, 0.0,
    1.0, 1.0, 1.0, 1.0
  ]

  function QuadBuilder(): GeometryBuilder {
    WithAttributes(WithMode(NewBuilder(QUAD), TriangleStrip), [Vec2, Vec2])
  }

  /** `quad()`: four vertices of two vec2 attributes, drawn as a triangle strip. */
  method Quad(vao: Name, vbo: Name) returns (g: Geometry, cmds: seq<Cmd>)
    ensures g.mode == TriangleStrip && g.count == 4 && g.vao == vao && g.vbo == vbo
    ensures cmds == BuildTrace(QuadBuilder(), vao, vbo) && !Aborted(cmds)
  {
    var b := QuadBuilder();
    assert Sum(b.attributes) == 4 by {
      assert b.attributes[..1] == [Vec2];
    }
    var r;
    r, cmds := Build(b, vao, vbo);
    g := r.value;
  }
}
