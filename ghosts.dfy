/**
 * Lens-flare ghosts (src/lfg/ghost.rs): the ghost parameters and their
 * defaults, where a ghost sits relative to the flare, the uniforms and the
 * draw each of its two passes issues, the four-frame sub-pixel jitter, and
 * the triangle-fan geometry of a ghost's aperture shape.
 */
module Ghosts {
  import opened Gl
  import Shaders
  import Geometry

  /** Where the dispersion of a ghost is centred. */
  datatype DispersionCenter = Ghost | Image

  datatype Ghost = Ghost(
    color: Color4,
    offset: real,
    perpendicularOffset: real,
    size: real,
    dispersion: real,
    distortion: real,
    intensity: real,
    centerTransparency: real,
    aspectRatio: real,
    dispersionCenter: DispersionCenter)

  /** `Ghost::new` (and `Default`). */
  function New(): Ghost {
    Ghost.Ghost([0.5, 0.5, 0.5, 1.0], -1.0, 0.0, 30.0, 0.1, 0.9, 2.0, 1.0, 1.0, Image)
  }

  /**
   * `ghost_pos_from_flare_pos`: the flare position mapped from [0, 1] to
   * [-1, 1] and scaled by `offset`, then moved `perpendicularOffset` along
   * the perpendicular of `dir`, the unit direction from the image centre to
   * the flare.
   */
  function GhostPos(g: Ghost, flare: (real, real), dir: (real, real)): (real, real) {
    ((2.0 * flare.0 - 1.0) * g.offset + dir.1 * g.perpendicularOffset,
     (2.0 * flare.1 - 1.0) * g.offset - dir.0 * g.perpendicularOffset)
  }

  /**
   * The ghost lies on the line through the image centre and the flare,
   * `offset` times as far out as the flare, displaced at right angles to
   * `dir` by `perpendicularOffset` times its length. Away from the centre,
   * where the direction is defined, no perpendicular offset leaves the
   * ghost on that line.
   */
  lemma GhostPosGeometry(g: Ghost, flare: (real, real), dir: (real, real))
    ensures var p := GhostPos(g, flare, dir);
            var side := (p.0 - (2.0 * flare.0 - 1.0) * g.offset, p.1 - (2.0 * flare.1 - 1.0) * g.offset);
            && side.0 * dir.0 + side.1 * dir.1 == 0.0
            && side.0 * side.0 + side.1 * side.1
               == g.perpendicularOffset * g.perpendicularOffset * (dir.0 * dir.0 + dir.1 * dir.1)
    ensures g.perpendicularOffset == 0.0 && flare != (0.5, 0.5) ==>
              GhostPos(g, flare, dir) == ((2.0 * flare.0 - 1.0) * g.offset, (2.0 * flare.1 - 1.0) * g.offset)
  {
    var p := GhostPos(g, flare, dir);
    var k := g.perpendicularOffset;
    assert p.0 - (2.0 * flare.0 - 1.0) * g.offset == dir.1 * k;
    assert p.1 - (2.0 * flare.1 - 1.0) * g.offset == -(dir.0 * k);
    assert (dir.1 * k) * (dir.1 * k) == k * k * (dir.1 * dir.1);
    assert (-(dir.0 * k)) * (-(dir.0 * k)) == k * k * (dir.0 * dir.0);
  }

  /**
   * For a flare off the image centre, a default ghost mirrors it through the
   * centre (at the centre itself the source yields NaN); it is 30% of the screen and samples dispersion around the image centre; it is a
   * half-grey, opaque, round ghost of intensity 2 with slight dispersion and
   * strong distortion.
   */
  lemma NewGhostMirrors(flare: (real, real), dir: (real, real))
    ensures flare != (0.5, 0.5) ==> GhostPos(New(), flare, dir) == (1.0 - 2.0 * flare.0, 1.0 - 2.0 * flare.1)
    ensures New().size / 100.0 == 0.3
    ensures New().dispersionCenter != DispersionCenter.Ghost
    ensures New().color == [0.5, 0.5, 0.5, 1.0]
    ensures New().intensity == 2.0 && New().dispersion == 0.1 && New().distortion == 0.9
    ensures New().centerTransparency == 1.0 && New().aspectRatio == 1.0
  {
  }

  /**
   * The column-major 4x4 matrix `from_translation(pos, 0) * from_scale(size / 100)`
   * that places a ghost's unit shape on the screen.
   */
  function ModelMatrix(g: Ghost, pos: (real, real)): (m: seq<real>)
    ensures |m| == 16
  {
    var s := g.size / 100.0;
    [s, 0.0, 0.0, 0.0,
     0.0, s, 0.0, 0.0,
     0.0, 0.0, s, 0.0,
     pos.0, pos.1, 0.0, 1.0]
  }

  /** The x and y of a column-major 4x4 matrix applied to the point (x, y, 0, 1). */
  function Transform(m: seq<real>, p: (real, real)): (real, real)
    requires |m| == 16
  {
    (m[0] * p.0 + m[4] * p.1 + m[12], m[1] * p.0 + m[5] * p.1 + m[13])
  }

  /** The model matrix scales the shape by size / 100 about its centre and moves the centre to `pos`. */
  lemma ModelMatrixPlaces(g: Ghost, pos: (real, real), p: (real, real))
    ensures Transform(ModelMatrix(g, pos), p) == (pos.0 + g.size / 100.0 * p.0, pos.1 + g.size / 100.0 * p.1)
    ensures Transform(ModelMatrix(g, pos), (0.0, 0.0)) == pos
  {
    var m := ModelMatrix(g, pos);
    assert m[0] == g.size / 100.0 && m[1] == 0.0 && m[4] == 0.0 && m[5] == g.size / 100.0;
    assert m[12] == pos.0 && m[13] == pos.1;
    assert m[4] * p.1 == 0.0 && m[1] * p.0 == 0.0;
    assert Transform(m, p).0 == m[0] * p.0 + m[4] * p.1 + m[12];
    assert Transform(m, p).0 == pos.0 + g.size / 100.0 * p.0;
    assert Transform(m, p).1 == pos.1 + g.size / 100.0 * p.1;
    assert m[4] * 0.0 == 0.0 && m[1] * 0.0 == 0.0 && m[0] * 0.0 == 0.0 && m[5] * 0.0 == 0.0;
  }

  /**
   * `Ghost::draw` with the ghost program already bound: colour, centre
   * transparency, aspect ratio and model matrix, then one draw of the
   * ghost's shape. The window state it takes is unused.
   */
  function Draw(d: Driver, g: Ghost, shader: Shader, flarePos: (real, real), dir: (real, real),
                geo: Geometry.Geometry): seq<Cmd>
  {
    Then(Shaders.SetFloatUniform(d, shader, "color", g.color),
    Then(Shaders.SetFloatUniform(d, shader, "empty", [g.centerTransparency]),
    Then(Shaders.SetFloatUniform(d, shader, "ratio", [g.aspectRatio]),
    Then(Shaders.SetMatrixUniform(d, shader, "modelMatrix", ModelMatrix(g, GhostPos(g, flarePos, dir))),
         Geometry.Draw(geo)))))
  }

  predicate DrawUniformsExist(d: Driver, shader: Shader) {
    && Shaders.UniformExists(d, shader, "color")
    && Shaders.UniformExists(d, shader, "empty")
    && Shaders.UniformExists(d, shader, "ratio")
    && Shaders.UniformExists(d, shader, "modelMatrix")
  }

  /**
   * With all four uniforms present, `draw` sets them in the order colour,
   * empty, ratio, modelMatrix (one 4x4 matrix) and then draws the geometry
   * exactly once.
   */
  lemma DrawSequence(d: Driver, g: Ghost, shader: Shader, flarePos: (real, real), dir: (real, real),
                     geo: Geometry.Geometry)
    requires DrawUniformsExist(d, shader)
    ensures Draw(d, g, shader, flarePos, dir, geo)
         == [SetUniform(shader.programId, "color", FloatVec(g.color)),
             SetUniform(shader.programId, "empty", FloatVec([g.centerTransparency])),
             SetUniform(shader.programId, "ratio", FloatVec([g.aspectRatio])),
             SetUniform(shader.programId, "modelMatrix",
                        FloatMatrix(4, ModelMatrix(g, GhostPos(g, flarePos, dir))))]
            + Geometry.Draw(geo)
  {
    var m := ModelMatrix(g, GhostPos(g, flarePos, dir));
    var draw := Geometry.Draw(geo);
    var c4 := SetUniform(shader.programId, "modelMatrix", FloatMatrix(4, m));
    Shaders.SetMatrix4Then(d, shader, "modelMatrix", m, draw);
    Shaders.SetThreeFloats(d, shader, "color", g.color, "empty", [g.centerTransparency],
                           "ratio", [g.aspectRatio], [c4] + draw);
  }

  /** A uniform missing from the ghost program panics before anything is drawn. */
  lemma DrawMissingUniform(d: Driver, g: Ghost, shader: Shader, flarePos: (real, real), dir: (real, real),
                           geo: Geometry.Geometry)
    requires !DrawUniformsExist(d, shader)
    ensures var t := Draw(d, g, shader, flarePos, dir, geo);
            Aborted(t) && t[|t| - 1].reason.MissingUniform? && !DrawsAnything(t)
  {
    var m := ModelMatrix(g, GhostPos(g, flarePos, dir));
    MissingStopsFour(Shaders.SetFloatUniform(d, shader, "color", g.color),
                     Shaders.SetFloatUniform(d, shader, "empty", [g.centerTransparency]),
                     Shaders.SetFloatUniform(d, shader, "ratio", [g.aspectRatio]),
                     Shaders.SetMatrixUniform(d, shader, "modelMatrix", m), Geometry.Draw(geo));
  }

  /**
   * Four single-command steps, at least one of which is a missing-uniform
   * panic, run in order: the first such panic ends the trace, and no step
   * before it draws.
   */
  lemma MissingStopsFour(a1: seq<Cmd>, a2: seq<Cmd>, a3: seq<Cmd>, a4: seq<Cmd>, rest: seq<Cmd>)
    requires |a1| == 1 && |a2| == 1 && |a3| == 1 && |a4| == 1
    requires !a1[0].DrawArrays? && !a2[0].DrawArrays? && !a3[0].DrawArrays? && !a4[0].DrawArrays?
    requires a1[0].Panic? ==> a1[0].reason.MissingUniform?
    requires a2[0].Panic? ==> a2[0].reason.MissingUniform?
    requires a3[0].Panic? ==> a3[0].reason.MissingUniform?
    requires a4[0].Panic? ==> a4[0].reason.MissingUniform?
    requires a1[0].Panic? || a2[0].Panic? || a3[0].Panic? || a4[0].Panic?
    ensures var t := Then(a1, Then(a2, Then(a3, Then(a4, rest))));
            Aborted(t) && t[|t| - 1].reason.MissingUniform? && !DrawsAnything(t)
  {
    var t4 := Then(a4, rest);
    var t3 := Then(a3, t4);
    var t2 := Then(a2, t3);
    if a1[0].Panic? {
      assert Then(a1, t2) == a1;
    } else if a2[0].Panic? {
      assert t2 == a2;
      StepBeforePanic(a1, t2);
    } else if a3[0].Panic? {
      assert t3 == a3;
      StepBeforePanic(a2, t3);
      StepBeforePanic(a1, t2);
    } else {
      assert t4 == a4;
      StepBeforePanic(a3, t4);
      StepBeforePanic(a2, t3);
      StepBeforePanic(a1, t2);
    }
  }

  /** The sub-pixel offset of frame `frameNum`: a cycle through the four corners of half a pixel. */
  function Jitter(frameNum: nat): (j: seq<real>)
    ensures |j| == 2
  {
    match frameNum % 4
    case 0 => [0.0, 0.0]
    case 1 => [0.5, 0.0]
    case 2 => [0.5, 0.5]
    case 3 => [0.0, 0.5]
    case _ => [0.0, 0.0]
  }

  /** The jitter repeats every four frames. */
  lemma JitterPeriodic(frameNum: nat)
    ensures Jitter(frameNum + 4) == Jitter(frameNum)
  {
    assert (frameNum + 4) % 4 == frameNum % 4;
  }

  /**
   * Any four consecutive frames use four different offsets, which together
   * average to a quarter pixel in each direction.
   */
  lemma JitterCycle(frameNum: nat)
    ensures Jitter(frameNum) != Jitter(frameNum + 1) && Jitter(frameNum) != Jitter(frameNum + 2)
    ensures Jitter(frameNum) != Jitter(frameNum + 3) && Jitter(frameNum + 1) != Jitter(frameNum + 2)
    ensures Jitter(frameNum + 1) != Jitter(frameNum + 3) && Jitter(frameNum + 2) != Jitter(frameNum + 3)
    ensures Jitter(frameNum)[0] + Jitter(frameNum + 1)[0] + Jitter(frameNum + 2)[0] + Jitter(frameNum + 3)[0] == 1.0
    ensures Jitter(frameNum)[1] + Jitter(frameNum + 1)[1] + Jitter(frameNum + 2)[1] + Jitter(frameNum + 3)[1] == 1.0
  {
    var r := frameNum % 4;
    assert (frameNum + 1) % 4 == (r + 1) % 4;
    assert (frameNum + 2) % 4 == (r + 2) % 4;
    assert (frameNum + 3) % 4 == (r + 3) % 4;
    var a, b, c, e := Jitter(frameNum), Jitter(frameNum + 1), Jitter(frameNum + 2), Jitter(frameNum + 3);
    if r == 0 {
      assert a == [0.0, 0.0] && b == [0.5, 0.0] && c == [0.5, 0.5] && e == [0.0, 0.5];
    } else if r == 1 {
      assert a == [0.5, 0.0] && b == [0.5, 0.5] && c == [0.0, 0.5] && e == [0.0, 0.0];
    } else if r == 2 {
      assert a == [0.5, 0.5] && b == [0.0, 0.5] && c == [0.0, 0.0] && e == [0.5, 0.0];
    } else {
      assert a == [0.0, 0.5] && b == [0.0, 0.0] && c == [0.5, 0.0] && e == [0.5, 0.5];
    }
  }

  /**
   * `draw_dispersed`: intensity, dispersion, distortion, whether to disperse
   * from the ghost centre, the jitter of this frame, the ghost position (only
   * when dispersing from the ghost), then one draw of the screen quad.
   */
  function DrawDispersed(d: Driver, g: Ghost, shader: Shader, frameNum: nat, flarePos: (real, real),
                         dir: (real, real), quad: Geometry.Geometry): seq<Cmd>
  {
    var center := g.dispersionCenter == DispersionCenter.Ghost;
    var p := GhostPos(g, flarePos, dir);
    Then(Shaders.SetFloatUniform(d, shader, "intensity", [g.intensity]),
    Then(Shaders.SetFloatUniform(d, shader, "dispersion", [g.dispersion]),
    Then(Shaders.SetFloatUniform(d, shader, "distortion", [g.distortion]),
    Then(Shaders.SetIntUniform(d, shader, "disperse_from_ghost_center", [if center then 1 else 0]),
    Then(Shaders.SetFloatUniform(d, shader, "jitter_offset", Jitter(frameNum)),
    Then(if center then Shaders.SetFloatUniform(d, shader, "ghost_pos", [p.0, p.1]) else [],
         Geometry.Draw(quad)))))))
  }

  predicate DispersedUniformsExist(d: Driver, g: Ghost, shader: Shader) {
    && Shaders.UniformExists(d, shader, "intensity")
    && Shaders.UniformExists(d, shader, "dispersion")
    && Shaders.UniformExists(d, shader, "distortion")
    && Shaders.UniformExists(d, shader, "disperse_from_ghost_center")
    && Shaders.UniformExists(d, shader, "jitter_offset")
    && (g.dispersionCenter == DispersionCenter.Ghost ==> Shaders.UniformExists(d, shader, "ghost_pos"))
  }

  /**
   * With its uniforms present, `draw_dispersed` sets them in order, the
   * centre flag being 1 exactly for dispersion about the ghost, and ends
   * with one draw of the quad.
   */
  lemma DrawDispersedSequence(d: Driver, g: Ghost, shader: Shader, frameNum: nat, flarePos: (real, real),
                              dir: (real, real), quad: Geometry.Geometry)
    requires DispersedUniformsExist(d, g, shader)
    ensures var id := shader.programId;
            var center := g.dispersionCenter == DispersionCenter.Ghost;
            var p := GhostPos(g, flarePos, dir);
            (DrawDispersed(d, g, shader, frameNum, flarePos, dir, quad)
             == [SetUniform(id, "intensity", FloatVec([g.intensity])),
                 SetUniform(id, "dispersion", FloatVec([g.dispersion])),
                 SetUniform(id, "distortion", FloatVec([g.distortion])),
                 SetUniform(id, "disperse_from_ghost_center", IntVec([if center then 1 else 0])),
                 SetUniform(id, "jitter_offset", FloatVec(Jitter(frameNum)))]
                + ((if center then [SetUniform(id, "ghost_pos", FloatVec([p.0, p.1]))] else [])
                   + Geometry.Draw(quad)))
  {
    var id := shader.programId;
    var center := g.dispersionCenter == DispersionCenter.Ghost;
    var p := GhostPos(g, flarePos, dir);
    var draw := Geometry.Draw(quad);
    var t6 := Then(if center then Shaders.SetFloatUniform(d, shader, "ghost_pos", [p.0, p.1]) else [], draw);
    if center {
      Shaders.SetFloatThen(d, shader, "ghost_pos", [p.0, p.1], draw);
    }
    var c5 := SetUniform(id, "jitter_offset", FloatVec(Jitter(frameNum)));
    Shaders.SetFloatThen(d, shader, "jitter_offset", Jitter(frameNum), t6);
    var c4 := SetUniform(id, "disperse_from_ghost_center", IntVec([if center then 1 else 0]));
    Shaders.SetIntThen(d, shader, "disperse_from_ghost_center", [if center then 1 else 0], [c5] + t6);
    Shaders.SetThreeFloats(d, shader, "intensity", [g.intensity], "dispersion", [g.dispersion],
                           "distortion", [g.distortion], [c4] + ([c5] + t6));
    PrependThreeTwo(SetUniform(id, "intensity", FloatVec([g.intensity])),
                    SetUniform(id, "dispersion", FloatVec([g.dispersion])),
                    SetUniform(id, "distortion", FloatVec([g.distortion])), c4, c5, t6);
  }

  /** The ghost position is uploaded if and only if dispersion is centred on the ghost. */
  lemma GhostPosIffGhostCentre(d: Driver, g: Ghost, shader: Shader, frameNum: nat, flarePos: (real, real),
                               dir: (real, real), quad: Geometry.Geometry)
    requires DispersedUniformsExist(d, g, shader)
    ensures SetsUniform(DrawDispersed(d, g, shader, frameNum, flarePos, dir, quad), "ghost_pos")
            <==> g.dispersionCenter == DispersionCenter.Ghost
  {
    DrawDispersedSequence(d, g, shader, frameNum, flarePos, dir, quad);
    var p := GhostPos(g, flarePos, dir);
    DispersedTraceSetsGhostPos(shader.programId, g.intensity, g.dispersion, g.distortion,
                               g.dispersionCenter == DispersionCenter.Ghost, Jitter(frameNum), [p.0, p.1], quad);
  }

  /**
   * In the command list `draw_dispersed` issues, the ghost position is set
   * exactly when its optional step is present.
   */
  lemma DispersedTraceSetsGhostPos(id: Name, intensity: real, dispersion: real, distortion: real, center: bool,
                                   jitter: seq<real>, pos: seq<real>, quad: Geometry.Geometry)
    ensures SetsUniform([SetUniform(id, "intensity", FloatVec([intensity])),
                         SetUniform(id, "dispersion", FloatVec([dispersion])),
                         SetUniform(id, "distortion", FloatVec([distortion])),
                         SetUniform(id, "disperse_from_ghost_center", IntVec([if center then 1 else 0])),
                         SetUniform(id, "jitter_offset", FloatVec(jitter))]
                        + ((if center then [SetUniform(id, "ghost_pos", FloatVec(pos))] else [])
                           + Geometry.Draw(quad)), "ghost_pos")
            <==> center
  {
    var pre := [SetUniform(id, "intensity", FloatVec([intensity])),
                SetUniform(id, "dispersion", FloatVec([dispersion])),
                SetUniform(id, "distortion", FloatVec([distortion])),
                SetUniform(id, "disperse_from_ghost_center", IntVec([if center then 1 else 0])),
                SetUniform(id, "jitter_offset", FloatVec(jitter))];
    var x := if center then [SetUniform(id, "ghost_pos", FloatVec(pos))] else [];
    var draw := Geometry.Draw(quad);
    SetsUniformAppend(pre, x + draw, "ghost_pos");
    SetsUniformAppend(x, draw, "ghost_pos");
    FirstFiveNotGhostPos(pre);
    assert !SetsUniform(draw, "ghost_pos");
    if center {
      assert x[0].SetUniform? && x[0].name == "ghost_pos";
    }
  }

  /** None of the five uniforms `draw_dispersed` always sets is the ghost position. */
  lemma FirstFiveNotGhostPos(pre: seq<Cmd>)
    requires |pre| == 5 && forall i :: 0 <= i < 5 ==> pre[i].SetUniform?
    requires pre[0].name == "intensity" && pre[1].name == "dispersion" && pre[2].name == "distortion"
    requires pre[3].name == "disperse_from_ghost_center" && pre[4].name == "jitter_offset"
    ensures !SetsUniform(pre, "ghost_pos")
  {
    assert "intensity"[0] != "ghost_pos"[0];
  }

  /** Frames four apart issue the same dispersed pass. */
  lemma DrawDispersedPeriodic(d: Driver, g: Ghost, shader: Shader, frameNum: nat, flarePos: (real, real),
                              dir: (real, real), quad: Geometry.Geometry)
    ensures DrawDispersed(d, g, shader, frameNum + 4, flarePos, dir, quad)
         == DrawDispersed(d, g, shader, frameNum, flarePos, dir, quad)
  {
    JitterPeriodic(frameNum);
  }

  /** The k-th perimeter point: (1, 0) turned `k` times by `rot`. */
  function Rotated(rot: ((real, real)) -> (real, real), k: nat): (real, real) {
    if k == 0 then (1.0, 0.0) else rot(Rotated(rot, k - 1))
  }

  /** The fan's vertex data after `n` perimeter points: the centre, then each point with third component 1. */
  function FanData(rot: ((real, real)) -> (real, real), n: nat): seq<real> {
    if n == 0 then [0.0, 0.0, 0.0]
    else
      var p := Rotated(rot, n - 1);
      FanData(rot, n - 1) + [p.0, p.1, 1.0]
  }

  lemma {:induction false} FanDataLength(rot: ((real, real)) -> (real, real), n: nat)
    ensures |FanData(rot, n)| == 3 * (n + 1)
  {
    if n > 0 {
      FanDataLength(rot, n - 1);
    }
  }

  /**
   * The fan's layout: the first vertex is the centre (0, 0, 0) and vertex
   * k + 1 is the k-th perimeter point with third component 1.
   */
  lemma {:induction false} FanDataVertex(rot: ((real, real)) -> (real, real), n: nat, k: nat)
    requires k < n
    ensures |FanData(rot, n)| == 3 * (n + 1)
    ensures FanData(rot, n)[..3] == [0.0, 0.0, 0.0]
    ensures FanData(rot, n)[3 * (k + 1)..3 * (k + 2)] == [Rotated(rot, k).0, Rotated(rot, k).1, 1.0]
  {
    FanDataLength(rot, n);
    FanDataLength(rot, n - 1);
    var prev := FanData(rot, n - 1);
    var p := Rotated(rot, n - 1);
    assert FanData(rot, n) == prev + [p.0, p.1, 1.0];
    if k < n - 1 {
      FanDataVertex(rot, n - 1, k);
      assert FanData(rot, n)[3 * (k + 1)..3 * (k + 2)] == prev[3 * (k + 1)..3 * (k + 2)];
    }
    if n > 1 {
      FanDataVertex(rot, n - 1, 0);
      assert FanData(rot, n)[..3] == prev[..3];
    }
  }

  /** The builder `gen_ghost_geo` hands its data to: a fan of vec2 position plus one float. */
  function GhostGeoBuilder(data: seq<real>): Geometry.GeometryBuilder {
    Geometry.WithAttributes(Geometry.WithMode(Geometry.NewBuilder(data), Geometry.TriangleFan),
                            [Geometry.Vec2, Geometry.Float])
  }

  /**
   * The vertex loop of `gen_ghost_geo`: the centre, then the `blades + 1`
   * points of the perimeter (the last closes the fan), each turned from the
   * previous one by `rot`, the rotation by 360 / blades degrees.
   */
  method FanVertices(blades: u32, rot: ((real, real)) -> (real, real)) returns (data: seq<real>)
    ensures data == FanData(rot, blades + 1)
  {
    data := [0.0, 0.0, 0.0];
    var start := (1.0, 0.0);
    for i := 0 to blades + 1
      invariant data == FanData(rot, i)
      invariant start == Rotated(rot, i)
    {
      data := data + [start.0, start.1, 1.0];
      start := rot(start);
    }
  }

  /** `gen_ghost_geo`: the fan's vertices, built as a triangle fan of a vec2 position and one float. */
  method GenGhostGeo(blades: u32, rot: ((real, real)) -> (real, real), vao: Name, vbo: Name)
    returns (g: Geometry.Geometry, cmds: seq<Cmd>)
    ensures cmds == Geometry.BuildTrace(GhostGeoBuilder(FanData(rot, blades + 1)), vao, vbo)
    ensures !Aborted(cmds)
    ensures g == Geometry.Geometry(Geometry.TriangleFan, (3 * (blades + 2) % U32_LIMIT) / 3, vao, vbo)
  {
    var data := FanVertices(blades, rot);
    FanBuilt(blades, rot, vao, vbo);
    var r;
    r, cmds := Geometry.Build(GhostGeoBuilder(data), vao, vbo);
    g := r.value;
  }

  /** The fan always builds: a triangle fan whose count is the u32 data length over the stride 3. */
  lemma FanBuilt(blades: u32, rot: ((real, real)) -> (real, real), vao: Name, vbo: Name)
    ensures Geometry.Built(GhostGeoBuilder(FanData(rot, blades + 1)), vao, vbo)
         == Some(Geometry.Geometry(Geometry.TriangleFan, (3 * (blades + 2) % U32_LIMIT) / 3, vao, vbo))
  {
    FanDataLength(rot, blades + 1);
    var b := GhostGeoBuilder(FanData(rot, blades + 1));
    assert Geometry.Sum(b.attributes) == 3 by {
      assert b.attributes[..1] == [Geometry.Vec2];
    }
  }

  /**
   * While the data length fits in a u32, the fan has exactly `blades + 2`
   * vertices: the centre and `blades + 1` perimeter points.
   */
  lemma GhostGeoCount(blades: u32, rot: ((real, real)) -> (real, real), vao: Name, vbo: Name)
    requires 3 * (blades + 2) < U32_LIMIT
    ensures Geometry.Built(GhostGeoBuilder(FanData(rot, blades + 1)), vao, vbo).Some?
    ensures Geometry.Built(GhostGeoBuilder(FanData(rot, blades + 1)), vao, vbo).value.count == blades + 2
  {
    FanBuilt(blades, rot, vao, vbo);
  }
}
