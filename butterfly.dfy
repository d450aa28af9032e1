/** `butterfly`: a half-butterfly joint: an inner carriage arc, and one beam
    placed radially at each of the two angles and at their mirror images
    about 90 degrees. */
module Butterfly {
  import opened Geometry
  import Beam

  /** The carriage: a `ring` instance with centreline radius, width and
      angular span (degrees), rotated about the origin by `rotation` degrees. */
  datatype CarriageRef = CarriageRef(radius: real, width: real, angle: real, rotation: real,
                                     layer: Layer, angle_resolution: real, release: Option<ReleaseSpec>)

  /** A beam instance moved `offset` along x, then rotated about the origin
      by `rotation` degrees: it lies radially along that angle. */
  datatype RadialRef = RadialRef(offset: real, rotation: real)

  datatype ButterflyOut = ButterflyOut(carriage: CarriageRef, beam: seq<Block>, beams: seq<RadialRef>)

  /** The carriage start angle: the first beam angle less the angle that
      half a beam width subtends at the carriage's outer radius. */
  function AngleStart(a0: real, radius_inner: real, width_inner: real, width_beam: real, pi: real): real
    requires pi > 0.0 && radius_inner + width_inner != 0.0
  {
    a0 - 0.5 * width_beam / (radius_inner + width_inner) / (pi / 180.0)
  }

  function BeamOffset(radius_inner: real, radius_outer: real, width_inner: real): real
  {
    0.5 * (radius_outer + radius_inner + width_inner)
  }

  function BeamLength(radius_inner: real, radius_outer: real, width_inner: real, width_beam: real): real
  {
    radius_outer - radius_inner - width_inner + 0.5 * width_beam
  }

  /** The four beam angles: the two sorted angles, then their mirror images
      about 90 degrees in reverse order. */
  function BeamAngles(s: (real, real)): seq<real>
  {
    [s.0, s.1, 180.0 - s.1, 180.0 - s.0]
  }

  /** The inner carriage: centreline radius `Ri + wi/2`, width `wi`, span
      `180 - 2 * angle_start`, rotated by `angle_start`; perforated only
      when `release_inner`. */
  function Carriage(radius_inner: real, width_inner: real, width_beam: real, angles: (real, real),
                    geometry_layer: Layer, angle_resolution: real, release_inner: bool,
                    release_spec: Option<ReleaseSpec>, pi: real): CarriageRef
    requires pi > 0.0 && radius_inner + width_inner != 0.0
  {
    var start := AngleStart(Sorted(angles).0, radius_inner, width_inner, width_beam, pi);
    CarriageRef(radius_inner + 0.5 * width_inner, width_inner, 180.0 - 2.0 * start, start,
                geometry_layer, angle_resolution, if release_inner then release_spec else None)
  }

  method Butterfly(radius_inner: real, radius_outer: real, width_inner: real, width_beam: real,
                   angles: (real, real), geometry_layer: Layer, thick_length: real, thick_width: real,
                   thick_offset: real, release_inner: bool, angle_resolution: real,
                   release_spec: Option<ReleaseSpec>, pi: real) returns (out: ButterflyOut)
    requires pi > 0.0 && radius_inner + width_inner != 0.0
    ensures out.carriage == Carriage(radius_inner, width_inner, width_beam, angles, geometry_layer,
                                     angle_resolution, release_inner, release_spec, pi)
    // one beam, always carrying the release spec, reaching from the carriage to the rim
    ensures out.beam == Beam.Beam(BeamLength(radius_inner, radius_outer, width_inner, width_beam), width_beam,
                                  geometry_layer, release_spec, thick_length, thick_width, thick_offset)
    // placed at the four mirrored angles, in order
    ensures |out.beams| == 4
    ensures forall k :: 0 <= k < 4 ==>
      out.beams[k] == RadialRef(BeamOffset(radius_inner, radius_outer, width_inner), BeamAngles(Sorted(angles))[k])
  {
    var sorted := Sorted(angles);
    var carriage := Carriage(radius_inner, width_inner, width_beam, angles, geometry_layer,
                             angle_resolution, release_inner, release_spec, pi);
    var beam_offset := 0.5 * (radius_outer + radius_inner + width_inner);
    var beam := Beam.Beam(radius_outer - radius_inner - width_inner + 0.5 * width_beam, width_beam,
                          geometry_layer, release_spec, thick_length, thick_width, thick_offset);
    var placements := [sorted.0, sorted.1, 180.0 - sorted.1, 180.0 - sorted.0];
    var beams := [];
    for k := 0 to 4
      invariant |beams| == k
      invariant forall m :: 0 <= m < k ==> beams[m] == RadialRef(beam_offset, placements[m])
    {
      beams := beams + [RadialRef(beam_offset, placements[k])];
    }
    out := ButterflyOut(carriage, beam, beams);
  }

  /** The four beam angles pair up symmetrically about 90 degrees and keep
      their order. */
  lemma BeamAnglesMirrored(angles: (real, real))
    ensures var b := BeamAngles(Sorted(angles));
      && b[0] + b[3] == 180.0 && b[1] + b[2] == 180.0
      && b[0] <= b[1] && b[2] <= b[3]
  {
  }

  /** The carriage's margin past the first beam angle is exactly half a beam
      width of arc at the carriage's outer radius, so with a positive beam
      width the carriage starts strictly before the first beam. */
  lemma {:induction false} CarriageMargin(a0: real, radius_inner: real, width_inner: real, width_beam: real, pi: real)
    requires pi > 0.0 && radius_inner + width_inner > 0.0
    ensures (a0 - AngleStart(a0, radius_inner, width_inner, width_beam, pi)) * (pi / 180.0) * (radius_inner + width_inner)
            == 0.5 * width_beam
    ensures width_beam > 0.0 ==> AngleStart(a0, radius_inner, width_inner, width_beam, pi) < a0
  {
    var r := radius_inner + width_inner;
    var m := 0.5 * width_beam / r / (pi / 180.0);
    assert m * (pi / 180.0) == 0.5 * width_beam / r;
    assert m * (pi / 180.0) * r == 0.5 * width_beam;
  }

  /** The carriage spans `[angle_start, 180 - angle_start]`: symmetric
      about 90 degrees, on a ring of width wi whose outer edge is `Ri + wi`,
      and perforated only when asked to. */
  lemma CarriageSymmetric(radius_inner: real, width_inner: real, width_beam: real, angles: (real, real),
                          geometry_layer: Layer, angle_resolution: real, release_inner: bool,
                          release_spec: Option<ReleaseSpec>, pi: real)
    requires pi > 0.0 && radius_inner + width_inner != 0.0
    ensures var c := Carriage(radius_inner, width_inner, width_beam, angles, geometry_layer,
                              angle_resolution, release_inner, release_spec, pi);
      && c.rotation + (c.rotation + c.angle) == 180.0
      && c.rotation == AngleStart(Sorted(angles).0, radius_inner, width_inner, width_beam, pi)
      && c.radius - 0.5 * c.width == radius_inner && c.radius + 0.5 * c.width == radius_inner + width_inner
      && (c.release.Some? ==> release_inner)
  {
  }

  /** With a positive beam width and the two angles not past their mirror
      images (`a0 + a1 <= 180`), every beam angle lies strictly inside the
      carriage's span. */
  lemma {:induction false} BeamsOnCarriage(angles: (real, real), radius_inner: real, width_inner: real,
                                           width_beam: real, pi: real, k: nat)
    requires pi > 0.0 && radius_inner + width_inner > 0.0 && width_beam > 0.0
    requires angles.0 + angles.1 <= 180.0 && k < 4
    ensures var start := AngleStart(Sorted(angles).0, radius_inner, width_inner, width_beam, pi);
      start < BeamAngles(Sorted(angles))[k] < 180.0 - start
  {
    CarriageMargin(Sorted(angles).0, radius_inner, width_inner, width_beam, pi);
  }

  /** The beam reaches radially from `Ri + wi - wb/4`, inside the carriage,
      to `Ro + wb/4`, past the rim: its outer ends, moved by the offset. */
  lemma BeamRadialSpan(radius_inner: real, radius_outer: real, width_inner: real, width_beam: real,
                       geometry_layer: Layer, release_spec: Option<ReleaseSpec>,
                       thick_length: real, thick_width: real, thick_offset: real)
    ensures var offset := BeamOffset(radius_inner, radius_outer, width_inner);
      var p := Beam.Beam(BeamLength(radius_inner, radius_outer, width_inner, width_beam), width_beam,
                         geometry_layer, release_spec, thick_length, thick_width, thick_offset);
      var inner, outer := if |p| == 1 then p[0] else p[1], if |p| == 1 then p[0] else p[2];
      && offset + inner.rect.Left() == radius_inner + width_inner - 0.25 * width_beam
      && offset + outer.rect.Right() == radius_outer + 0.25 * width_beam
  {
  }
}
