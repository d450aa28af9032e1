/** `basic.ring`: an annular sector, and release holes placed in polar
    coordinates: radial rows at half-step offsets, and in each row as many
    holes as keep the arc-length pitch below the release pitch. */
module Ring {
  import opened Geometry
  import opened Numeric

  /** A `gf.components.ring` instance: centreline radius, radial width,
      angular span (degrees), rotated about the origin by `rotation` degrees. */
  datatype ArcBand = ArcBand(radius: real, width: real, angle: real, rotation: real,
                             layer: Layer, angle_resolution: real)

  /** A release hole at polar position (radius, angle in radians), then
      rotated about the origin by `rotation` degrees. */
  datatype Hole = Hole(radius: real, angle: real, rotation: real)

  datatype RingOut = RingOut(band: ArcBand, holes: seq<Hole>)

  /** The angular span in degrees: a backwards span is wrapped once by 360,
      then clamped to a full turn. */
  function NormaliseSpan(a0: real, a1: real): (span: real)
    ensures span <= 360.0
    ensures a1 - a0 >= -360.0 ==> 0.0 <= span
    ensures 0.0 <= a1 - a0 <= 360.0 ==> span == a1 - a0
    ensures -360.0 <= a1 - a0 < 0.0 ==> span == a1 - a0 + 360.0
    ensures a1 - a0 > 360.0 ==> span == 360.0
  {
    var d := a1 - a0;
    var wrapped := d + (if d < 0.0 then 360.0 else 0.0);
    if wrapped > 360.0 then 360.0 else wrapped
  }

  function SpanRadians(span: real, pi: real): real
  {
    span * pi / 180.0
  }

  /** The skip rule: no spec, an unreleased spec, or an outer radius, a
      radial width or an outer arc length no larger than the release distance. */
  predicate SkipRelease(radius_inner: real, radius_outer: real, span: real,
                        release_spec: Option<ReleaseSpec>, pi: real)
  {
    || release_spec.None?
    || !release_spec.value.released
    || radius_outer <= release_spec.value.distance
    || radius_outer - radius_inner <= release_spec.value.distance
    || SpanRadians(span, pi) * radius_outer <= release_spec.value.distance
  }

  /** The largest admissible hole pitch, the diagonal of a square cell. */
  function Pitch(rs: ReleaseSpec, sqrt2: real): (s: real)
    requires WellFormed(rs) && sqrt2 > 0.0
    ensures s > 0.0
  {
    2.0 * (rs.hole_radius + rs.distance) / sqrt2
  }

  /** The number of radial rows, `width // s + 1`. */
  function RowCount(width: real, s: real): (n: nat)
    requires width >= 0.0 && s > 0.0
    ensures (n - 1) as real <= width / s < n as real
  {
    Floor(width / s) + 1
  }

  function RadialPitch(width: real, s: real): real
    requires width >= 0.0 && s > 0.0
  {
    width / RowCount(width, s) as real
  }

  /** The radius of row k, at a half-step offset from the inner edge. */
  function RowRadius(radius_inner: real, sr: real, k: nat): real
  {
    radius_inner + (k as real + 0.5) * sr
  }

  /** The number of holes in a row of radius r, `span_rad * r // s + 1`. */
  function RowSteps(span_rad: real, r: real, s: real): (steps: nat)
    requires span_rad >= 0.0 && r >= 0.0 && s > 0.0
    ensures (steps - 1) as real <= span_rad * r / s < steps as real
  {
    assert span_rad * r >= 0.0;
    Floor(span_rad * r / s) + 1
  }

  function AnglePitch(span_rad: real, r: real, s: real): real
    requires span_rad >= 0.0 && r >= 0.0 && s > 0.0
  {
    span_rad / RowSteps(span_rad, r, s) as real
  }

  /** The holes of one row: at angles `(j + 0.5) * dt` for each step j. */
  function RowHoles(r: real, span_rad: real, s: real, rotation: real): seq<Hole>
    requires span_rad >= 0.0 && r >= 0.0 && s > 0.0
  {
    var dt := AnglePitch(span_rad, r, s);
    seq(RowSteps(span_rad, r, s), j requires 0 <= j => Hole(r, (j as real + 0.5) * dt, rotation))
  }

  /** The holes of the first k rows, row after row. */
  function HolesUpTo(radius_inner: real, sr: real, span_rad: real, s: real, rotation: real, k: nat): seq<Hole>
    requires radius_inner >= 0.0 && sr > 0.0 && span_rad >= 0.0 && s > 0.0
  {
    if k == 0 then []
    else HolesUpTo(radius_inner, sr, span_rad, s, rotation, k - 1)
         + RowHoles(RowRadius(radius_inner, sr, k - 1), span_rad, s, rotation)
  }

  method Ring(radius_inner: real, radius_outer: real, angles: (real, real), geometry_layer: Layer,
              angle_resolution: real, release_spec: Option<ReleaseSpec>, pi: real, sqrt2: real)
    returns (out: RingOut)
    requires pi > 0.0 && sqrt2 > 0.0
    requires radius_inner >= 0.0
    requires release_spec.Some? ==> WellFormed(release_spec.value)
    // the band: centreline radius, width, normalised span, rotated by the start angle
    ensures out.band == ArcBand(0.5 * (radius_inner + radius_outer), radius_outer - radius_inner,
                                NormaliseSpan(angles.0, angles.1), angles.0, geometry_layer, angle_resolution)
    // no holes under the skip rule
    ensures SkipRelease(radius_inner, radius_outer, NormaliseSpan(angles.0, angles.1), release_spec, pi) ==>
      out.holes == []
    // otherwise RowCount rows of holes at the radial pitch
    ensures !SkipRelease(radius_inner, radius_outer, NormaliseSpan(angles.0, angles.1), release_spec, pi) ==>
      var s := Pitch(release_spec.value, sqrt2);
      var width := radius_outer - radius_inner;
      out.holes == HolesUpTo(radius_inner, RadialPitch(width, s),
                             SpanRadians(NormaliseSpan(angles.0, angles.1), pi), s, angles.0, RowCount(width, s))
  {
    var span := NormaliseSpan(angles.0, angles.1);
    var width := radius_outer - radius_inner;
    var band := ArcBand(0.5 * (radius_inner + radius_outer), radius_outer - radius_inner, span, angles.0,
                        geometry_layer, angle_resolution);
    out := RingOut(band, []);
    if release_spec.None? {
      return;
    }
    if !release_spec.value.released {
      return;
    }
    var rs := release_spec.value;
    if radius_outer <= rs.distance || width <= rs.distance || SpanRadians(span, pi) * radius_outer <= rs.distance {
      assert SkipRelease(radius_inner, radius_outer, span, release_spec, pi);
      return;
    }
    assert !SkipRelease(radius_inner, radius_outer, span, release_spec, pi);
    SpanPositive(span, pi, radius_outer, rs.distance);
    var s := 2.0 * (rs.hole_radius + rs.distance) / sqrt2;
    assert s == Pitch(rs, sqrt2);
    var holes := PlaceRows(radius_inner, radius_outer, span, pi, s, angles.0);
    assert Pitch(release_spec.value, sqrt2) == s;
    assert holes == HolesUpTo(radius_inner, RadialPitch(radius_outer - radius_inner, s),
                              SpanRadians(NormaliseSpan(angles.0, angles.1), pi), s, angles.0, RowCount(radius_outer - radius_inner, s));
    out := RingOut(band, holes);
  }

  /** The outer loop: one row per radius of the row `arange`. */
  method PlaceRows(radius_inner: real, radius_outer: real, span: real, pi: real, s: real, rotation: real)
    returns (holes: seq<Hole>)
    requires radius_inner >= 0.0 && radius_outer - radius_inner > 0.0
    requires span > 0.0 && pi > 0.0 && s > 0.0
    ensures var width := radius_outer - radius_inner;
      holes == HolesUpTo(radius_inner, RadialPitch(width, s), SpanRadians(span, pi), s, rotation, RowCount(width, s))
  {
    var width := radius_outer - radius_inner;
    var sr := width / (Floor(width / s) + 1) as real;
    assert sr == RadialPitch(width, s);
    RadialPitchBounds(width, s);
    var span_rad := span / 180.0 * pi;
    assert span_rad == SpanRadians(span, pi);
    var nr := ArangeLen(radius_inner + 0.5 * sr, radius_outer, sr);
    RowArangeLen(radius_inner, radius_outer, s);
    holes := [];
    for k := 0 to nr
      invariant holes == HolesUpTo(radius_inner, sr, span_rad, s, rotation, k)
    {
      var r := radius_inner + 0.5 * sr + (k as real) * sr;
      assert r == RowRadius(radius_inner, sr, k);
      var placed := PlaceRow(span, pi, r, s, rotation);
      holes := holes + placed;
    }
  }

  /** The inner loop: the holes of one row of radius r. */
  method PlaceRow(span: real, pi: real, r: real, s: real, rotation: real) returns (placed: seq<Hole>)
    requires span > 0.0 && pi > 0.0 && r > 0.0 && s > 0.0
    ensures placed == RowHoles(r, SpanRadians(span, pi), s, rotation)
  {
    var span_rad := span / 180.0 * pi;
    assert span_rad == SpanRadians(span, pi);
    var steps := Floor(span * pi / 180.0 * r / s) + 1;
    RowStepsAsWritten(span, pi, r, s);
    var dt := span / 180.0 * pi / steps as real;
    assert dt == AnglePitch(span_rad, r, s);
    var nt := ArangeLen(0.5 * dt, span / 180.0 * pi + dt, dt);
    AngleArangeLen(span_rad, r, s);
    ghost var row := RowHoles(r, span_rad, s, rotation);
    assert nt - 1 == |row|;
    placed := [];
    // every arange point but the last
    for j := 0 to nt - 1
      invariant placed == row[..j]
    {
      var t := 0.5 * dt + (j as real) * dt;
      assert t == (j as real + 0.5) * dt;
      assert row[j] == Hole(r, t, rotation);
      placed := placed + [Hole(r, t, rotation)];
    }
  }

  /** The row's step count as the source writes it, `span * pi / 180 * r // s + 1`. */
  lemma RowStepsAsWritten(span: real, pi: real, r: real, s: real)
    requires span > 0.0 && pi > 0.0 && r > 0.0 && s > 0.0
    ensures SpanRadians(span, pi) > 0.0
    ensures Floor(span * pi / 180.0 * r / s) + 1 == RowSteps(SpanRadians(span, pi), r, s)
  {
    MulStrictLeft(0.0, pi, span);
    var x := SpanRadians(span, pi);
    assert x == span * pi / 180.0;
    assert x > 0.0;
    RowStepsUnfold(x, r, s);
    assert span * pi / 180.0 * r / s == x * r / s;
  }

  lemma RowStepsUnfold(span_rad: real, r: real, s: real)
    requires span_rad >= 0.0 && r >= 0.0 && s > 0.0
    ensures RowSteps(span_rad, r, s) == Floor(span_rad * r / s) + 1
  {
  }

  /** Past the skip rule the span is positive. */
  lemma SpanPositive(span: real, pi: real, radius_outer: real, distance: real)
    requires pi > 0.0 && radius_outer > distance > 0.0
    requires SpanRadians(span, pi) * radius_outer > distance
    ensures span > 0.0
  {
  }

  /** The radial pitch is positive and strictly below the release pitch. */
  lemma {:induction false} RadialPitchBounds(width: real, s: real)
    requires width > 0.0 && s > 0.0
    ensures 0.0 < RadialPitch(width, s) < s
  {
    var n := RowCount(width, s) as real;
    assert width / s < n;
    assert width < n * s by {
      MulStrictLeft(width / s, n, s);
    }
    var sr := width / n;
    assert sr * n == width;
    if sr >= s {
      MulLeft(s, sr, n);
    }
  }

  /** numpy's row `arange` yields exactly RowCount radii. */
  lemma {:induction false} RowArangeLen(radius_inner: real, radius_outer: real, s: real)
    requires radius_outer - radius_inner > 0.0 && s > 0.0
    ensures var width := radius_outer - radius_inner;
      var sr := RadialPitch(width, s);
      sr > 0.0 && ArangeLen(radius_inner + 0.5 * sr, radius_outer, sr) == RowCount(width, s)
  {
    var width := radius_outer - radius_inner;
    RadialPitchBounds(width, s);
    var n := RowCount(width, s);
    var sr := RadialPitch(width, s);
    assert sr * (n as real) == width;
    var q := (radius_outer - (radius_inner + 0.5 * sr)) / sr;
    assert q * sr == radius_outer - (radius_inner + 0.5 * sr);
    assert (n as real - 0.5) * sr == (n as real) * sr - 0.5 * sr;
    assert q == (n - 1) as real + 0.5 by {
      if q != (n as real - 0.5) {
        if q < n as real - 0.5 {
          MulStrictLeft(q, n as real - 0.5, sr);
        } else {
          MulStrictLeft(n as real - 0.5, q, sr);
        }
      }
    }
    CeilPlusHalf(n - 1);
  }

  /** numpy's angle `arange` yields steps + 1 angles; the last is dropped. */
  lemma {:induction false} AngleArangeLen(span_rad: real, r: real, s: real)
    requires span_rad > 0.0 && r > 0.0 && s > 0.0
    ensures var dt := AnglePitch(span_rad, r, s);
      dt > 0.0 && ArangeLen(0.5 * dt, span_rad + dt, dt) == RowSteps(span_rad, r, s) + 1
  {
    var steps := RowSteps(span_rad, r, s);
    var dt := AnglePitch(span_rad, r, s);
    assert dt * (steps as real) == span_rad;
    var q := (span_rad + dt - 0.5 * dt) / dt;
    assert q * dt == span_rad + dt - 0.5 * dt;
    assert (steps as real + 0.5) * dt == (steps as real) * dt + 0.5 * dt;
    assert q == steps as real + 0.5 by {
      if q != steps as real + 0.5 {
        if q < steps as real + 0.5 {
          MulStrictLeft(q, steps as real + 0.5, dt);
        } else {
          MulStrictLeft(steps as real + 0.5, q, dt);
        }
      }
    }
    CeilPlusHalf(steps);
  }

  /** Every row lies strictly inside the band. */
  lemma {:induction false} RowsInsideBand(radius_inner: real, radius_outer: real, s: real, k: nat)
    requires radius_outer - radius_inner > 0.0 && s > 0.0
    requires k < RowCount(radius_outer - radius_inner, s)
    ensures radius_inner < RowRadius(radius_inner, RadialPitch(radius_outer - radius_inner, s), k) < radius_outer
  {
    var width := radius_outer - radius_inner;
    var n := RowCount(width, s);
    var sr := RadialPitch(width, s);
    RadialPitchBounds(width, s);
    assert sr * (n as real) == width;
    assert (k as real + 0.5) * sr > 0.0;
    MulStrictLeft(k as real + 0.5, n as real, sr);
  }

  /** Along a row the arc-length pitch `r * dt` is strictly below the
      release pitch. */
  lemma {:induction false} ArcPitchBelowPitch(span_rad: real, r: real, s: real)
    requires span_rad >= 0.0 && r >= 0.0 && s > 0.0
    ensures r * AnglePitch(span_rad, r, s) < s
  {
    var steps := RowSteps(span_rad, r, s) as real;
    var dt := AnglePitch(span_rad, r, s);
    assert dt * steps == span_rad;
    assert span_rad * r / s < steps;
    assert span_rad * r < steps * s by {
      MulStrictLeft(span_rad * r / s, steps, s);
    }
    assert (r * dt) * steps == span_rad * r;
    if r * dt >= s {
      MulLeft(s, r * dt, steps);
    }
  }

  /** Hole angles lie strictly inside (0, span_rad). */
  lemma {:induction false} RowAnglesInside(span_rad: real, r: real, s: real, j: nat)
    requires span_rad > 0.0 && r >= 0.0 && s > 0.0
    requires j < RowSteps(span_rad, r, s)
    ensures 0.0 < (j as real + 0.5) * AnglePitch(span_rad, r, s) < span_rad
  {
    var steps := RowSteps(span_rad, r, s) as real;
    var dt := AnglePitch(span_rad, r, s);
    assert dt * steps == span_rad;
    assert dt > 0.0;
    MulStrictLeft(j as real + 0.5, steps, dt);
  }

  /** Outer rows get at least as many holes as inner rows. */
  lemma RowStepsMonotone(span_rad: real, r1: real, r2: real, s: real)
    requires span_rad >= 0.0 && 0.0 <= r1 <= r2 && s > 0.0
    ensures RowSteps(span_rad, r1, s) <= RowSteps(span_rad, r2, s)
  {
    MulLeft(r1, r2, span_rad);
    assert span_rad * r1 / s <= span_rad * r2 / s;
    FloorMonotone(span_rad * r1 / s, span_rad * r2 / s);
  }

  /** The row holes carry the row's radius, the common rotation, and angles
      strictly inside the span. */
  lemma {:induction false} RowHolesInside(r: real, span_rad: real, s: real, rotation: real, h: Hole)
    requires span_rad > 0.0 && r >= 0.0 && s > 0.0
    requires h in RowHoles(r, span_rad, s, rotation)
    ensures h.radius == r && h.rotation == rotation && 0.0 < h.angle < span_rad
  {
    var row := RowHoles(r, span_rad, s, rotation);
    var j :| 0 <= j < |row| && row[j] == h;
    RowAnglesInside(span_rad, r, s, j);
  }

  /** Every hole of the first k rows lies strictly inside the band's radii
      and strictly inside its angular span, rotated by the start angle. */
  lemma {:induction false} HolesInsideBand(radius_inner: real, radius_outer: real, span_rad: real, s: real,
                                           rotation: real, k: nat, h: Hole)
    requires radius_inner >= 0.0 && radius_outer - radius_inner > 0.0 && span_rad > 0.0 && s > 0.0
    requires k <= RowCount(radius_outer - radius_inner, s)
    requires h in HolesUpTo(radius_inner, RadialPitch(radius_outer - radius_inner, s), span_rad, s, rotation, k)
    ensures radius_inner < h.radius < radius_outer
    ensures 0.0 < h.angle < span_rad && h.rotation == rotation
  {
    var sr := RadialPitch(radius_outer - radius_inner, s);
    RadialPitchBounds(radius_outer - radius_inner, s);
    if h in HolesUpTo(radius_inner, sr, span_rad, s, rotation, k - 1) {
      HolesInsideBand(radius_inner, radius_outer, span_rad, s, rotation, k - 1, h);
    } else {
      var r := RowRadius(radius_inner, sr, k - 1);
      RowsInsideBand(radius_inner, radius_outer, s, k - 1);
      RowHolesInside(r, span_rad, s, rotation, h);
    }
  }
}
