/** `angular_comb`: `comb_count + 1` concentric arc fingers filling the
    radial band `[radius_inner, radius_outer]` with `comb_gap` between
    neighbours; even fingers start at the lower angle, odd ones end at the
    upper angle, and neighbours overlap by `comb_overlap_angle` degrees. */
module AngularComb {
  import opened Geometry
  import Numeric

  /** An arc instance: centreline radius, width, angular span from 0,
      rotated about the origin by `rotation` degrees. */
  datatype ArcFinger = ArcFinger(radius: real, width: real, angle: real, rotation: real,
                                 layer: Layer, angle_resolution: real)

  /** Each finger's angular span, in degrees. */
  function Span(angles: (real, real), comb_overlap_angle: real): real
  {
    (Sorted(angles).1 - Sorted(angles).0 + comb_overlap_angle) / 2.0
  }

  /** The finger width that makes `n` fingers and `comb_count` gaps fill the
      band exactly. `comb_count = -1` divides by zero in the source. */
  function FingerWidth(radius_inner: real, radius_outer: real, comb_gap: real, comb_count: int): real
    requires comb_count != -1
  {
    (radius_outer - radius_inner - comb_count as real * comb_gap) / (comb_count + 1) as real
  }

  /** Inner radius of finger `i`. */
  function InnerRadius(i: nat, radius_inner: real, finger_width: real, comb_gap: real): real
  {
    radius_inner + i as real * (finger_width + comb_gap)
  }

  function Finger(i: nat, radius_inner: real, finger_width: real, comb_gap: real, angles: (real, real),
                  span: real, geometry_layer: Layer, angle_resolution: real): ArcFinger
  {
    var r_in := InnerRadius(i, radius_inner, finger_width, comb_gap);
    ArcFinger((r_in + (r_in + finger_width)) / 2.0, finger_width, span,
              if i % 2 == 0 then Sorted(angles).0 else Sorted(angles).1 - span,
              geometry_layer, angle_resolution)
  }

  method AngularComb(radius_inner: real, radius_outer: real, angles: (real, real), comb_gap: real,
                     comb_count: int, comb_overlap_angle: real, geometry_layer: Layer,
                     angle_resolution: real) returns (r: Result<seq<ArcFinger>>)
    requires comb_count != -1
    // the span is checked first, then the finger width
    ensures Span(angles, comb_overlap_angle) <= 0.0 ==> r == Err(AngularSpanNotPositive)
    ensures Span(angles, comb_overlap_angle) > 0.0 && FingerWidth(radius_inner, radius_outer, comb_gap, comb_count) <= 0.0
            ==> r == Err(FingerWidthNotPositive)
    ensures r.Ok? <==> (Span(angles, comb_overlap_angle) > 0.0 &&
                        FingerWidth(radius_inner, radius_outer, comb_gap, comb_count) > 0.0)
    ensures r.Ok? ==> |r.value| == Numeric.RangeLen(comb_count + 1)
    ensures r.Ok? ==> forall i :: 0 <= i < |r.value| ==>
      r.value[i] == Finger(i, radius_inner, FingerWidth(radius_inner, radius_outer, comb_gap, comb_count), comb_gap,
                           angles, Span(angles, comb_overlap_angle), geometry_layer, angle_resolution)
  {
    var sorted := Sorted(angles);
    var theta_start, theta_end := sorted.0, sorted.1;
    var span := (theta_end - theta_start + comb_overlap_angle) / 2.0;
    if span <= 0.0 {
      return Err(AngularSpanNotPositive);
    }
    var n_fingers := comb_count + 1;
    var total_radial_span := radius_outer - radius_inner;
    var finger_width := (total_radial_span - comb_count as real * comb_gap) / n_fingers as real;
    if finger_width <= 0.0 {
      return Err(FingerWidthNotPositive);
    }
    var fingers := [];
    var i := 0;
    while i < n_fingers
      invariant 0 <= i && i == |fingers|
      invariant n_fingers >= 0 ==> i <= n_fingers
      invariant n_fingers < 0 ==> i == 0
      invariant forall m :: 0 <= m < i ==>
        fingers[m] == Finger(m, radius_inner, finger_width, comb_gap, angles, span, geometry_layer, angle_resolution)
    {
      var r_in := InnerRadius(i, radius_inner, finger_width, comb_gap);
      var r_out := r_in + finger_width;
      var rotation := if i % 2 == 0 then theta_start else theta_end - span;
      var finger := ArcFinger((r_in + r_out) / 2.0, finger_width, span, rotation, geometry_layer, angle_resolution);
      fingers := fingers + [finger];
      i := i + 1;
    }
    return Ok(fingers);
  }

  /** The fingers and gaps fill the band exactly: the first finger's inner
      edge is `radius_inner` and the last finger's outer edge is
      `radius_outer`. */
  lemma {:induction false} FingersFillBand(radius_inner: real, radius_outer: real, comb_gap: real, comb_count: nat)
    ensures var fw := FingerWidth(radius_inner, radius_outer, comb_gap, comb_count);
      && InnerRadius(0, radius_inner, fw, comb_gap) == radius_inner
      && InnerRadius(comb_count, radius_inner, fw, comb_gap) + fw == radius_outer
  {
    var fw := FingerWidth(radius_inner, radius_outer, comb_gap, comb_count);
    var n := (comb_count + 1) as real;
    var c := comb_count as real;
    assert fw * n == radius_outer - radius_inner - c * comb_gap;
    calc {
      InnerRadius(comb_count, radius_inner, fw, comb_gap) + fw;
      radius_inner + c * (fw + comb_gap) + fw;
      radius_inner + fw * (c + 1.0) + c * comb_gap;
      { assert c + 1.0 == n; }
      radius_inner + fw * n + c * comb_gap;
      radius_outer;
    }
  }

  /** Neighbouring fingers are exactly `comb_gap` apart radially, each
      `finger_width` wide about its centreline radius. */
  lemma RadialGap(i: nat, radius_inner: real, finger_width: real, comb_gap: real, angles: (real, real),
                  span: real, geometry_layer: Layer, angle_resolution: real)
    ensures var a := Finger(i, radius_inner, finger_width, comb_gap, angles, span, geometry_layer, angle_resolution);
      var b := Finger(i + 1, radius_inner, finger_width, comb_gap, angles, span, geometry_layer, angle_resolution);
      && (b.radius - b.width / 2.0) - (a.radius + a.width / 2.0) == comb_gap
      && a.radius - a.width / 2.0 == InnerRadius(i, radius_inner, finger_width, comb_gap)
  {
  }

  /** Even fingers cover `[start, start + span]`, odd ones
      `[end - span, end]`; the two overlap by exactly `comb_overlap_angle`
      degrees, symmetrically about the middle angle. */
  lemma AngularOverlap(i: nat, radius_inner: real, finger_width: real, comb_gap: real, angles: (real, real),
                       comb_overlap_angle: real, geometry_layer: Layer, angle_resolution: real)
    ensures var span := Span(angles, comb_overlap_angle);
      var s := Sorted(angles);
      var even := Finger(2 * i, radius_inner, finger_width, comb_gap, angles, span, geometry_layer, angle_resolution);
      var odd := Finger(2 * i + 1, radius_inner, finger_width, comb_gap, angles, span, geometry_layer, angle_resolution);
      && even.rotation == s.0 && odd.rotation + odd.angle == s.1
      && (even.rotation + even.angle) - odd.rotation == comb_overlap_angle
      && (even.rotation + even.angle) + odd.rotation == s.0 + s.1
  {
  }

  /** The order of the two angles does not matter. */
  lemma AnglesUnordered(radius_inner: real, finger_width: real, comb_gap: real, a: real, b: real,
                        comb_overlap_angle: real, geometry_layer: Layer, angle_resolution: real, i: nat)
    ensures Span((a, b), comb_overlap_angle) == Span((b, a), comb_overlap_angle)
    ensures Finger(i, radius_inner, finger_width, comb_gap, (a, b), Span((a, b), comb_overlap_angle),
                   geometry_layer, angle_resolution)
         == Finger(i, radius_inner, finger_width, comb_gap, (b, a), Span((b, a), comb_overlap_angle),
                   geometry_layer, angle_resolution)
  {
  }
}
