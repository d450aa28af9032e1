/** `via`: one circle per layer, radii linearly spaced from the first
    layer's radius to the last layer's. */
module Via {
  import opened Geometry

  datatype Circle = Circle(radius: real, layer: Layer, angle_resolution: real)

  /** The radius step; zero when there is at most one layer. */
  function RadiusStep(radius_first: real, radius_last: real, n: nat): real
  {
    if n > 1 then (radius_last - radius_first) / ((n - 1) as real) else 0.0
  }

  /** The radius of the circle on layer i. */
  function Radius(radius_first: real, step: real, i: nat): real
  {
    radius_first + (i as real) * step
  }

  method Via(radius_first: real, radius_last: real, geometry_layers: seq<Layer>, angle_resolution: real)
    returns (circles: seq<Circle>)
    // one circle per layer, in layer order, radius first + i * step
    ensures |circles| == |geometry_layers|
    ensures forall i :: 0 <= i < |circles| ==>
      && circles[i].layer == geometry_layers[i]
      && circles[i].angle_resolution == angle_resolution
      && circles[i].radius == Radius(radius_first, RadiusStep(radius_first, radius_last, |geometry_layers|), i)
    // the end points are the two given radii
    ensures |circles| > 0 ==> circles[0].radius == radius_first
    ensures |circles| > 1 ==> circles[|circles| - 1].radius == radius_last
    // consecutive radii differ by exactly the step
    ensures forall i :: 0 < i < |circles| ==>
      circles[i].radius - circles[i - 1].radius == RadiusStep(radius_first, radius_last, |geometry_layers|)
  {
    var n := |geometry_layers|;
    var step := RadiusStep(radius_first, radius_last, n);
    circles := [];
    for i := 0 to n
      invariant |circles| == i
      invariant forall j :: 0 <= j < i ==>
        circles[j] == Circle(Radius(radius_first, step, j), geometry_layers[j], angle_resolution)
    {
      circles := circles + [Circle(radius_first + (i as real) * step, geometry_layers[i], angle_resolution)];
    }
    if n > 0 {
      assert circles[0].radius == Radius(radius_first, step, 0) == radius_first;
    }
    if n > 1 {
      LastRadius(radius_first, radius_last, n);
    }
    forall i | 0 < i < n
      ensures circles[i].radius - circles[i - 1].radius == step
    {
      ConsecutiveRadii(radius_first, step, i);
    }
  }

  lemma LastRadius(radius_first: real, radius_last: real, n: nat)
    requires n > 1
    ensures Radius(radius_first, RadiusStep(radius_first, radius_last, n), n - 1) == radius_last
  {
    var m := (n - 1) as real;
    assert m * ((radius_last - radius_first) / m) == radius_last - radius_first;
  }

  lemma ConsecutiveRadii(radius_first: real, step: real, i: nat)
    requires i > 0
    ensures Radius(radius_first, step, i) - Radius(radius_first, step, i - 1) == step
  {
    assert (i as real) * step == ((i - 1) as real) * step + 1.0 * step;
  }

  /** The radii move monotonically from the first radius towards the last. */
  lemma {:induction false} RadiiMonotone(radius_first: real, radius_last: real, n: nat, i: nat, j: nat)
    requires i <= j < n
    ensures var step := RadiusStep(radius_first, radius_last, n);
      var ri := Radius(radius_first, step, i);
      var rj := Radius(radius_first, step, j);
      (radius_first <= radius_last ==> ri <= rj) && (radius_last <= radius_first ==> rj <= ri)
  {
    var step := RadiusStep(radius_first, radius_last, n);
    if n > 1 {
      assert radius_first <= radius_last ==> step >= 0.0;
      assert radius_last <= radius_first ==> step <= 0.0;
      assert (j as real) * step == (i as real) * step + ((j - i) as real) * step;
      if step >= 0.0 {
        assert ((j - i) as real) * step >= 0.0;
      } else {
        assert ((j - i) as real) * step <= 0.0;
      }
    }
  }
}
