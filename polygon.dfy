/** `basic.polygon`: a polygon and a centred lattice of release holes over
    its bounding box, `ceil(extent / max_dist)` cells per axis with one hole
    at each cell centre. */
module Polygon {
  import opened Geometry
  import opened Numeric

  type Point = (real, real)

  datatype PolygonOut = PolygonOut(points: seq<Point>, layer: Layer,
                                   hole_radius: real, hole_layer: Layer, holes: seq<Point>)

  function MinX(points: seq<Point>): real
    requires |points| > 0
  {
    if |points| == 1 then points[0].0
    else var m := MinX(points[1..]); if points[0].0 < m then points[0].0 else m
  }

  function MaxX(points: seq<Point>): real
    requires |points| > 0
  {
    if |points| == 1 then points[0].0
    else var m := MaxX(points[1..]); if points[0].0 > m then points[0].0 else m
  }

  function MinY(points: seq<Point>): real
    requires |points| > 0
  {
    if |points| == 1 then points[0].1
    else var m := MinY(points[1..]); if points[0].1 < m then points[0].1 else m
  }

  function MaxY(points: seq<Point>): real
    requires |points| > 0
  {
    if |points| == 1 then points[0].1
    else var m := MaxY(points[1..]); if points[0].1 > m then points[0].1 else m
  }

  /** The bounding box's width: every point's x lies within it, and it is
      attained at both ends. */
  function BoxWidth(points: seq<Point>): (w: real)
    requires |points| > 0
    ensures w >= 0.0
  {
    BoxBoundsX(points);
    MaxX(points) - MinX(points)
  }

  function BoxHeight(points: seq<Point>): (h: real)
    requires |points| > 0
    ensures h >= 0.0
  {
    BoxBoundsY(points);
    MaxY(points) - MinY(points)
  }

  /** MinX and MaxX are the least and the greatest x of the points. */
  lemma {:induction false} BoxBoundsX(points: seq<Point>)
    requires |points| > 0
    ensures forall k :: 0 <= k < |points| ==> MinX(points) <= points[k].0 <= MaxX(points)
    ensures exists k :: 0 <= k < |points| && points[k].0 == MinX(points)
    ensures exists k :: 0 <= k < |points| && points[k].0 == MaxX(points)
  {
    if |points| > 1 {
      BoxBoundsX(points[1..]);
      var lo :| 0 <= lo < |points[1..]| && points[1..][lo].0 == MinX(points[1..]);
      var hi :| 0 <= hi < |points[1..]| && points[1..][hi].0 == MaxX(points[1..]);
      assert points[lo + 1].0 == MinX(points[1..]);
      assert points[hi + 1].0 == MaxX(points[1..]);
      var wlo := if points[0].0 < MinX(points[1..]) then 0 else lo + 1;
      var whi := if points[0].0 > MaxX(points[1..]) then 0 else hi + 1;
      assert points[wlo].0 == MinX(points);
      assert points[whi].0 == MaxX(points);
      forall k | 1 <= k < |points|
        ensures MinX(points) <= points[k].0 <= MaxX(points)
      {
        assert points[k] == points[1..][k - 1];
      }
    } else {
      assert points[0].0 == MinX(points) == MaxX(points);
    }
  }

  lemma {:induction false} BoxBoundsY(points: seq<Point>)
    requires |points| > 0
    ensures forall k :: 0 <= k < |points| ==> MinY(points) <= points[k].1 <= MaxY(points)
    ensures exists k :: 0 <= k < |points| && points[k].1 == MinY(points)
    ensures exists k :: 0 <= k < |points| && points[k].1 == MaxY(points)
  {
    if |points| > 1 {
      BoxBoundsY(points[1..]);
      var lo :| 0 <= lo < |points[1..]| && points[1..][lo].1 == MinY(points[1..]);
      var hi :| 0 <= hi < |points[1..]| && points[1..][hi].1 == MaxY(points[1..]);
      assert points[lo + 1].1 == MinY(points[1..]);
      assert points[hi + 1].1 == MaxY(points[1..]);
      var wlo := if points[0].1 < MinY(points[1..]) then 0 else lo + 1;
      var whi := if points[0].1 > MaxY(points[1..]) then 0 else hi + 1;
      assert points[wlo].1 == MinY(points);
      assert points[whi].1 == MaxY(points);
      forall k | 1 <= k < |points|
        ensures MinY(points) <= points[k].1 <= MaxY(points)
      {
        assert points[k] == points[1..][k - 1];
      }
    } else {
      assert points[0].1 == MinY(points) == MaxY(points);
    }
  }

  /** The largest admissible hole spacing, the diagonal of a square cell. */
  function MaxDist(hole_radius: real, distance: real, sqrt2: real): (md: real)
    requires hole_radius + distance > 0.0 && sqrt2 > 0.0
    ensures md > 0.0
  {
    2.0 * (hole_radius + distance) / sqrt2
  }

  /** The number of lattice cells along an axis, `ceil(extent / max_dist)`. */
  function Cells(extent: real, md: real): (n: nat)
    requires extent > 0.0 && md > 0.0
    ensures n >= 1
  {
    Ceil(extent / md)
  }

  function Step(extent: real, md: real): real
    requires extent > 0.0 && md > 0.0
  {
    extent / Cells(extent, md) as real
  }

  /** The centre of cell k along an axis, relative to the box centre. */
  function Centre(k: nat, step: real, extent: real): real
  {
    (k as real + 0.5) * step - 0.5 * extent
  }

  /** Lattice row j: one hole per x cell at the row's y. */
  function LatticeRow(w: real, h: real, md: real, j: nat): seq<Point>
    requires w > 0.0 && h > 0.0 && md > 0.0
  {
    var sx, sy := Step(w, md), Step(h, md);
    seq(Cells(w, md), i requires 0 <= i => (Centre(i, sx, w), Centre(j, sy, h)))
  }

  /** The first k rows of the lattice, bottom row first. */
  function LatticeUpTo(w: real, h: real, md: real, k: nat): seq<Point>
    requires w > 0.0 && h > 0.0 && md > 0.0
  {
    if k == 0 then [] else LatticeUpTo(w, h, md, k - 1) + LatticeRow(w, h, md, k - 1)
  }

  function Lattice(w: real, h: real, md: real): seq<Point>
    requires w > 0.0 && h > 0.0 && md > 0.0
  {
    LatticeUpTo(w, h, md, Cells(h, md))
  }

  /** The hole centres of a polygon, or the error numpy raises on a
      bounding box of zero width or height. */
  function Holes(points: seq<Point>, hole_radius: real, distance: real, sqrt2: real): Result<seq<Point>>
    requires hole_radius + distance > 0.0 && sqrt2 > 0.0
  {
    if |points| == 0 then Ok([])
    else if BoxWidth(points) == 0.0 || BoxHeight(points) == 0.0 then Err(DegenerateBoundingBox)
    else Ok(Lattice(BoxWidth(points), BoxHeight(points), MaxDist(hole_radius, distance, sqrt2)))
  }

  method Polygon(points: seq<Point>, geometry_layer: Layer, release_hole_radius: real, release_distance: real,
                 release_layer: Layer, sqrt2: real) returns (r: Result<PolygonOut>)
    requires release_hole_radius + release_distance > 0.0 && sqrt2 > 0.0
    // an empty shape yields no holes
    ensures |points| == 0 ==> r == Ok(PolygonOut(points, geometry_layer, release_hole_radius, release_layer, []))
    // a flat bounding box fails, and nothing else does
    ensures r.Err? <==> |points| > 0 && (BoxWidth(points) == 0.0 || BoxHeight(points) == 0.0)
    ensures r.Err? ==> r.error == DegenerateBoundingBox
    // otherwise the polygon is kept and the holes are the lattice over its box
    ensures r.Ok? ==> r.value == PolygonOut(points, geometry_layer, release_hole_radius, release_layer,
                                            Holes(points, release_hole_radius, release_distance, sqrt2).value)
  {
    if |points| == 0 {
      return Ok(PolygonOut(points, geometry_layer, release_hole_radius, release_layer, []));
    }
    var w := MaxX(points) - MinX(points);
    var h := MaxY(points) - MinY(points);
    assert w == BoxWidth(points) && h == BoxHeight(points);
    if w == 0.0 || h == 0.0 {
      return Err(DegenerateBoundingBox);
    }
    var max_dist := 2.0 * (release_hole_radius + release_distance) / sqrt2;
    assert max_dist == MaxDist(release_hole_radius, release_distance, sqrt2);
    var holes := PlaceLattice(w, h, max_dist);
    r := Ok(PolygonOut(points, geometry_layer, release_hole_radius, release_layer, holes));
  }

  /** The nested y/x loops over the two `arange`s. */
  method PlaceLattice(w: real, h: real, max_dist: real) returns (holes: seq<Point>)
    requires w > 0.0 && h > 0.0 && max_dist > 0.0
    ensures holes == Lattice(w, h, max_dist)
  {
    var step_x := w / Ceil(w / max_dist) as real;
    var step_y := h / Ceil(h / max_dist) as real;
    assert step_x == Step(w, max_dist) && step_y == Step(h, max_dist);
    var ny := ArangeLen(0.5 * step_y, h, step_y);
    var nx := ArangeLen(0.5 * step_x, w, step_x);
    CellArangeLen(h, max_dist);
    CellArangeLen(w, max_dist);
    holes := [];
    for j := 0 to ny
      invariant holes == LatticeUpTo(w, h, max_dist, j)
    {
      var y := 0.5 * step_y + (j as real) * step_y;
      var row := PlaceLatticeRow(w, h, max_dist, step_x, nx, j, y);
      holes := holes + row;
    }
  }

  /** The inner loop: the holes of row j, at height y above the box's bottom. */
  method PlaceLatticeRow(w: real, h: real, max_dist: real, step_x: real, nx: nat, j: nat, y: real)
    returns (row: seq<Point>)
    requires w > 0.0 && h > 0.0 && max_dist > 0.0
    requires step_x == Step(w, max_dist) && nx == Cells(w, max_dist)
    requires y == 0.5 * Step(h, max_dist) + (j as real) * Step(h, max_dist)
    ensures row == LatticeRow(w, h, max_dist, j)
  {
    ghost var full := LatticeRow(w, h, max_dist, j);
    assert Centre(j, Step(h, max_dist), h) == y - 0.5 * h;
    row := [];
    for i := 0 to nx
      invariant row == full[..i]
    {
      var x := 0.5 * step_x + (i as real) * step_x;
      assert Centre(i, step_x, w) == x - 0.5 * w;
      row := row + [(x - 0.5 * w, y - 0.5 * h)];
    }
    assert full[..nx] == full;
  }

  /** numpy's `arange(0.5 * step, extent, step)` yields exactly Cells values. */
  lemma {:induction false} CellArangeLen(extent: real, md: real)
    requires extent > 0.0 && md > 0.0
    ensures Step(extent, md) > 0.0
    ensures ArangeLen(0.5 * Step(extent, md), extent, Step(extent, md)) == Cells(extent, md)
  {
    var n := Cells(extent, md);
    var st := Step(extent, md);
    assert st * (n as real) == extent;
    var q := (extent - 0.5 * st) / st;
    assert q * st == extent - 0.5 * st;
    assert (n as real - 0.5) * st == (n as real) * st - 0.5 * st;
    assert q == (n - 1) as real + 0.5 by {
      if q != (n as real - 0.5) {
        if q < n as real - 0.5 {
          MulStrictLeft(q, n as real - 0.5, st);
        } else {
          MulStrictLeft(n as real - 0.5, q, st);
        }
      }
    }
    CeilPlusHalf(n - 1);
  }

  /** The realised step never exceeds the maximum spacing. */
  lemma {:induction false} StepAtMostMaxDist(extent: real, md: real)
    requires extent > 0.0 && md > 0.0
    ensures 0.0 < Step(extent, md) <= md
  {
    var n := Cells(extent, md) as real;
    var st := Step(extent, md);
    assert st * n == extent;
    assert extent / md <= n;
    assert extent <= n * md by {
      MulLeft(extent / md, n, md);
    }
    if st > md {
      MulStrictLeft(md, st, n);
    }
  }

  /** The lattice has Cells(w) * Cells(h) holes. */
  lemma {:induction false} LatticeSize(w: real, h: real, md: real, k: nat)
    requires w > 0.0 && h > 0.0 && md > 0.0
    ensures |LatticeUpTo(w, h, md, k)| == k * Cells(w, md)
  {
    if k > 0 {
      LatticeSize(w, h, md, k - 1);
    }
  }

  /** Cell centres lie strictly inside the extent, centred on the origin. */
  lemma {:induction false} CentreInside(k: nat, extent: real, md: real)
    requires extent > 0.0 && md > 0.0 && k < Cells(extent, md)
    ensures -0.5 * extent < Centre(k, Step(extent, md), extent) < 0.5 * extent
  {
    var n := Cells(extent, md) as real;
    var st := Step(extent, md);
    assert st * n == extent;
    assert st > 0.0;
    assert (k as real + 0.5) * st > 0.0;
    MulStrictLeft(k as real + 0.5, n, st);
  }

  /** Every hole lies strictly inside the box `[-w/2, w/2] x [-h/2, h/2]`. */
  lemma {:induction false} LatticeInsideBox(w: real, h: real, md: real, k: nat, p: Point)
    requires w > 0.0 && h > 0.0 && md > 0.0 && k <= Cells(h, md)
    requires p in LatticeUpTo(w, h, md, k)
    ensures -0.5 * w < p.0 < 0.5 * w && -0.5 * h < p.1 < 0.5 * h
  {
    if p in LatticeUpTo(w, h, md, k - 1) {
      LatticeInsideBox(w, h, md, k - 1, p);
    } else {
      var row := LatticeRow(w, h, md, k - 1);
      var i :| 0 <= i < |row| && row[i] == p;
      CentreInside(i, w, md);
      CentreInside(k - 1, h, md);
    }
  }

  /** Every pair of cells is in the lattice. */
  lemma {:induction false} LatticeHasCell(w: real, h: real, md: real, k: nat, i: nat, j: nat)
    requires w > 0.0 && h > 0.0 && md > 0.0
    requires i < Cells(w, md) && j < k
    ensures (Centre(i, Step(w, md), w), Centre(j, Step(h, md), h)) in LatticeUpTo(w, h, md, k)
  {
    if j < k - 1 {
      LatticeHasCell(w, h, md, k - 1, i, j);
    } else {
      assert LatticeRow(w, h, md, j)[i] == (Centre(i, Step(w, md), w), Centre(j, Step(h, md), h));
    }
  }

  /** Along one axis every coordinate of the closed extent is within half a
      step of some cell centre. */
  lemma {:induction false} AxisCover(extent: real, md: real, p: real) returns (i: nat)
    requires extent > 0.0 && md > 0.0 && -0.5 * extent <= p <= 0.5 * extent
    ensures i < Cells(extent, md)
    ensures -0.5 * Step(extent, md) <= p - Centre(i, Step(extent, md), extent) <= 0.5 * Step(extent, md)
  {
    var n := Cells(extent, md);
    var st := Step(extent, md);
    assert st * (n as real) == extent;
    assert st > 0.0;
    var u := (p + 0.5 * extent) / st;
    assert u * st == p + 0.5 * extent;
    assert 0.0 <= u <= n as real by {
      if u > n as real {
        MulStrictLeft(n as real, u, st);
      }
    }
    i := CellIndex(u, n);
    NearCentre(u, st, i, p, extent);
  }

  /** A cell index i with u in [i, i + 1], for u in [0, n]. */
  lemma CellIndex(u: real, n: nat) returns (i: nat)
    requires n >= 1 && 0.0 <= u <= n as real
    ensures i < n && i as real <= u <= i as real + 1.0
  {
    var f := Floor(u);
    i := if f >= n then n - 1 else f;
  }

  /** A coordinate u steps from the extent's start, with u in [i, i + 1],
      is within half a step of the centre of cell i. */
  lemma {:induction false} NearCentre(u: real, st: real, i: nat, p: real, extent: real)
    requires st > 0.0 && u * st == p + 0.5 * extent && i as real <= u <= i as real + 1.0
    ensures -0.5 * st <= p - Centre(i, st, extent) <= 0.5 * st
  {
    CentreOffset(u, st, i, p, extent);
    ScaleHalf(u - (i as real + 0.5), st);
    var x, y := p - Centre(i, st, extent), st * (u - (i as real + 0.5));
    assert x == y;
    assert y <= 0.5 * st;
    assert x <= 0.5 * st;
  }

  lemma CentreOffset(u: real, st: real, i: nat, p: real, extent: real)
    requires u * st == p + 0.5 * extent
    ensures p - Centre(i, st, extent) == st * (u - (i as real + 0.5))
  {
  }

  lemma ScaleHalf(d: real, st: real)
    requires st > 0.0 && -0.5 <= d <= 0.5
    ensures -0.5 * st <= st * d <= 0.5 * st
  {
    MulLeft(d, 0.5, st);
    MulLeft(-0.5, d, st);
  }

  /** The spacing invariant: every point of the bounding box is within
      `hole_radius + distance` of some hole centre. */
  lemma {:induction false} LatticeCoversBox(w: real, h: real, hole_radius: real, distance: real, sqrt2: real,
                                            px: real, py: real)
    requires w > 0.0 && h > 0.0 && hole_radius + distance > 0.0 && sqrt2 > 0.0 && sqrt2 * sqrt2 == 2.0
    requires -0.5 * w <= px <= 0.5 * w && -0.5 * h <= py <= 0.5 * h
    ensures exists c :: (c in Lattice(w, h, MaxDist(hole_radius, distance, sqrt2)) &&
      (px - c.0) * (px - c.0) + (py - c.1) * (py - c.1) <= (hole_radius + distance) * (hole_radius + distance))
  {
    var md := MaxDist(hole_radius, distance, sqrt2);
    var c := NearestHole(w, h, md, px, py);
    StepAtMostMaxDist(w, md);
    StepAtMostMaxDist(h, md);
    WithinReach(px - c.0, py - c.1, Step(w, md), Step(h, md), hole_radius, distance, sqrt2);
  }

  /** A hole of the lattice within half a step of the point on each axis. */
  lemma NearestHole(w: real, h: real, md: real, px: real, py: real) returns (c: Point)
    requires w > 0.0 && h > 0.0 && md > 0.0
    requires -0.5 * w <= px <= 0.5 * w && -0.5 * h <= py <= 0.5 * h
    ensures c in Lattice(w, h, md)
    ensures -0.5 * Step(w, md) <= px - c.0 <= 0.5 * Step(w, md)
    ensures -0.5 * Step(h, md) <= py - c.1 <= 0.5 * Step(h, md)
  {
    var i := AxisCover(w, md, px);
    var j := AxisCover(h, md, py);
    c := (Centre(i, Step(w, md), w), Centre(j, Step(h, md), h));
    LatticeHasCell(w, h, md, Cells(h, md), i, j);
  }

  /** Offsets of at most half a step on each axis, with both steps at most
      the maximum spacing, stay within the release reach. */
  lemma WithinReach(dx: real, dy: real, sx: real, sy: real, hole_radius: real, distance: real, sqrt2: real)
    requires hole_radius + distance > 0.0 && sqrt2 > 0.0 && sqrt2 * sqrt2 == 2.0
    requires 0.0 < sx <= MaxDist(hole_radius, distance, sqrt2) && -0.5 * sx <= dx <= 0.5 * sx
    requires 0.0 < sy <= MaxDist(hole_radius, distance, sqrt2) && -0.5 * sy <= dy <= 0.5 * sy
    ensures dx * dx + dy * dy <= (hole_radius + distance) * (hole_radius + distance)
  {
    var md := MaxDist(hole_radius, distance, sqrt2);
    HalfStepSquare(dx, sx, md);
    HalfStepSquare(dy, sy, md);
    MaxDistSquare(hole_radius, distance, sqrt2);
    HalfSquares(dx * dx, dy * dy, md * md, (hole_radius + distance) * (hole_radius + distance));
  }

  /** Two squared offsets of at most a quarter of md² each add up to at most
      half of md², which is the squared release reach. */
  lemma HalfSquares(a: real, b: real, m: real, r: real)
    requires a <= m / 4.0 && b <= m / 4.0 && m == 2.0 * r
    ensures a + b <= r
  {
  }

  /** The maximum spacing is the diagonal of a square of side
      `hole_radius + distance`: md² = 2 (hole_radius + distance)². */
  lemma MaxDistSquare(hole_radius: real, distance: real, sqrt2: real)
    requires hole_radius + distance > 0.0 && sqrt2 > 0.0 && sqrt2 * sqrt2 == 2.0
    ensures MaxDist(hole_radius, distance, sqrt2) * MaxDist(hole_radius, distance, sqrt2)
            == 2.0 * ((hole_radius + distance) * (hole_radius + distance))
  {
    var md := MaxDist(hole_radius, distance, sqrt2);
    var rd := hole_radius + distance;
    assert md * sqrt2 == 2.0 * rd;
    calc {
      2.0 * (md * md);
      (md * md) * (sqrt2 * sqrt2);
      (md * sqrt2) * (md * sqrt2);
      (2.0 * rd) * (2.0 * rd);
      4.0 * (rd * rd);
    }
  }

  /** A coordinate offset of at most half a step, with the step at most md,
      squares to at most md² / 4. */
  lemma HalfStepSquare(d: real, step: real, md: real)
    requires 0.0 < step <= md && -0.5 * step <= d <= 0.5 * step
    ensures d * d <= md * md / 4.0
  {
    var a := if d >= 0.0 then d else -d;
    assert a * a == d * d;
    SquareLe(a, 0.5 * md);
  }

  function Translate(points: seq<Point>, dx: real, dy: real): (moved: seq<Point>)
    ensures |moved| == |points|
  {
    seq(|points|, k requires 0 <= k < |points| => (points[k].0 + dx, points[k].1 + dy))
  }

  lemma {:induction false} TranslateBounds(points: seq<Point>, dx: real, dy: real)
    requires |points| > 0
    ensures MinX(Translate(points, dx, dy)) == MinX(points) + dx
    ensures MaxX(Translate(points, dx, dy)) == MaxX(points) + dx
    ensures MinY(Translate(points, dx, dy)) == MinY(points) + dy
    ensures MaxY(Translate(points, dx, dy)) == MaxY(points) + dy
  {
    if |points| > 1 {
      TranslateBounds(points[1..], dx, dy);
      assert Translate(points, dx, dy)[1..] == Translate(points[1..], dx, dy);
    }
  }

  /** The lattice depends only on the bounding box's size, not on where the
      polygon sits: moving the polygon leaves the hole centres unchanged. */
  lemma TranslationInvariant(points: seq<Point>, dx: real, dy: real, hole_radius: real, distance: real, sqrt2: real)
    requires hole_radius + distance > 0.0 && sqrt2 > 0.0
    ensures Holes(Translate(points, dx, dy), hole_radius, distance, sqrt2) == Holes(points, hole_radius, distance, sqrt2)
  {
    if |points| > 0 {
      TranslateBounds(points, dx, dy);
    }
  }

  /** The lattice is laid over the origin-centred box of the bounding box's
      size, not over the bounding box itself: a unit square with its lower
      left corner at (10, 10) gets at least one hole, and every hole lies
      below and to the left of the square. */
  lemma OffsetSquareHolesOutside(hole_radius: real, distance: real, sqrt2: real)
    requires hole_radius + distance > 0.0 && sqrt2 > 0.0
    ensures var square := [(10.0, 10.0), (11.0, 10.0), (11.0, 11.0), (10.0, 11.0)];
      Holes(square, hole_radius, distance, sqrt2).Ok? &&
      |Holes(square, hole_radius, distance, sqrt2).value| >= 1 &&
      forall p :: p in Holes(square, hole_radius, distance, sqrt2).value ==>
        p.0 < MinX(square) && p.1 < MinY(square)
  {
    var square := [(10.0, 10.0), (11.0, 10.0), (11.0, 11.0), (10.0, 11.0)];
    assert MinX(square) == 10.0 && MaxX(square) == 11.0;
    assert MinY(square) == 10.0 && MaxY(square) == 11.0;
    var md := MaxDist(hole_radius, distance, sqrt2);
    assert Holes(square, hole_radius, distance, sqrt2) == Ok(Lattice(1.0, 1.0, md));
    LatticeSize(1.0, 1.0, md, Cells(1.0, md));
    assert |Lattice(1.0, 1.0, md)| >= 1 by {
      var a, b := Cells(1.0, md), Cells(1.0, md);
      assert a >= 1 && b >= 1;
      assert a * b >= 1;
    }
    forall p | p in Lattice(1.0, 1.0, md)
      ensures p.0 < 10.0 && p.1 < 10.0
    {
      LatticeInsideBox(1.0, 1.0, md, Cells(1.0, md), p);
    }
  }
}
