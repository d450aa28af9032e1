/** `rectangle_ring`: a rectangular band of outer size `size_x x size_y` and
    ring width `width`, drawn as four square corners, two horizontal bars and
    two vertical bars that share one release decision. */
module RectangleRing {
  import opened Geometry

  /** The release decision of the if/elif chain: perforate only with a
      released spec and when both outer sides and the ring width all exceed
      the spec's distance. */
  function ReleaseDecision(size_x: real, size_y: real, width: real, release_spec: Option<ReleaseSpec>): (release: bool)
    ensures !release <==>
      || release_spec.None?
      || !release_spec.value.released
      || size_x <= release_spec.value.distance || size_y <= release_spec.value.distance
      || width <= release_spec.value.distance
  {
    if release_spec.None? then false
    else if !release_spec.value.released then false
    else if size_x <= release_spec.value.distance || size_y <= release_spec.value.distance then false
    else if width <= release_spec.value.distance then false
    else true
  }

  /** The shift `centered` applies to every piece. */
  function ShiftX(size_x: real, centered: bool): real { if centered then 0.5 * size_x else 0.0 }
  function ShiftY(size_y: real, centered: bool): real { if centered then 0.5 * size_y else 0.0 }

  /** The eight pieces in the order the loops add them: corners at
      (x, y) for y in [0, H - w], x in [0, W - w]; horizontal bars at y in
      [0, H - w]; vertical bars at x in [0, W - w]. */
  function Pieces(size_x: real, size_y: real, width: real, layer: Layer, centered: bool,
                  release_spec: Option<ReleaseSpec>): (p: seq<Block>)
    ensures |p| == 8
  {
    var rel := if ReleaseDecision(size_x, size_y, width, release_spec) then release_spec else None;
    var dx, dy := ShiftX(size_x, centered), ShiftY(size_y, centered);
    var w := width;
    [ Block(Rect(0.0 - dx, 0.0 - dy, w, w), layer, rel),
      Block(Rect(size_x - w - dx, 0.0 - dy, w, w), layer, rel),
      Block(Rect(0.0 - dx, size_y - w - dy, w, w), layer, rel),
      Block(Rect(size_x - w - dx, size_y - w - dy, w, w), layer, rel),
      Block(Rect(w - dx, 0.0 - dy, size_x - 2.0 * w, w), layer, rel),
      Block(Rect(w - dx, size_y - w - dy, size_x - 2.0 * w, w), layer, rel),
      Block(Rect(0.0 - dx, w - dy, w, size_y - 2.0 * w), layer, rel),
      Block(Rect(size_x - w - dx, w - dy, w, size_y - 2.0 * w), layer, rel) ]
  }

  /** The generator: the release flag set by the if/elif chain, then the
      loops over the fixed coordinate lists. */
  method RectangleRing(size_x: real, size_y: real, width: real, layer: Layer, centered: bool,
                       release_spec: Option<ReleaseSpec>) returns (pieces: seq<Block>)
    ensures pieces == Pieces(size_x, size_y, width, layer, centered, release_spec)
  {
    var release := true;
    if release_spec.None? {
      release := false;
    } else if !release_spec.value.released {
      release := false;
    } else if size_x <= release_spec.value.distance || size_y <= release_spec.value.distance {
      release := false;
    } else if width <= release_spec.value.distance {
      release := false;
    }
    var rel := if release then release_spec else None;
    var dx := if centered then 0.5 * size_x else 0.0;
    var dy := if centered then 0.5 * size_y else 0.0;
    ghost var spec := Pieces(size_x, size_y, width, layer, centered, release_spec);
    assert rel == spec[0].release;

    var ys := [0.0, size_y - width];
    var xs := [0.0, size_x - width];
    pieces := [];
    for a := 0 to 2
      invariant pieces == spec[..2 * a]
    {
      for b := 0 to 2
        invariant pieces == spec[..2 * a + b]
      {
        assert spec[..2 * a + b + 1] == spec[..2 * a + b] + [spec[2 * a + b]];
        assert spec[2 * a + b] == Block(Rect(xs[b] - dx, ys[a] - dy, width, width), layer, rel) by {
          assert a == 0 || a == 1;
          assert b == 0 || b == 1;
        }
        pieces := pieces + [Block(Rect(xs[b] - dx, ys[a] - dy, width, width), layer, rel)];
      }
    }
    for a := 0 to 2
      invariant pieces == spec[..4 + a]
    {
      assert spec[..4 + a + 1] == spec[..4 + a] + [spec[4 + a]];
      assert a == 0 || a == 1;
      pieces := pieces + [Block(Rect(width - dx, ys[a] - dy, size_x - 2.0 * width, width), layer, rel)];
    }
    for b := 0 to 2
      invariant pieces == spec[..6 + b]
    {
      assert spec[..6 + b + 1] == spec[..6 + b] + [spec[6 + b]];
      assert b == 0 || b == 1;
      pieces := pieces + [Block(Rect(xs[b] - dx, width - dy, width, size_y - 2.0 * width), layer, rel)];
    }
  }

  /** The outer rectangle and the opening of the band. */
  function Outer(size_x: real, size_y: real, centered: bool): Rect
  {
    Rect(-ShiftX(size_x, centered), -ShiftY(size_y, centered), size_x, size_y)
  }

  function Opening(size_x: real, size_y: real, width: real, centered: bool): Rect
  {
    Rect(width - ShiftX(size_x, centered), width - ShiftY(size_y, centered), size_x - 2.0 * width, size_y - 2.0 * width)
  }

  /** All eight pieces carry the same layer and the same release decision. */
  lemma SharedRelease(size_x: real, size_y: real, width: real, layer: Layer, centered: bool,
                      rs: Option<ReleaseSpec>, k: nat)
    requires k < 8
    ensures var p := Pieces(size_x, size_y, width, layer, centered, rs);
      && p[k].layer == layer
      && p[k].release == (if ReleaseDecision(size_x, size_y, width, rs) then rs else None)
  {
  }

  /** Every point of the band (outer rectangle minus the open opening) lies
      in some piece. */
  lemma {:induction false} PiecesCoverBand(size_x: real, size_y: real, width: real, layer: Layer, centered: bool,
                                           rs: Option<ReleaseSpec>, px: real, py: real)
    requires 0.0 < width && 2.0 * width <= size_x && 2.0 * width <= size_y
    requires Outer(size_x, size_y, centered).Contains(px, py)
    requires !Opening(size_x, size_y, width, centered).InInterior(px, py)
    ensures exists k :: 0 <= k < 8 && Pieces(size_x, size_y, width, layer, centered, rs)[k].rect.Contains(px, py)
  {
    var p := Pieces(size_x, size_y, width, layer, centered, rs);
    var dx, dy := ShiftX(size_x, centered), ShiftY(size_y, centered);
    var x, y := px + dx, py + dy;
    var row := if y <= width then 0 else if y >= size_y - width then 2 else 1;
    var col := if x <= width then 0 else if x >= size_x - width then 2 else 1;
    var k :=
      if row == 0 && col == 0 then 0 else if row == 0 && col == 2 then 1
      else if row == 2 && col == 0 then 2 else if row == 2 && col == 2 then 3
      else if row == 0 then 4 else if row == 2 then 5
      else if col == 0 then 6 else 7;
    assert p[k].rect.Contains(px, py);
  }

  /** Every piece lies inside the band. */
  lemma {:induction false} PiecesWithinBand(size_x: real, size_y: real, width: real, layer: Layer, centered: bool,
                                            rs: Option<ReleaseSpec>, k: nat, px: real, py: real)
    requires 0.0 < width && 2.0 * width <= size_x && 2.0 * width <= size_y
    requires k < 8 && Pieces(size_x, size_y, width, layer, centered, rs)[k].rect.Contains(px, py)
    ensures Outer(size_x, size_y, centered).Contains(px, py)
    ensures !Opening(size_x, size_y, width, centered).InInterior(px, py)
  {
  }

  /** No two pieces overlap. */
  lemma {:induction false} PiecesDisjoint(size_x: real, size_y: real, width: real, layer: Layer, centered: bool,
                                          rs: Option<ReleaseSpec>, k: nat, l: nat)
    requires 0.0 < width && 2.0 * width <= size_x && 2.0 * width <= size_y
    requires k < l < 8
    ensures var p := Pieces(size_x, size_y, width, layer, centered, rs);
      InteriorsDisjoint(p[k].rect, p[l].rect)
  {
  }

  /** `centered` moves every piece by (-size_x/2, -size_y/2) and changes
      nothing else. */
  lemma CenteringOnlyShifts(size_x: real, size_y: real, width: real, layer: Layer,
                            rs: Option<ReleaseSpec>, k: nat)
    requires k < 8
    ensures var c := Pieces(size_x, size_y, width, layer, true, rs)[k];
            var n := Pieces(size_x, size_y, width, layer, false, rs)[k];
      && c.rect == n.rect.Moved(-size_x / 2.0, -size_y / 2.0)
      && c.layer == n.layer && c.release == n.release
  {
  }
}
