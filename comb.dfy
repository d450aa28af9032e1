/** `comb`: a linear comb drive: `comb_count + 1` rectangular fingers in a
    row, alternately anchored at the bottom (`y = 0`) and at the top
    (`y = comb_height`), so that neighbours interdigitate. */
module Comb {
  import opened Geometry
  import Numeric

  /** Every finger's length: half of the height plus the overlap. */
  function FingerLength(comb_height: real, comb_overlap: real): real
  {
    (comb_height + comb_overlap) / 2.0
  }

  /** How far the top-anchored fingers start above `y = 0`. */
  function Clearance(comb_height: real, comb_overlap: real): real
  {
    comb_height - FingerLength(comb_height, comb_overlap)
  }

  /** Finger `i`: `comb_width` wide, one pitch `comb_width + comb_gap` to the
      right of finger `i - 1`, even fingers at the bottom, odd ones raised by
      the clearance. */
  function Finger(i: nat, comb_height: real, comb_width: real, comb_gap: real, comb_overlap: real): Rect
  {
    Rect(i as real * (comb_width + comb_gap),
         if i % 2 == 0 then 0.0 else Clearance(comb_height, comb_overlap),
         comb_width, FingerLength(comb_height, comb_overlap))
  }

  method Comb(comb_height: real, comb_width: real, comb_gap: real, comb_count: int, comb_overlap: real,
              geometry_layer: Layer) returns (fingers: seq<Block>)
    ensures |fingers| == Numeric.RangeLen(comb_count + 1)
    ensures forall i :: 0 <= i < |fingers| ==>
      fingers[i] == Block(Finger(i, comb_height, comb_width, comb_gap, comb_overlap), geometry_layer, None)
  {
    var n_fingers := comb_count + 1;
    var comb_length := (comb_height + comb_overlap) / 2.0;
    var comb_clearance := comb_height - comb_length;
    fingers := [];
    var i := 0;
    while i < n_fingers
      invariant 0 <= i && i == |fingers|
      invariant n_fingers >= 0 ==> i <= n_fingers
      invariant n_fingers < 0 ==> i == 0
      invariant forall m :: 0 <= m < i ==>
        fingers[m] == Block(Finger(m, comb_height, comb_width, comb_gap, comb_overlap), geometry_layer, None)
    {
      var x := i as real * (comb_width + comb_gap);
      var y := if i % 2 == 0 then 0.0 else comb_clearance;
      fingers := fingers + [Block(Rect(0.0, 0.0, comb_width, comb_length).Moved(x, y), geometry_layer, None)];
      i := i + 1;
    }
  }

  /** Neighbouring fingers are exactly `comb_gap` apart in x and each is
      `comb_width` wide, so the row repeats with pitch `comb_width + comb_gap`. */
  lemma FingerPitch(i: nat, comb_height: real, comb_width: real, comb_gap: real, comb_overlap: real)
    ensures var a, b := Finger(i, comb_height, comb_width, comb_gap, comb_overlap),
                        Finger(i + 1, comb_height, comb_width, comb_gap, comb_overlap);
      && b.Left() - a.Right() == comb_gap
      && a.Right() - a.Left() == comb_width
      && b.Left() - a.Left() == comb_width + comb_gap
  {
  }

  /** Even fingers hang from `y = 0` and odd fingers from `y = comb_height`:
      the odd fingers' top edge is the comb's height. */
  lemma FingersAlternate(i: nat, comb_height: real, comb_width: real, comb_gap: real, comb_overlap: real)
    ensures var f := Finger(i, comb_height, comb_width, comb_gap, comb_overlap);
      && (i % 2 == 0 ==> f.Bottom() == 0.0)
      && (i % 2 == 1 ==> f.Top() == comb_height)
  {
  }

  /** For an overlap between 0 and the height, two neighbouring fingers
      share a y-interval of length exactly `comb_overlap`, and both stay
      inside `[0, comb_height]`. */
  lemma NeighboursOverlap(i: nat, comb_height: real, comb_width: real, comb_gap: real, comb_overlap: real)
    requires 0.0 <= comb_overlap <= comb_height
    ensures var a, b := Finger(i, comb_height, comb_width, comb_gap, comb_overlap),
                        Finger(i + 1, comb_height, comb_width, comb_gap, comb_overlap);
      var lo := if a.Bottom() < b.Bottom() then b.Bottom() else a.Bottom();
      var hi := if a.Top() < b.Top() then a.Top() else b.Top();
      && hi - lo == comb_overlap
      && 0.0 <= a.Bottom() && a.Top() <= comb_height
      && 0.0 <= b.Bottom() && b.Top() <= comb_height
  {
  }

  /** The whole comb spans `(comb_count + 1) * comb_width + comb_count * comb_gap`
      in x, starting at `x = 0`. */
  lemma CombExtent(comb_count: nat, comb_height: real, comb_width: real, comb_gap: real, comb_overlap: real)
    ensures Finger(0, comb_height, comb_width, comb_gap, comb_overlap).Left() == 0.0
    ensures Finger(comb_count, comb_height, comb_width, comb_gap, comb_overlap).Right()
            == (comb_count + 1) as real * comb_width + comb_count as real * comb_gap
  {
  }
}
