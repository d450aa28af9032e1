/** `beam`: a beam along x centred on the origin, either one rectangle or a
    thin / thick / thin split whose three pieces tile `[-length/2, length/2]`. */
module Beam {
  import opened Geometry

  /** The pieces in the order the source adds them: one rectangle, or the
      thick mid-section followed by the left and the right thin section. */
  function Beam(length: real, width: real, geometry_layer: Layer, release_spec: Option<ReleaseSpec>,
                thick_length: real, thick_width: real, thick_offset: real): (pieces: seq<Block>)
    ensures (thick_length == 0.0 || thick_width == width) <==> |pieces| == 1
    ensures |pieces| == 1 || |pieces| == 3
    ensures |pieces| == 1 ==> pieces[0].rect == Centred(0.0, 0.0, length, width)
    // every piece is on the beam's layer, centred on y = 0, and perforated on its own
    ensures forall i :: 0 <= i < |pieces| ==>
      pieces[i].layer == geometry_layer && pieces[i].release == release_spec && pieces[i].rect.CY() == 0.0
    // the split: left thin, thick, right thin are contiguous from -length/2 to length/2
    ensures |pieces| == 3 ==>
      && pieces[1].rect.Left() == -length / 2.0
      && pieces[1].rect.Right() == pieces[0].rect.Left() == thick_offset - thick_length / 2.0
      && pieces[0].rect.Right() == pieces[2].rect.Left() == thick_offset + thick_length / 2.0
      && pieces[2].rect.Right() == length / 2.0
    ensures |pieces| == 3 ==>
      pieces[0].rect.h == thick_width && pieces[1].rect.h == width && pieces[2].rect.h == width
  {
    if thick_length == 0.0 || thick_width == width then
      [Block(Centred(0.0, 0.0, length, width), geometry_layer, release_spec)]
    else
      var thin_length := 0.5 * (length - thick_length);
      var thin_center := 0.5 * (thick_length + thin_length);
      [ Block(Centred(thick_offset, 0.0, thick_length, thick_width), geometry_layer, release_spec),
        Block(Centred(-thin_center + 0.5 * thick_offset, 0.0, thin_length + thick_offset, width), geometry_layer, release_spec),
        Block(Centred(thin_center + 0.5 * thick_offset, 0.0, thin_length - thick_offset, width), geometry_layer, release_spec) ]
  }

  /** The three lengths add up to the beam length, and the thin sections
      are half the remainder, shifted by the offset. */
  lemma SplitLengths(length: real, width: real, layer: Layer, rs: Option<ReleaseSpec>, tl: real, tw: real, o: real)
    requires tl != 0.0 && tw != width
    ensures var p := Beam(length, width, layer, rs, tl, tw, o);
      && p[1].rect.w == (length - tl) / 2.0 + o
      && p[2].rect.w == (length - tl) / 2.0 - o
      && p[0].rect.w == tl
      && p[0].rect.w + p[1].rect.w + p[2].rect.w == length
  {
  }

  /** With no thick section (or a thick section as wide as the beam), the
      beam is exactly the plain `length x width` rectangle. */
  lemma PlainBeamIsRectangle(length: real, width: real, layer: Layer, rs: Option<ReleaseSpec>, tw: real, o: real)
    ensures Beam(length, width, layer, rs, 0.0, tw, o) == [Block(Centred(0.0, 0.0, length, width), layer, rs)]
  {
  }

  /** With a zero offset the two thin sections mirror each other about x = 0
      and the thick section is centred. */
  lemma CentredSplitIsSymmetric(length: real, width: real, layer: Layer, rs: Option<ReleaseSpec>, tl: real, tw: real)
    requires tl != 0.0 && tw != width
    ensures var p := Beam(length, width, layer, rs, tl, tw, 0.0);
      && p[0].rect.CX() == 0.0
      && p[1].rect.CX() == -p[2].rect.CX()
      && p[1].rect.w == p[2].rect.w
      && p[1].rect.Left() == -p[2].rect.Right()
  {
  }

  /** Nothing rejects an offset larger than the thin length: the split is
      still produced, with a thin section of negative length. */
  lemma LargeOffsetNotRejected()
    ensures var p := Beam(10.0, 1.0, Layer(1, 0), None, 4.0, 2.0, 5.0);
      |p| == 3 && p[2].rect.w == -2.0
  {
  }
}
