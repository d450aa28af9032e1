/** `parallel`: a bar with its south edge on y = 0 and identical beams
    standing on it at fractional positions, clamped to the bar. */
module Parallel {
  import opened Geometry
  import opened BeamSpecs

  /** An instance of `beam(length, width, layer, beam_spec, release)` rotated
      by 90 degrees and moved so that its centre is (cx, cy): it then spans
      `width` in x and `length` in y. */
  datatype BeamRef = BeamRef(length: real, width: real, cx: real, cy: real, rotation: real,
                             layer: Layer, beam_spec: Option<BeamSpec>, release: Option<ReleaseSpec>)

  datatype ParallelOut = ParallelOut(bar: Block, beams: seq<BeamRef>)

  /** The two successive clamps of the loop body. */
  function Clamp(x_pos: real, x_lim: real): (x: real)
    ensures x_lim >= 0.0 ==> -x_lim <= x <= x_lim
    ensures -x_lim <= x_pos <= x_lim ==> x == x_pos
  {
    var lowered := if x_pos < -x_lim then -x_lim else x_pos;
    if lowered > x_lim then x_lim else lowered
  }

  /** The x centre of the beam at fractional position `pos`. */
  function BeamX(pos: real, bar_length: real, beam_width: real): real
  {
    Clamp((pos - 0.5) * bar_length, 0.5 * bar_length - 0.5 * beam_width)
  }

  method Parallel(bar_length: real, bar_width: real, beam_length: real, beam_width: real,
                  beam_pos: seq<real>, geometry_layer: Layer, beam_spec: Option<BeamSpec>,
                  release_spec: Option<ReleaseSpec>) returns (out: ParallelOut)
    // the bar spans y in [0, bar_width] and is centred on x = 0
    ensures out.bar.rect.Bottom() == 0.0 && out.bar.rect.Top() == bar_width && out.bar.rect.CX() == 0.0
    ensures out.bar.rect.w == bar_length && out.bar.layer == geometry_layer && out.bar.release == release_spec
    // one beam per position, in order, standing on the bar
    ensures |out.beams| == |beam_pos|
    ensures forall i :: 0 <= i < |beam_pos| ==>
      out.beams[i] == BeamRef(beam_length, beam_width, BeamX(beam_pos[i], bar_length, beam_width),
                              bar_width + 0.5 * beam_length, 90.0,
                              geometry_layer, beam_spec, release_spec)
    // each beam spans y in [bar_width, bar_width + beam_length]: its foot is
    // on the bar's top edge
    ensures forall i :: 0 <= i < |out.beams| ==>
      out.beams[i].cy - out.beams[i].length / 2.0 == out.bar.rect.Top() &&
      out.beams[i].cy + out.beams[i].length / 2.0 == bar_width + beam_length
    // a beam no wider than the bar stays within the bar's x extent
    ensures beam_width <= bar_length ==> forall i :: 0 <= i < |out.beams| ==>
      out.bar.rect.Left() <= out.beams[i].cx - out.beams[i].width / 2.0 &&
      out.beams[i].cx + out.beams[i].width / 2.0 <= out.bar.rect.Right()
  {
    var bar := Block(Centred(0.0, 0.0, bar_length, bar_width).Moved(0.0, 0.5 * bar_width), geometry_layer, release_spec);
    var beams := [];
    for i := 0 to |beam_pos|
      invariant |beams| == i
      invariant forall j :: 0 <= j < i ==>
        beams[j] == BeamRef(beam_length, beam_width, BeamX(beam_pos[j], bar_length, beam_width),
                            bar_width + 0.5 * beam_length, 90.0,
                            geometry_layer, beam_spec, release_spec)
    {
      var x_pos := (beam_pos[i] - 0.5) * bar_length;
      var x_lim := 0.5 * bar_length - 0.5 * beam_width;
      x_pos := if x_pos < -x_lim then -x_lim else x_pos;
      x_pos := if x_pos > x_lim then x_lim else x_pos;
      beams := beams + [BeamRef(beam_length, beam_width, x_pos, bar_width + 0.5 * beam_length, 90.0,
                                geometry_layer, beam_spec, release_spec)];
    }
    out := ParallelOut(bar, beams);
  }

  /** Clamping twice is clamping once. */
  lemma ClampIdempotent(x_pos: real, x_lim: real)
    requires x_lim >= 0.0
    ensures Clamp(Clamp(x_pos, x_lim), x_lim) == Clamp(x_pos, x_lim)
  {
  }

  /** When the beam is no wider than the bar, each beam centre keeps the
      beam within the bar's x-extent, for every fractional position. */
  lemma BeamOnBar(pos: real, bar_length: real, bar_width: real, beam_length: real, beam_width: real)
    requires beam_width <= bar_length
    ensures var x := BeamX(pos, bar_length, beam_width);
      && -bar_length / 2.0 <= x - beam_width / 2.0
      && x + beam_width / 2.0 <= bar_length / 2.0
  {
  }

  /** A beam wider than the bar is always placed at the upper limit, which
      is then negative: the second clamp overrides the first. */
  lemma TooWideBeamTakesUpperLimit(pos: real, bar_length: real, beam_width: real)
    requires beam_width > bar_length
    ensures BeamX(pos, bar_length, beam_width) == 0.5 * bar_length - 0.5 * beam_width < 0.0
  {
  }
}
