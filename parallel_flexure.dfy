/** `parallel_flexure`: beams standing on y = 0 at fractional positions,
    carrying a bar on their top ends; positions are clamped by if/elif. */
module ParallelFlexure {
  import opened Geometry
  import opened BeamSpecs
  import Parallel

  datatype FlexureOut = FlexureOut(bar: Block, beams: seq<Parallel.BeamRef>)

  /** The if/elif clamp: the lower limit is tested first, the upper limit
      only otherwise. */
  function ClampLowerFirst(x_pos: real, length_bar: real, width_beam: real): (x: real)
    ensures width_beam <= length_bar ==> -length_bar / 2.0 + width_beam / 2.0 <= x <= length_bar / 2.0 - width_beam / 2.0
    ensures -length_bar / 2.0 + width_beam / 2.0 <= x_pos <= length_bar / 2.0 - width_beam / 2.0 ==> x == x_pos
  {
    if x_pos < -length_bar / 2.0 + width_beam / 2.0 then -length_bar / 2.0 + width_beam / 2.0
    else if x_pos > length_bar / 2.0 - width_beam / 2.0 then length_bar / 2.0 - width_beam / 2.0
    else x_pos
  }

  function BeamX(pos: real, length_bar: real, width_beam: real): real
  {
    ClampLowerFirst((pos - 0.5) * length_bar, length_bar, width_beam)
  }

  method ParallelFlexure(length_beam: real, width_beam: real, length_bar: real, width_bar: real,
                         beam_pos: seq<real>, geometry_layer: Layer, beam_spec: Option<BeamSpec>,
                         release_spec: Option<ReleaseSpec>) returns (out: FlexureOut)
    // the bar is centred on (0, width_bar/2 + length_beam): y in [length_beam, length_beam + width_bar]
    ensures out.bar.rect.CX() == 0.0 && out.bar.rect.CY() == width_bar / 2.0 + length_beam
    ensures out.bar.rect.Bottom() == length_beam && out.bar.rect.Top() == length_beam + width_bar
    ensures out.bar.rect.w == length_bar && out.bar.layer == geometry_layer && out.bar.release == release_spec
    // one beam per position, in order, centred at half the beam length
    ensures |out.beams| == |beam_pos|
    ensures forall i :: 0 <= i < |beam_pos| ==>
      out.beams[i] == Parallel.BeamRef(length_beam, width_beam, BeamX(beam_pos[i], length_bar, width_beam),
                                       length_beam / 2.0, 90.0,
                                       geometry_layer, beam_spec, release_spec)
    // each beam spans y in [0, length_beam]: it stands on y = 0 and its top
    // end meets the bar's bottom edge
    ensures forall i :: 0 <= i < |out.beams| ==>
      out.beams[i].cy - out.beams[i].length / 2.0 == 0.0 &&
      out.beams[i].cy + out.beams[i].length / 2.0 == out.bar.rect.Bottom()
  {
    var bar := Block(Centred(0.0, 0.0, length_bar, width_bar).Moved(0.0, width_bar / 2.0 + length_beam),
                     geometry_layer, release_spec);
    var beams := [];
    for i := 0 to |beam_pos|
      invariant |beams| == i
      invariant forall j :: 0 <= j < i ==>
        beams[j] == Parallel.BeamRef(length_beam, width_beam, BeamX(beam_pos[j], length_bar, width_beam),
                                     length_beam / 2.0, 90.0,
                                     geometry_layer, beam_spec, release_spec)
    {
      var x_pos := (beam_pos[i] - 0.5) * length_bar;
      if x_pos < -length_bar / 2.0 + width_beam / 2.0 {
        x_pos := -length_bar / 2.0 + width_beam / 2.0;
      } else if x_pos > length_bar / 2.0 - width_beam / 2.0 {
        x_pos := length_bar / 2.0 - width_beam / 2.0;
      }
      beams := beams + [Parallel.BeamRef(length_beam, width_beam, x_pos, length_beam / 2.0, 90.0,
                                         geometry_layer, beam_spec, release_spec)];
    }
    out := FlexureOut(bar, beams);
  }

  /** When the beam fits on the bar the two generators clamp alike. */
  lemma ClampsAgreeWhenBeamFits(pos: real, length_bar: real, width_beam: real)
    requires width_beam <= length_bar
    ensures BeamX(pos, length_bar, width_beam) == Parallel.BeamX(pos, length_bar, width_beam)
  {
  }

  /** When it does not, they disagree: `parallel_flexure` keeps the lower
      limit for a position left of it, `parallel` always the upper one. */
  lemma ClampsDisagreeWhenBeamTooWide()
    ensures BeamX(0.0, 1.0, 3.0) == 1.0
    ensures Parallel.BeamX(0.0, 1.0, 3.0) == -1.0
  {
  }
}
