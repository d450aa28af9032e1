/** `zpant`: a pantographic Z joint: a centred stage (solid with an optional
    handle block, or perforated), and four torsional beams, one per
    quadrant, flush with the stage's side and top or bottom edge. */
module Zpant {
  import opened Geometry
  import BeamCavity

  datatype ZpantOut = ZpantOut(stage: Block, handle: Option<Block>, beam: BeamCavity.BeamCavityOut,
                               beam_centres: seq<(real, real)>)

  /** The four quadrant signs, in placement order. */
  const Quadrants: seq<(real, real)> := [(1.0, 1.0), (1.0, -1.0), (-1.0, -1.0), (-1.0, 1.0)]

  function Zpant(width_stage: real, length_stage: real, width_beam: real, length_beam: real,
                 geometry_layer: Layer, handle_layer: Option<Layer>, handle_offset: real,
                 cavity_layer: Option<Layer>, cavity_width: real, cavity_length_offset: real,
                 release_specs: Option<ReleaseSpec>): (z: ZpantOut)
    // the stage is ws x (ls + wb), centred, perforated exactly when a spec is given
    ensures z.stage == Block(Centred(0.0, 0.0, width_stage, length_stage + width_beam), geometry_layer, release_specs)
    // a handle block only under a solid stage with a handle layer, 2 * handle_offset larger
    ensures z.handle.Some? <==> release_specs.None? && handle_layer.Some?
    ensures z.handle.Some? ==>
      z.handle.value == Block(Centred(0.0, 0.0, width_stage + 2.0 * handle_offset,
                                      length_stage + width_beam + 2.0 * handle_offset),
                              handle_layer.value, None)
    // one beam shape (with its optional cavity), placed four times
    ensures z.beam == BeamCavity.BeamCavity(length_beam, width_beam, geometry_layer, cavity_layer,
                                            cavity_width, cavity_length_offset)
    ensures |z.beam_centres| == 4
    ensures forall k :: 0 <= k < 4 ==>
      z.beam_centres[k] == (Quadrants[k].0 * (width_stage / 2.0 + length_beam / 2.0),
                            Quadrants[k].1 * (length_stage / 2.0))
  {
    var stage := Block(Centred(0.0, 0.0, width_stage, length_stage + width_beam), geometry_layer, release_specs);
    var handle :=
      if release_specs.None? && handle_layer.Some? then
        Some(Block(Centred(0.0, 0.0, width_stage + 2.0 * handle_offset, length_stage + width_beam + 2.0 * handle_offset),
                   handle_layer.value, None))
      else None;
    var cx, cy := width_stage / 2.0 + length_beam / 2.0, length_stage / 2.0;
    ZpantOut(stage, handle,
             BeamCavity.BeamCavity(length_beam, width_beam, geometry_layer, cavity_layer, cavity_width, cavity_length_offset),
             [(cx, cy), (cx, -cy), (-cx, -cy), (-cx, cy)])
  }

  /** With positive sizes there is one beam per quadrant, and the centres
      are the mirror images of the first one. */
  lemma OneBeamPerQuadrant(width_stage: real, length_stage: real, width_beam: real, length_beam: real,
                           geometry_layer: Layer, handle_layer: Option<Layer>, handle_offset: real,
                           cavity_layer: Option<Layer>, cavity_width: real, cavity_length_offset: real,
                           release_specs: Option<ReleaseSpec>)
    requires width_stage > 0.0 && length_stage > 0.0 && length_beam > 0.0
    ensures var c := Zpant(width_stage, length_stage, width_beam, length_beam, geometry_layer, handle_layer,
                           handle_offset, cavity_layer, cavity_width, cavity_length_offset, release_specs).beam_centres;
      && c[0].0 > 0.0 && c[0].1 > 0.0 && c[1].0 > 0.0 && c[1].1 < 0.0
      && c[2].0 < 0.0 && c[2].1 < 0.0 && c[3].0 < 0.0 && c[3].1 > 0.0
      && c[1] == (c[0].0, -c[0].1) && c[2] == (-c[0].0, -c[0].1) && c[3] == (-c[0].0, c[0].1)
  {
  }

  /** Each beam's inner end touches the stage's side at `|x| = ws/2`, and
      its outer y-edge is flush with the stage's top or bottom edge. */
  lemma BeamsFlushWithStage(width_stage: real, length_stage: real, width_beam: real, length_beam: real,
                            geometry_layer: Layer, handle_layer: Option<Layer>, handle_offset: real,
                            cavity_layer: Option<Layer>, cavity_width: real, cavity_length_offset: real,
                            release_specs: Option<ReleaseSpec>, k: nat)
    requires k < 4
    ensures var z := Zpant(width_stage, length_stage, width_beam, length_beam, geometry_layer, handle_layer,
                           handle_offset, cavity_layer, cavity_width, cavity_length_offset, release_specs);
      var beam := z.beam.beam.rect.Moved(z.beam_centres[k].0, z.beam_centres[k].1);
      && (k < 2 ==> beam.Left() == z.stage.rect.Right())
      && (k >= 2 ==> beam.Right() == z.stage.rect.Left())
      && (k == 0 || k == 3 ==> beam.Top() == z.stage.rect.Top())
      && (k == 1 || k == 2 ==> beam.Bottom() == z.stage.rect.Bottom())
  {
  }
}
