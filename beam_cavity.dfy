/** `beam_cavity`: a solid beam centred on the origin with an optional
    handle-layer cavity rectangle under it. */
module BeamCavity {
  import opened Geometry

  datatype BeamCavityOut = BeamCavityOut(beam: Block, cavity: Option<Block>)

  function BeamCavity(length: real, width: real, geometry_layer: Layer, cavity_layer: Option<Layer>,
                      cavity_width: real, cavity_length_offset: real): (c: BeamCavityOut)
    // the beam: length x width, centred, solid
    ensures c.beam.rect.CX() == 0.0 && c.beam.rect.CY() == 0.0
    ensures c.beam.rect.w == length && c.beam.rect.h == width
    ensures c.beam.layer == geometry_layer && c.beam.release.None?
    // the cavity exists exactly when a layer is given and the width is non-zero
    ensures c.cavity.Some? <==> cavity_layer.Some? && cavity_width != 0.0
    ensures c.cavity.Some? ==>
      && c.cavity.value.rect.CX() == 0.0 && c.cavity.value.rect.CY() == 0.0
      && c.cavity.value.rect.w == length + cavity_length_offset
      && c.cavity.value.rect.h == cavity_width
      && c.cavity.value.layer == cavity_layer.value
      && c.cavity.value.release.None?
  {
    var beam := Block(Centred(0.0, 0.0, length, width), geometry_layer, None);
    if cavity_layer.Some? && cavity_width != 0.0 then
      BeamCavityOut(beam, Some(Block(Centred(0.0, 0.0, length + cavity_length_offset, cavity_width), cavity_layer.value, None)))
    else
      BeamCavityOut(beam, None)
  }

  /** A zero length offset gives a cavity exactly as long as the beam and
      centred on it. */
  lemma ZeroOffsetMatchesBeam(length: real, width: real, layer: Layer, cavity_layer: Layer, cavity_width: real)
    requires cavity_width != 0.0
    ensures var c := BeamCavity(length, width, layer, Some(cavity_layer), cavity_width, 0.0);
      c.cavity.Some? && c.cavity.value.rect.Left() == c.beam.rect.Left() && c.cavity.value.rect.Right() == c.beam.rect.Right()
  {
  }
}
