/** `device.chip_border`: a rectangular border ring and, with a cavity
    specification, a solid handle-layer cavity ring along its centreline. */
module DeviceChipBorder {
  import opened Geometry
  import RectangleRing

  /** The frozen `CavitySpec` record. */
  datatype CavitySpec = CavitySpec(width: real, layer: Layer)

  datatype DeviceBorderOut = DeviceBorderOut(border: seq<Block>, cavity: Option<seq<Block>>)

  function ChipBorder(size_x: real, size_y: real, width: real, geometry_layer: Layer, centered: bool,
                      release_spec: Option<ReleaseSpec>, cavity_spec: Option<CavitySpec>): (c: DeviceBorderOut)
    // the border is the rectangle ring with the caller's parameters, unchanged
    ensures c.border == RectangleRing.Pieces(size_x, size_y, width, geometry_layer, centered, release_spec)
    // without a cavity specification only the border is emitted
    ensures c.cavity.Some? <==> cavity_spec.Some?
    // the cavity ring: outer size grown by cw - w, ring width cw, on the cavity layer, never perforated
    ensures cavity_spec.Some? ==>
      c.cavity.value == RectangleRing.Pieces(size_x - width + cavity_spec.value.width,
                                             size_y - width + cavity_spec.value.width,
                                             cavity_spec.value.width, cavity_spec.value.layer, centered, None)
    ensures c.cavity.Some? ==>
      forall k :: 0 <= k < |c.cavity.value| ==> c.cavity.value[k].release.None? && c.cavity.value[k].layer == cavity_spec.value.layer
  {
    var border := RectangleRing.Pieces(size_x, size_y, width, geometry_layer, centered, release_spec);
    if cavity_spec.None? then
      DeviceBorderOut(border, None)
    else
      var cw := cavity_spec.value.width;
      var cavity := RectangleRing.Pieces(size_x - width + cw, size_y - width + cw, cw, cavity_spec.value.layer, centered, None);
      assert forall k :: 0 <= k < 8 ==> cavity[k].release.None? && cavity[k].layer == cavity_spec.value.layer;
      DeviceBorderOut(border, Some(cavity))
  }

  /** Centred, the cavity ring runs along the border's centreline: on every
      side the middle of the cavity wall is the middle of the border wall,
      at half-extent `(W - w) / 2`. */
  lemma CentredCavityOnCentreline(size_x: real, size_y: real, width: real, geometry_layer: Layer,
                                  release_spec: Option<ReleaseSpec>, cs: CavitySpec)
    ensures var c := ChipBorder(size_x, size_y, width, geometry_layer, true, release_spec, Some(cs));
      var b, v := c.border, c.cavity.value;
      && b[0].rect.Left() + width / 2.0 == v[0].rect.Left() + cs.width / 2.0 == -(size_x - width) / 2.0
      && b[0].rect.Bottom() + width / 2.0 == v[0].rect.Bottom() + cs.width / 2.0 == -(size_y - width) / 2.0
      && b[3].rect.Right() - width / 2.0 == v[3].rect.Right() - cs.width / 2.0 == (size_x - width) / 2.0
      && b[3].rect.Top() - width / 2.0 == v[3].rect.Top() - cs.width / 2.0 == (size_y - width) / 2.0
  {
  }

  /** Not centred, both rings start at the origin corner instead. */
  lemma UncentredRingsShareOrigin(size_x: real, size_y: real, width: real, geometry_layer: Layer,
                                  release_spec: Option<ReleaseSpec>, cs: CavitySpec)
    ensures var c := ChipBorder(size_x, size_y, width, geometry_layer, false, release_spec, Some(cs));
      && c.border[0].rect.Left() == c.cavity.value[0].rect.Left() == 0.0
      && c.border[0].rect.Bottom() == c.cavity.value[0].rect.Bottom() == 0.0
  {
  }
}
