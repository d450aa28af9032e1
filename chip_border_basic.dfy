/** `basic.chip_border`: a centred chip frame, a pinwheel of four perforated
    mesh bars lining the frame's opening, and a handle-layer cavity ring
    under the mesh. */
module BasicChipBorder {
  import opened Geometry

  datatype ChipBorderOut = ChipBorderOut(
    frame: Region, frame_layer: Layer,
    mesh_bars: seq<Block>,
    cavity: Region, cavity_layer: Layer)

  /** The opening of the frame, `(W - 2m) x (H - 2m)`, centred. */
  function Opening(size_x: real, size_y: real, margin: real): Rect
  {
    Centred(0.0, 0.0, size_x - 2.0 * margin, size_y - 2.0 * margin)
  }

  /** The four mesh bars in the order they are placed: two horizontal bars
      of `(W - 2m - wm) x wm`, then two vertical bars of `wm x (H - 2m - wm)`. */
  function MeshBars(size_x: real, size_y: real, margin: real, width_mesh: real,
                    geometry_layer: Layer, release_specs: Option<ReleaseSpec>): (bars: seq<Block>)
    ensures |bars| == 4
    ensures forall i :: 0 <= i < 4 ==> bars[i].layer == geometry_layer && bars[i].release == release_specs
    ensures bars[0].rect.w == bars[1].rect.w == size_x - 2.0 * margin - width_mesh
    ensures bars[0].rect.h == bars[1].rect.h == width_mesh
    ensures bars[2].rect.w == bars[3].rect.w == width_mesh
    ensures bars[2].rect.h == bars[3].rect.h == size_y - 2.0 * margin - width_mesh
  {
    var meshbar_x := Centred(0.0, 0.0, size_x - 2.0 * margin - width_mesh, width_mesh);
    var meshbar_y := Centred(0.0, 0.0, width_mesh, size_y - 2.0 * margin - width_mesh);
    [ Block(meshbar_x.Moved(-width_mesh / 2.0, (size_y - 2.0 * margin - width_mesh) / 2.0), geometry_layer, release_specs),
      Block(meshbar_x.Moved(width_mesh / 2.0, -(size_y - 2.0 * margin - width_mesh) / 2.0), geometry_layer, release_specs),
      Block(meshbar_y.Moved(-(size_x - 2.0 * margin - width_mesh) / 2.0, -width_mesh / 2.0), geometry_layer, release_specs),
      Block(meshbar_y.Moved((size_x - 2.0 * margin - width_mesh) / 2.0, width_mesh / 2.0), geometry_layer, release_specs) ]
  }

  function ChipBorder(size_x: real, size_y: real, margin: real, width_mesh: real, width_cavity: real,
                      geometry_layer: Layer, cavity_layer: Layer, release_specs: Option<ReleaseSpec>): (c: ChipBorderOut)
    // the frame is the whole chip minus the opening, solid, on the device layer
    ensures c.frame == Minus(Box(Centred(0.0, 0.0, size_x, size_y)), Box(Opening(size_x, size_y, margin)))
    ensures c.frame_layer == geometry_layer
    // only the mesh bars are perforated
    ensures c.mesh_bars == MeshBars(size_x, size_y, margin, width_mesh, geometry_layer, release_specs)
    // the cavity ring is an outer minus an inner centred rectangle on the cavity layer
    ensures c.cavity.Minus? && c.cavity.a.Box? && c.cavity.b.Box? && c.cavity_layer == cavity_layer
    ensures c.cavity.a.rect.CX() == 0.0 && c.cavity.a.rect.CY() == 0.0
    ensures c.cavity.b.rect.CX() == 0.0 && c.cavity.b.rect.CY() == 0.0
    // each cavity wall is width_cavity thick and centred on the mesh bars' centreline
    ensures c.cavity.a.rect.w / 2.0 - c.cavity.b.rect.w / 2.0 == width_cavity
    ensures c.cavity.a.rect.h / 2.0 - c.cavity.b.rect.h / 2.0 == width_cavity
    ensures (c.cavity.a.rect.w / 2.0 + c.cavity.b.rect.w / 2.0) / 2.0 == (size_x - 2.0 * margin - width_mesh) / 2.0
    ensures (c.cavity.a.rect.h / 2.0 + c.cavity.b.rect.h / 2.0) / 2.0 == (size_y - 2.0 * margin - width_mesh) / 2.0
  {
    var chip := Centred(0.0, 0.0, size_x, size_y);
    var opening := Centred(0.0, 0.0, size_x - 2.0 * margin, size_y - 2.0 * margin);
    var handle0 := Centred(0.0, 0.0, size_x - 2.0 * margin + width_cavity - width_mesh,
                           size_y - 2.0 * margin + width_cavity - width_mesh);
    var handle1 := Centred(0.0, 0.0, size_x - 2.0 * margin - width_cavity - width_mesh,
                           size_y - 2.0 * margin - width_cavity - width_mesh);
    ChipBorderOut(Minus(Box(chip), Box(opening)), geometry_layer,
                  MeshBars(size_x, size_y, margin, width_mesh, geometry_layer, release_specs),
                  Minus(Box(handle0), Box(handle1)), cavity_layer)
  }

  /** The band of width `width_mesh` just inside the opening: the opening
      minus its open interior shrunk by `width_mesh` on every side. */
  predicate InMeshBand(size_x: real, size_y: real, margin: real, width_mesh: real, px: real, py: real)
  {
    var o := Opening(size_x, size_y, margin);
    o.Contains(px, py) &&
    !Rect(o.x + width_mesh, o.y + width_mesh, o.w - 2.0 * width_mesh, o.h - 2.0 * width_mesh).InInterior(px, py)
  }

  /** The pinwheel covers the whole band ... */
  lemma {:induction false} PinwheelCoversBand(size_x: real, size_y: real, margin: real, width_mesh: real,
                                              layer: Layer, rs: Option<ReleaseSpec>, px: real, py: real)
    requires 0.0 < width_mesh
    requires 2.0 * width_mesh <= size_x - 2.0 * margin && 2.0 * width_mesh <= size_y - 2.0 * margin
    requires InMeshBand(size_x, size_y, margin, width_mesh, px, py)
    ensures exists k :: 0 <= k < 4 && MeshBars(size_x, size_y, margin, width_mesh, layer, rs)[k].rect.Contains(px, py)
  {
    var bars := MeshBars(size_x, size_y, margin, width_mesh, layer, rs);
    var a, b := (size_x - 2.0 * margin) / 2.0, (size_y - 2.0 * margin) / 2.0;
    var k :=
      if py >= b - width_mesh then (if px <= a - width_mesh then 0 else 3)
      else if py <= -b + width_mesh then (if px >= -a + width_mesh then 1 else 2)
      else if px <= -a + width_mesh then 2 else 3;
    assert bars[k].rect.Contains(px, py);
  }

  /** ... stays inside it ... */
  lemma {:induction false} PinwheelWithinBand(size_x: real, size_y: real, margin: real, width_mesh: real,
                                              layer: Layer, rs: Option<ReleaseSpec>, k: nat, px: real, py: real)
    requires 0.0 < width_mesh
    requires 2.0 * width_mesh <= size_x - 2.0 * margin && 2.0 * width_mesh <= size_y - 2.0 * margin
    requires k < 4 && MeshBars(size_x, size_y, margin, width_mesh, layer, rs)[k].rect.Contains(px, py)
    ensures InMeshBand(size_x, size_y, margin, width_mesh, px, py)
  {
  }

  /** ... and no two bars overlap. */
  lemma {:induction false} PinwheelDisjoint(size_x: real, size_y: real, margin: real, width_mesh: real,
                                            layer: Layer, rs: Option<ReleaseSpec>, k: nat, l: nat)
    requires 0.0 < width_mesh
    requires 2.0 * width_mesh <= size_x - 2.0 * margin && 2.0 * width_mesh <= size_y - 2.0 * margin
    requires k < l < 4
    ensures var bars := MeshBars(size_x, size_y, margin, width_mesh, layer, rs);
      InteriorsDisjoint(bars[k].rect, bars[l].rect)
  {
  }
}
