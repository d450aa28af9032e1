/** `zlever`: a Z pantograph with an electrical separator strip and optional
    mirrored stoppers, each surrounded by an isolation trench ring. The
    model returns the pieces built and the regions to be cut (the separator
    strip and the isolation rings); the closing boolean difference on the
    device layer is left to the layout kernel. */
module Zlever {
  import opened Geometry
  import Zpant

  datatype Polarity = In | Out

  datatype ZleverOut = ZleverOut(
    pant: Zpant.ZpantOut,
    // device-layer blocks added beside the pantograph
    stoppers: seq<Block>,
    meshes: seq<Block>,
    // the regions cut out of the device layer
    separator: Region,
    isolation: seq<Region>,
    geometry_layer: Layer)

  /** `if stopper_pos:`, so both None and 0 skip the stoppers. */
  predicate StopperActive(stopper_pos: Option<real>)
  {
    stopper_pos.Some? && stopper_pos.value != 0.0
  }

  /** The stopper's centre on the right side; its mirror image is on the left. */
  function StopperCentre(width_stage: real, length_stage: real, stopper_pos: real,
                         stopper_length: real, stopper_width: real): (real, real)
  {
    (width_stage / 2.0 + stopper_length / 2.0, length_stage * (0.5 - stopper_pos + 0.5 * stopper_width))
  }

  function IsoLeft(separator_gap: real, separator_margin: real): real
  {
    separator_gap + separator_margin
  }

  function IsoRight(width_stage: real, stopper_length: real): real
  {
    width_stage / 2.0 + stopper_length
  }

  /** The isolation ring on the right: the inner rectangle spans
      `[iso_left, iso_right]` at the stopper's height, the outer one is
      `2 * separator_gap` larger in each direction. */
  function IsolationRing(iso_left: real, iso_right: real, cy: real, height: real, separator_gap: real): Region
  {
    var cx := (iso_left + iso_right) / 2.0;
    Minus(Box(Centred(cx, cy, iso_right - iso_left + 2.0 * separator_gap, height + 2.0 * separator_gap)),
          Box(Centred(cx, cy, iso_right - iso_left, height)))
  }

  /** Mirror image of a region in x (`mirror_x`). */
  function MirrorX(g: Region): Region
  {
    match g
    case Box(r) => Box(Rect(-(r.x + r.w), r.y, r.w, r.h))
    case Minus(a, b) => Minus(MirrorX(a), MirrorX(b))
    case Join(a, b) => Join(MirrorX(a), MirrorX(b))
    case Grown(inner, d) => Grown(MirrorX(inner), d)
  }

  function Zlever(width_stage: real, length_stage: real, width_beam: real, length_beam: real,
                  geometry_layer: Layer, handle_layer: Option<Layer>, handle_offset: real,
                  cavity_layer: Option<Layer>, cavity_width: real, cavity_length_offset: real,
                  stopper_pos: Option<real>, stopper_polarity: Polarity, stopper_length: real,
                  stopper_width: real, stopper_release_specs: Option<ReleaseSpec>,
                  separator_gap: real, separator_margin: real): (r: Result<ZleverOut>)
    // the stopper-width assertion, which reads the spec's distance, is the only failure
    ensures r.Err? <==> (StopperActive(stopper_pos) &&
      (stopper_release_specs.None? || length_stage * stopper_width < 2.0 * stopper_release_specs.value.distance))
    ensures r.Err? && stopper_release_specs.None? ==> r.error == StopperSpecMissing
    ensures r.Err? && stopper_release_specs.Some? ==> r.error == StopperTooNarrow
    // the pantograph is always built unperforated
    ensures r.Ok? ==> r.value.pant == Zpant.Zpant(width_stage, length_stage, width_beam, length_beam, geometry_layer,
                                                  handle_layer, handle_offset, cavity_layer, cavity_width,
                                                  cavity_length_offset, None)
    // the separator strip: separator_gap x (ls + wb), centred
    ensures r.Ok? ==> r.value.separator == Box(Centred(0.0, 0.0, separator_gap, length_stage + width_beam))
    ensures r.Ok? ==> r.value.geometry_layer == geometry_layer
    // without stoppers nothing else is added
    ensures r.Ok? && !StopperActive(stopper_pos) ==>
      r.value.stoppers == [] && r.value.meshes == [] && r.value.isolation == []
    // with stoppers: two mirrored stoppers, "out" perforated, "in" solid
    ensures r.Ok? && StopperActive(stopper_pos) ==>
      var c := StopperCentre(width_stage, length_stage, stopper_pos.value, stopper_length, stopper_width);
      var release := if stopper_polarity == Out then stopper_release_specs else None;
      r.value.stoppers == [Block(Centred(c.0, c.1, stopper_length, length_stage * stopper_width), geometry_layer, release),
                           Block(Centred(-c.0, c.1, stopper_length, length_stage * stopper_width), geometry_layer, release)]
    // an isolation ring on each side
    ensures r.Ok? && StopperActive(stopper_pos) ==>
      var c := StopperCentre(width_stage, length_stage, stopper_pos.value, stopper_length, stopper_width);
      var ring := IsolationRing(IsoLeft(separator_gap, separator_margin), IsoRight(width_stage, stopper_length),
                                c.1, length_stage * stopper_width, separator_gap);
      r.value.isolation == [ring, MirrorX(ring)]
    // for "in", perforated blocks between the isolation ring and the stage edge
    ensures r.Ok? && StopperActive(stopper_pos) ==>
      var c := StopperCentre(width_stage, length_stage, stopper_pos.value, stopper_length, stopper_width);
      var iso_left := IsoLeft(separator_gap, separator_margin);
      var mx := (iso_left + width_stage / 2.0) / 2.0;
      var w := width_stage / 2.0 - iso_left;
      r.value.meshes ==
        if stopper_polarity == In then
          [Block(Centred(mx, c.1, w, length_stage * stopper_width), geometry_layer, stopper_release_specs),
           Block(Centred(-mx, c.1, w, length_stage * stopper_width), geometry_layer, stopper_release_specs)]
        else []
  {
    var pant := Zpant.Zpant(width_stage, length_stage, width_beam, length_beam, geometry_layer, handle_layer,
                            handle_offset, cavity_layer, cavity_width, cavity_length_offset, None);
    var sep := Box(Centred(0.0, 0.0, separator_gap, length_stage + width_beam));
    if !StopperActive(stopper_pos) then
      Ok(ZleverOut(pant, [], [], sep, [], geometry_layer))
    else
      var c := StopperCentre(width_stage, length_stage, stopper_pos.value, stopper_length, stopper_width);
      var height := length_stage * stopper_width;
      var release := if stopper_polarity == Out then stopper_release_specs else None;
      var stoppers := [Block(Centred(c.0, c.1, stopper_length, height), geometry_layer, release),
                       Block(Centred(-c.0, c.1, stopper_length, height), geometry_layer, release)];
      if stopper_release_specs.None? then
        Err(StopperSpecMissing)
      else if !(height >= 2.0 * stopper_release_specs.value.distance) then
        Err(StopperTooNarrow)
      else
        var iso_left := IsoLeft(separator_gap, separator_margin);
        var iso_right := IsoRight(width_stage, stopper_length);
        var ring := IsolationRing(iso_left, iso_right, c.1, height, separator_gap);
        var meshes :=
          if stopper_polarity == In then
            var mx := (iso_left + width_stage / 2.0) / 2.0;
            [Block(Centred(mx, c.1, width_stage / 2.0 - iso_left, height), geometry_layer, stopper_release_specs),
             Block(Centred(-mx, c.1, width_stage / 2.0 - iso_left, height), geometry_layer, stopper_release_specs)]
          else [];
        Ok(ZleverOut(pant, stoppers, meshes, sep, [ring, MirrorX(ring)], geometry_layer))
  }

  /** Mirroring twice gives the region back. */
  lemma {:induction false} MirrorInvolutive(g: Region)
    ensures MirrorX(MirrorX(g)) == g
  {
    match g
    case Box(r) =>
    case Minus(a, b) => MirrorInvolutive(a); MirrorInvolutive(b);
    case Join(a, b) => MirrorInvolutive(a); MirrorInvolutive(b);
    case Grown(inner, d) => MirrorInvolutive(inner);
  }

  /** The two stoppers are mirror images whose inner edges touch the stage
      at `|x| = ws/2`, and each is the requested size. */
  lemma StoppersMirrored(width_stage: real, length_stage: real, stopper_pos: real,
                         stopper_length: real, stopper_width: real)
    ensures var c := StopperCentre(width_stage, length_stage, stopper_pos, stopper_length, stopper_width);
      var right := Centred(c.0, c.1, stopper_length, length_stage * stopper_width);
      var left := Centred(-c.0, c.1, stopper_length, length_stage * stopper_width);
      && Box(left) == MirrorX(Box(right))
      && right.Left() == width_stage / 2.0 && left.Right() == -width_stage / 2.0
      && right.Right() == IsoRight(width_stage, stopper_length)
  {
  }

  /** The isolation ring's hole is `[iso_left, iso_right]` wide at the
      stopper's height; its trench is `separator_gap` wide on every side;
      when the isolation starts inside the stage (`iso_left <= ws/2`) the
      stopper lies wholly inside the hole, so the trench surrounds it. */
  lemma {:induction false} IsolationSurroundsStopper(width_stage: real, length_stage: real, stopper_pos: real,
                                                     stopper_length: real, stopper_width: real,
                                                     separator_gap: real, separator_margin: real)
    ensures var c := StopperCentre(width_stage, length_stage, stopper_pos, stopper_length, stopper_width);
      var iso_left, iso_right := IsoLeft(separator_gap, separator_margin), IsoRight(width_stage, stopper_length);
      var ring := IsolationRing(iso_left, iso_right, c.1, length_stage * stopper_width, separator_gap);
      var outer, hole := ring.a.rect, ring.b.rect;
      var stopper := Centred(c.0, c.1, stopper_length, length_stage * stopper_width);
      && hole.Left() == iso_left && hole.Right() == iso_right
      && hole.Bottom() == stopper.Bottom() && hole.Top() == stopper.Top()
      && outer.Left() == hole.Left() - separator_gap && outer.Right() == hole.Right() + separator_gap
      && outer.Bottom() == hole.Bottom() - separator_gap && outer.Top() == hole.Top() + separator_gap
      && (iso_left <= width_stage / 2.0 ==> hole.Left() <= stopper.Left() && stopper.Right() == hole.Right())
  {
  }

  /** The "in" mesh blocks fill `[iso_left, ws/2]` and meet the stoppers at
      the stage edge. */
  lemma InMeshMeetsStopper(width_stage: real, length_stage: real, stopper_pos: real, stopper_length: real,
                           stopper_width: real, separator_gap: real, separator_margin: real)
    ensures var c := StopperCentre(width_stage, length_stage, stopper_pos, stopper_length, stopper_width);
      var iso_left := IsoLeft(separator_gap, separator_margin);
      var mesh := Centred((iso_left + width_stage / 2.0) / 2.0, c.1, width_stage / 2.0 - iso_left,
                          length_stage * stopper_width);
      var stopper := Centred(c.0, c.1, stopper_length, length_stage * stopper_width);
      mesh.Left() == iso_left && mesh.Right() == width_stage / 2.0 == stopper.Left()
  {
  }

  /** The stopper position is not range-checked: any non-zero value builds
      stoppers, even one that puts them outside the stage. */
  lemma StopperPosNotValidated(rs: ReleaseSpec)
    requires rs.distance <= 5.0
    ensures Zlever(10.0, 10.0, 1.0, 5.0, Layer(1, 0), None, 0.0, None, 0.0, 0.0, Some(3.0), Out, 2.0, 1.0,
                   Some(rs), 2.0, 5.0).Ok?
    ensures StopperCentre(10.0, 10.0, 3.0, 2.0, 1.0).1 + 10.0 * 1.0 / 2.0 < -(10.0 + 1.0) / 2.0
  {
  }
}
