# gfelib layout generators in Dafny

gfelib builds MEMS device layouts on top of gdsfactory. Each generator
takes physical dimensions, GDS layers and optional release
specifications, and returns a component made of rectangles, arcs,
circles, boolean differences and release-hole lattices. This project
models the geometric core of those generators:

- the basic shapes: `ring`, `polygon`, `rectangle_ring`, `via` and the
  two `chip_border`s;
- the flexures: `beam`, `beam_cavity`, `butterfly`, `parallel`,
  `parallel_flexure`, `zpant` and `z_cantilever`;
- the actuators: `comb`, `angular_comb` and `rotator_gear`;
- the `zlever` stage;
- the `BeamSpec` record and `sagitta_offset_safe`.

A generator becomes either a function that returns the pieces it would
place, or a method that returns them when the source builds them with
loops. A piece is an axis-aligned `Rect` on a layer with an optional
release spec, an arc or ring instance, or a hole centre. Boolean
operations are kept as terms of a small `Region` algebra: `Box`,
`Minus`, `Join` and `Grown`. Each operation's contract ties its result
to its inputs. The lemmas then prove what the design promises: pieces
tile a band without overlap; ring holes lie inside their band; polygon
holes lie inside the origin-centred box of the shape's size and bring
every point of that box within hole_radius + distance of a hole centre;
teeth interleave; errors are raised on exactly the inputs the source
rejects; and so on.

Shared modules:

- `Geometry` holds rectangles, blocks, layers, the release-spec record,
  the region terms and `Result`.
- `Numeric` holds floor, ceiling and the length of a numpy `arange`.

## Model

| member | source | states |
|---|---|---|
| BeamSpecs.BeamSpec.Thickened | gfelib/datatypes/beam_spec.py:39-45 | true exactly when neither thick size is the unset (0, 0)-style pair; any non-zero absolute length and width switch it on |
| BeamSpecs.BeamSpec.GetThickLength | gfelib/datatypes/beam_spec.py:47-51 | succeeds iff the resolved thick length (abs, or rel times the beam length) is positive, and then returns it; otherwise the thick-length error |
| BeamSpecs.BeamSpec.GetThickWidth | gfelib/datatypes/beam_spec.py:53-57 | succeeds iff the resolved thick width is positive, and then returns it; otherwise the thick-width error |
| BeamSpecs.BeamSpec.GetThickOffset | gfelib/datatypes/beam_spec.py:59-60 | never fails and returns the resolved offset, including zero and negative offsets |
| BeamSpecs.BeamSpec.HandleEtched | gfelib/datatypes/beam_spec.py:62-70 | true iff the spec is thickened and carries a handle-etch layer |
| BeamSpecs.BeamSpec.GetHandleEtchLength | gfelib/datatypes/beam_spec.py:72-76 | succeeds iff the resolved handle-etch length is positive, and then returns it |
| BeamSpecs.BeamSpec.GetHandleEtchWidth | gfelib/datatypes/beam_spec.py:78-82 | succeeds iff the resolved handle-etch width is positive, and then returns it |
| BeamSpecs.BeamSpec.GetHandleEtchOffset | gfelib/datatypes/beam_spec.py:84-85 | never fails and returns the resolved handle-etch offset |
| BeamSpecs.DefaultsDisabled | gfelib/datatypes/beam_spec.py:27-37 | the default spec is neither thickened nor handle-etched; its thick getters fail, and its offset is 0 |
| BeamSpecs.UnsetNeverPositive | gfelib/datatypes/beam_spec.py:39-45 | an unset pair never resolves to a positive size against a non-negative reference |
| BeamSpecs.NotThickenedResolverFails | gfelib/datatypes/beam_spec.py:39-57 | when `thickened` is false on a real beam, at least one thick getter fails |
| BeamSpecs.ThickenedDoesNotGuaranteeResolution | gfelib/datatypes/beam_spec.py:39-51 | a spec can be thickened while its thick-length getter still fails (negative abs length) |
| BeamSpecs.HandleEtchedIgnoresHandleSizes | gfelib/datatypes/beam_spec.py:62-70 | changing the handle-etch sizes never changes `handle_etched` |
| Sagitta.SagittaOffsetSafe | gfelib/utils/sagitta_offset_safe.py:4-13 | the bound times 4r equals the chord squared; it is non-negative for r > 0 and zero for a zero chord |
| Sagitta.AtMostHalfChord | gfelib/utils/sagitta_offset_safe.py:4-13 | for chords up to the diameter the bound is at most half the chord |
| Sagitta.SquaredOverestimate | gfelib/utils/sagitta_offset_safe.py:4-13 | the square-root-free form of the overestimate: (r - s) squared is at most r squared minus (c/2) squared |
| Sagitta.Overestimates | gfelib/utils/sagitta_offset_safe.py:7 | the documented guarantee: the bound is at least the true sagitta r - sqrt(r squared - (c/2) squared) |
| Sagitta.MonotoneInChord | gfelib/utils/sagitta_offset_safe.py:13 | for a fixed radius, the bound grows with the chord's magnitude |
| Beam.Beam | gfelib/flexure/beam.py:31-65 | one centred rectangle iff there is no thick section, else three contiguous pieces from -length/2 to length/2, with the thick one centred at the offset; every piece on the beam's layer and release |
| Beam.SplitLengths | gfelib/flexure/beam.py:40-65 | the three section lengths add up to the beam length, and the sections abut end to end |
| Beam.PlainBeamIsRectangle | gfelib/flexure/beam.py:31-38 | with zero thick length the beam is exactly one length x width rectangle |
| Beam.CentredSplitIsSymmetric | gfelib/flexure/beam.py:40-65 | with zero offset the two thin sections mirror each other about x = 0 |
| Beam.LargeOffsetNotRejected | gfelib/flexure/beam.py:40-65 | an offset larger than the thin length is accepted and yields a negative-length section |
| BeamCavity.BeamCavity | gfelib/flexure/beam_cavity.py:31-42 | a centred length x width beam; a cavity exists iff a cavity layer is given and the cavity width is non-zero, sized length + offset by the cavity width |
| BeamCavity.ZeroOffsetMatchesBeam | gfelib/flexure/beam_cavity.py:37-42 | with zero length offset the cavity is exactly as long as the beam and centred on it |
| RectangleRing.ReleaseDecision | gfelib/basic/rectangle_ring.py:29-41 | pieces are perforated iff a spec is given, it is released, and both sizes and the band width exceed its hole distance |
| RectangleRing.RectangleRing | gfelib/basic/rectangle_ring.py:29-87 | the loops emit exactly the eight pieces of `Pieces`: four corners, then the x bars, then the y bars |
| RectangleRing.SharedRelease | gfelib/basic/rectangle_ring.py:43-87 | all eight pieces share the layer and the single release decision |
| RectangleRing.PiecesCoverBand | gfelib/basic/rectangle_ring.py:43-87 | every point of the band (outer rectangle minus the open opening) lies in some piece |
| RectangleRing.PiecesWithinBand | gfelib/basic/rectangle_ring.py:43-87 | every point of every piece lies in the band |
| RectangleRing.PiecesDisjoint | gfelib/basic/rectangle_ring.py:43-87 | no two pieces' interiors overlap |
| RectangleRing.CenteringOnlyShifts | gfelib/basic/rectangle_ring.py:43-87 | `centered` moves every piece by (-size_x/2, -size_y/2) and changes nothing else |
| Via.Via | gfelib/basic/via.py:28-38 | one circle per layer; the first has the first radius, the last the last radius, and consecutive radii differ by the constant step |
| Via.LastRadius | gfelib/basic/via.py:28-32 | the step reaches the last radius after n - 1 steps |
| Via.ConsecutiveRadii | gfelib/basic/via.py:33-38 | two consecutive loop radii differ by exactly one step |
| Via.RadiiMonotone | gfelib/basic/via.py:28-38 | the radii move monotonically from the first radius towards the last |
| Parallel.Clamp | gfelib/flexure/parallel.py:53-55 | for a non-negative limit the result lies in [-x_lim, x_lim], and a position already in range is unchanged |
| Parallel.Parallel | gfelib/flexure/parallel.py:36-58 | the bar spans y in [0, bar_width], centred in x; one beam per position, rotated, at the clamped x, carrying the layer, beam spec and release spec; each beam spans y in [bar_width, bar_width + beam_length] with its foot on the bar's top edge, and lies within the bar's x extent when it is no wider than the bar |
| Parallel.ClampIdempotent | gfelib/flexure/parallel.py:53-55 | clamping twice is clamping once |
| Parallel.BeamOnBar | gfelib/flexure/parallel.py:51-58 | when the beam is no wider than the bar, the clamped centre keeps the beam within the bar's x extent for every fractional position |
| Parallel.TooWideBeamTakesUpperLimit | gfelib/flexure/parallel.py:53-55 | a beam wider than the bar always lands at the (negative) upper limit, because the second clamp wins |
| ParallelFlexure.ClampLowerFirst | gfelib/flexure/parallel_flexure.py:51-55 | when the beam fits, the result lies within the bar's limits, and an in-range position is unchanged |
| ParallelFlexure.ParallelFlexure | gfelib/flexure/parallel_flexure.py:35-56 | the bar sits on top of the beams at y = length_beam, centred in x; one beam per position at the clamped x, carrying the layer, beam spec and release spec; every beam spans y in [0, length_beam], so it stands on y = 0 and its top end meets the bar's bottom edge |
| ParallelFlexure.ClampsAgreeWhenBeamFits | gfelib/flexure/parallel_flexure.py:50-56 | when the beam fits, both flexures place every beam at the same x |
| ParallelFlexure.ClampsDisagreeWhenBeamTooWide | gfelib/flexure/parallel_flexure.py:52-55 | for a beam wider than the bar the two if-orders place the beam differently |
| BasicChipBorder.MeshBars | gfelib/basic/chip_border.py:46-62 | four released bars: two horizontal (inner width minus mesh width, by the mesh width) and two vertical (transposed) |
| BasicChipBorder.ChipBorder | gfelib/basic/chip_border.py:31-86 | the frame is chip minus opening; the cavity ring is centred, `width_cavity` wide on each side, and centred on the mesh band's centreline |
| BasicChipBorder.PinwheelCoversBand | gfelib/basic/chip_border.py:59-62 | every point of the mesh band inside the opening lies in one of the four bars |
| BasicChipBorder.PinwheelWithinBand | gfelib/basic/chip_border.py:59-62 | every point of every bar lies in the mesh band |
| BasicChipBorder.PinwheelDisjoint | gfelib/basic/chip_border.py:59-62 | no two bars' interiors overlap |
| DeviceChipBorder.ChipBorder | gfelib/device/chip_border.py:31-48 | the border is the rectangle ring; the cavity ring exists iff a cavity spec is given, is cavity-width wide, unreleased, and on the spec's layer |
| DeviceChipBorder.CentredCavityOnCentreline | gfelib/device/chip_border.py:42-48 | centred, on every side the middle of the cavity wall is the middle of the border wall, at half-extent (W - w)/2 |
| DeviceChipBorder.UncentredRingsShareOrigin | gfelib/device/chip_border.py:42-48 | not centred, both rings start at the origin corner, so the cavity is not on the centreline |
| Ring.NormaliseSpan | gfelib/basic/ring.py:31-33 | a backwards span is wrapped once by 360 and the span is capped at 360; a forward span up to 360 is kept |
| Ring.Pitch | gfelib/basic/ring.py:59-60 | the hole pitch is positive for a well-formed release spec |
| Ring.RowCount | gfelib/basic/ring.py:62 | n - 1 <= width / s < n, the floor-plus-one row count |
| Ring.RowSteps | gfelib/basic/ring.py:63-64 | steps - 1 <= span * r / s < steps, the floor-plus-one hole count of a row |
| Ring.Ring | gfelib/basic/ring.py:31-70 | the band is the arc of the normalised span; no holes under the skip rule, otherwise exactly the row-by-row holes of the spec function |
| Ring.PlaceRows | gfelib/basic/ring.py:62-70 | the outer loop emits the holes of all RowCount rows |
| Ring.PlaceRow | gfelib/basic/ring.py:63-70 | the inner loop emits exactly one row's holes |
| Ring.RowStepsAsWritten | gfelib/basic/ring.py:63 | the step count as the source writes it, `span * pi / 180 * r // s + 1`, equals the model's row step count |
| Ring.SpanPositive | gfelib/basic/ring.py:35-57 | past the skip rule the span is positive |
| Ring.RadialPitchBounds | gfelib/basic/ring.py:62-64 | the radial pitch lies in (0, s) |
| Ring.RowArangeLen | gfelib/basic/ring.py:62-65 | numpy's radius `arange` yields exactly RowCount rows |
| Ring.AngleArangeLen | gfelib/basic/ring.py:63-68 | numpy's angle `arange` yields steps + 1 angles, of which the last is dropped |
| Ring.RowsInsideBand | gfelib/basic/ring.py:62-65 | every row radius lies strictly between the inner and outer radii |
| Ring.ArcPitchBelowPitch | gfelib/basic/ring.py:63-64 | along a row the arc-length pitch is strictly below the release pitch |
| Ring.RowAnglesInside | gfelib/basic/ring.py:65-68 | every hole angle lies strictly inside (0, span) |
| Ring.RowStepsMonotone | gfelib/basic/ring.py:63 | outer rows get at least as many holes as inner rows |
| Ring.RowHolesInside | gfelib/basic/ring.py:65-70 | each hole of a row carries the row radius and the common rotation, at an angle inside the span |
| Ring.HolesInsideBand | gfelib/basic/ring.py:62-70 | every hole lies strictly inside the band's radii and span |
| Polygon.BoxWidth | gfelib/basic/polygon.py:30 | the bounding-box width is non-negative |
| Polygon.BoxHeight | gfelib/basic/polygon.py:30 | the bounding-box height is non-negative |
| Polygon.BoxBoundsX | gfelib/basic/polygon.py:30 | the box's x bounds are the least and greatest x of the points, and both are attained |
| Polygon.BoxBoundsY | gfelib/basic/polygon.py:30 | the box's y bounds are the least and greatest y of the points, and both are attained |
| Polygon.MaxDist | gfelib/basic/polygon.py:37 | the maximum hole spacing is positive for a well-formed spec |
| Polygon.Cells | gfelib/basic/polygon.py:38-39 | every axis gets at least one cell |
| Polygon.Polygon | gfelib/basic/polygon.py:25-49 | an empty shape gives no holes; a degenerate box is an error iff the shape is non-empty with zero width or height; otherwise the holes are the lattice |
| Polygon.PlaceLattice | gfelib/basic/polygon.py:41-49 | the nested loops emit exactly the lattice, row by row |
| Polygon.PlaceLatticeRow | gfelib/basic/polygon.py:42-49 | the inner loop emits exactly one lattice row, in x order |
| Polygon.NearestHole | gfelib/basic/polygon.py:41-49 | every point of the origin-centred box of the bounding box's size has a lattice hole within half a step on each axis |
| Polygon.WithinReach | gfelib/basic/polygon.py:37-39 | offsets of at most half a step on both axes, with steps at most max_dist, stay within hole_radius + distance |
| Polygon.CellArangeLen | gfelib/basic/polygon.py:41-44 | numpy's `arange(step/2, extent, step)` yields exactly Cells values |
| Polygon.StepAtMostMaxDist | gfelib/basic/polygon.py:38-39 | the realised step lies in (0, max_dist] |
| Polygon.LatticeSize | gfelib/basic/polygon.py:41-49 | the lattice has Cells(w) * Cells(h) holes |
| Polygon.CentreInside | gfelib/basic/polygon.py:41-49 | every cell centre lies strictly inside the extent, centred on the origin |
| Polygon.LatticeInsideBox | gfelib/basic/polygon.py:41-49 | every hole lies strictly inside the origin-centred box of the bounding box's size |
| Polygon.LatticeHasCell | gfelib/basic/polygon.py:41-49 | every (x cell, y cell) pair is in the lattice |
| Polygon.AxisCover | gfelib/basic/polygon.py:41-44 | every coordinate of the extent is within half a step of some cell centre |
| Polygon.LatticeCoversBox | gfelib/basic/polygon.py:37-49 | every point of the origin-centred box of the bounding box's size is within hole_radius + distance of some hole centre, that is, within the release distance of that hole's edge |
| Polygon.MaxDistSquare | gfelib/basic/polygon.py:37 | the maximum spacing squared is twice the square-cell side squared |
| Polygon.TranslateBounds | gfelib/basic/polygon.py:30 | translating the points translates the box bounds |
| Polygon.TranslationInvariant | gfelib/basic/polygon.py:30-49 | the hole lattice depends only on the box size, not on where the shape sits |
| Polygon.OffsetSquareHolesOutside | gfelib/basic/polygon.py:41-49 | a unit square with its corner at (10, 10) gets holes, and every one of them lies outside the square |
| Butterfly.Butterfly | gfelib/flexure/butterfly.py:43-71 | the carriage is the ring over [angle_start, 180 - angle_start]; one beam, placed four times at the sorted angles and their mirror images |
| Butterfly.BeamAnglesMirrored | gfelib/flexure/butterfly.py:43-69 | the four beam angles pair up symmetrically about 90 degrees, and the first two are sorted |
| Butterfly.CarriageMargin | gfelib/flexure/butterfly.py:45-47 | the carriage reaches past the first beam angle by exactly half a beam width of arc at radius Ri + wi |
| Butterfly.CarriageSymmetric | gfelib/flexure/butterfly.py:49-57 | the carriage span is symmetric about 90 degrees |
| Butterfly.BeamsOnCarriage | gfelib/flexure/butterfly.py:45-71 | for angles not past their mirror images, every beam angle lies inside the carriage span |
| Butterfly.BeamRadialSpan | gfelib/flexure/butterfly.py:59-71 | each beam runs from inside the carriage, at Ri + wi - wb/4, out to Ro + wb/4 |
| Zpant.Zpant | gfelib/flexure/zpant.py:43-82 | a centred stage, released or solid; a handle block iff there is no release and a handle layer is given; one beam-cavity centred in each quadrant |
| Zpant.OneBeamPerQuadrant | gfelib/flexure/zpant.py:70-82 | with positive sizes the four beam centres lie one per quadrant, and the other three are mirror images of the first |
| Zpant.BeamsFlushWithStage | gfelib/flexure/zpant.py:70-82 | each beam's inner end touches the stage's side, and its outer y-edge is flush with the stage's top or bottom edge |
| Zlever.Zlever | gfelib/mega/zlever.py:49-142 | fails iff the stoppers are active and the spec is missing or too narrow; otherwise an unperforated zpant, the separator strip, and, with stoppers, two mirrored stoppers, two isolation rings and the "in" mesh blocks |
| Zlever.MirrorInvolutive | gfelib/mega/zlever.py:131 | mirroring a region twice gives it back |
| Zlever.StoppersMirrored | gfelib/mega/zlever.py:72-96 | the two stoppers are mirror images whose inner edges touch the stage at abs(x) = ws/2 |
| Zlever.IsolationSurroundsStopper | gfelib/mega/zlever.py:103-131 | the ring's hole spans [iso_left, iso_right] at the stopper's height, the trench is separator_gap wide on every side, and the stopper lies in the hole |
| Zlever.InMeshMeetsStopper | gfelib/mega/zlever.py:133-142 | the "in" mesh fills [iso_left, ws/2] and meets the stopper at the stage edge |
| Zlever.StopperPosNotValidated | gfelib/mega/zlever.py:71-77 | a stopper position that puts the stoppers outside the stage is still accepted |
| Numeric.RangeLen | gfelib/actuator/comb.py:53 | `range(n)` iterates n times for n >= 0 and never for n < 0 |
| Comb.Comb | gfelib/actuator/comb.py:49-61 | comb_count + 1 fingers, finger i at pitch i, raised by the clearance when i is odd |
| Comb.FingerPitch | gfelib/actuator/comb.py:53-61 | neighbouring fingers are comb_gap apart and comb_width wide |
| Comb.FingersAlternate | gfelib/actuator/comb.py:49-61 | even fingers stand on y = 0; odd fingers end at y = comb_height |
| Comb.NeighboursOverlap | gfelib/actuator/comb.py:49-61 | for an overlap within [0, height], neighbours share exactly comb_overlap in y and stay inside [0, height] |
| Comb.CombExtent | gfelib/actuator/comb.py:53-61 | the comb spans (count + 1) * width + count * gap in x, starting at x = 0 |
| AngularComb.AngularComb | gfelib/actuator/acomb.py:54-85 | the span error comes first, then the finger-width error, and success happens iff both are positive; otherwise comb_count + 1 arc fingers |
| AngularComb.FingersFillBand | gfelib/actuator/acomb.py:61-85 | the first finger starts at radius_inner and the last ends at radius_outer |
| AngularComb.RadialGap | gfelib/actuator/acomb.py:73-85 | neighbouring fingers are exactly comb_gap apart radially |
| AngularComb.AngularOverlap | gfelib/actuator/acomb.py:54-85 | even fingers start at the low angle and odd ones end at the high angle; they overlap by exactly the overlap angle, symmetrically about the middle |
| AngularComb.AnglesUnordered | gfelib/actuator/acomb.py:54-58 | swapping the two angles changes neither the span nor any finger |
| RotatorGear.Roles | gfelib/actuator/rotator_gear.py:67-76 | inner_rotor picks which carriage is the rotor; otherwise the two swap |
| RotatorGear.StatorBanks | gfelib/actuator/rotator_gear.py:55-64 | the accumulator loops put tooth j of bank k at (k * count + j) pitches plus the bank phase; the final offset is the total pitch count |
| RotatorGear.RotorTeeth | gfelib/actuator/rotator_gear.py:94-105 | two teeth per arange step, at +/-(p/2 + k p) |
| RotatorGear.PlaceStators | gfelib/actuator/rotator_gear.py:107-126 | fails iff some bank is empty; otherwise one stator ring per bank, spanning its first to last tooth, and the shifted teeth |
| RotatorGear.Stators | gfelib/actuator/rotator_gear.py:55-126 | the banks and teeth in terms of BankAngle and StatorOffset; fails iff the tooth count is 0 and there is a bank |
| RotatorGear.RotatorGear | gfelib/actuator/rotator_gear.py:50-126 | the rotor ring is centred at rotation 0 with the release spec; the rotor teeth, stator rings and stator teeth are those of the three helpers |
| RotatorGear.BanksLaidEndToEnd | gfelib/actuator/rotator_gear.py:55-64 | teeth within a bank are one pitch apart, and, phases aside, bank k + 1 starts teeth_count pitches after bank k |
| RotatorGear.StatorOnRotorGrid | gfelib/actuator/rotator_gear.py:55-65 | with an even total, every shifted stator tooth sits on the rotor's half-pitch grid plus its phase |
| RotatorGear.StatorSymmetric | gfelib/actuator/rotator_gear.py:55-65 | with zero phases, the first and last stator teeth are mirror images |
| RotatorGear.RotorTeethInsideArc | gfelib/actuator/rotator_gear.py:94-105 | every positive rotor tooth angle lies in (0, span/2 - p/2) |
| RotatorGear.TeethInterleave | gfelib/actuator/rotator_gear.py:50-82 | each tooth is embedded 0.15 of its size in its carriage, and the tip clearance is the gap plus 0.1 of the tooth size |
| ZCantilever.ZCantileverBeam.GetPosition | gfelib/flexure/z_cantilever.py:36-42 | succeeds iff the resolved position lies in [0, length - width], and reports a negative position first |
| ZCantilever.ZCantileverBeam.Insetted | gfelib/flexure/z_cantilever.py:44-50 | true iff neither inset size is unset |
| ZCantilever.ZCantileverBeam.GetInsetX | gfelib/flexure/z_cantilever.py:52-56 | fails iff the resolved inset x is not positive |
| ZCantilever.ZCantileverBeam.GetInsetY | gfelib/flexure/z_cantilever.py:58-62 | fails iff the resolved inset y is not positive |
| ZCantilever.ZCantileverBeam.Isolated | gfelib/flexure/z_cantilever.py:64-70 | true iff neither isolation size is unset |
| ZCantilever.ZCantileverBeam.GetIsolationX | gfelib/flexure/z_cantilever.py:72-76 | fails iff the resolved isolation x is not positive |
| ZCantilever.ZCantileverBeam.GetIsolationY | gfelib/flexure/z_cantilever.py:78-82 | fails iff the resolved isolation y is not positive |
| ZCantilever.Interval | gfelib/flexure/z_cantilever.py:120-126 | the notch interval is clamped to [0, length]; unclamped, it is centred on the beam with the requested size |
| ZCantilever.Cut | gfelib/flexure/z_cantilever.py:113-184 | a cut succeeds iff the sizes its flags require are valid; by definition, isolation cuts a clearance-wide trench around the isolation region, and inset removes the inset notch |
| ZCantilever.FirstPositionError | gfelib/flexure/z_cantilever.py:111 | no error iff every beam's position is valid |
| ZCantilever.CheckPositions | gfelib/flexure/z_cantilever.py:111 | the loop returns the first position error of the beams, in order |
| ZCantilever.SortByPosition | gfelib/flexure/z_cantilever.py:111 | the array ends sorted by position and is a permutation of the input |
| ZCantilever.CutAll | gfelib/flexure/z_cantilever.py:113-184 | the cut loop returns exactly the fold of Cut over the sorted beams |
| ZCantilever.PlaceBeams | gfelib/flexure/z_cantilever.py:186-203 | given sizes the cut loop has already validated, one placement per beam, in array order, each the beam's Placement |
| ZCantilever.ZCantileverHalf | gfelib/flexure/z_cantilever.py:103-209 | on a position error, that error and an untouched array; otherwise the beams sorted as a permutation, and the result is the spec function Build |
| ZCantilever.Build | gfelib/flexure/z_cantilever.py:103-209 | a successful build has one placed beam per input beam |
| ZCantilever.CutsStopAtError | gfelib/flexure/z_cantilever.py:113-184 | once a cut fails, the fold keeps that error |
| ZCantilever.CutsOkIff | gfelib/flexure/z_cantilever.py:113-184 | the cut loop succeeds iff every beam's sizes are valid |
| ZCantilever.BeamWithinCantilever | gfelib/flexure/z_cantilever.py:36-42 | a valid position keeps the beam's centre at least half a beam width inside both ends of the cantilever |
| ZCantilever.NotchShape | gfelib/flexure/z_cantilever.py:120-134 | the notch's top is at W/2 and its bottom y_size below; it lies within [0, L], centred with width x_size when unclamped |
| ZCantilever.NotchCoversBeam | gfelib/flexure/z_cantilever.py:120-126 | for a beam at a valid position, the notch's x interval contains the beam's centre |
| ZCantilever.BaseSpan | gfelib/flexure/z_cantilever.py:103-109 | the base spans [0, length] in x, and in y from 0 (or half the clearance with a middle split) up to W/2 |
| ZCantilever.BeamHangsFromNotchFloor | gfelib/flexure/z_cantilever.py:186-203 | the beam sits at its centre; a plain beam starts at the top edge W/2, and an inset beam starts at the floor of its notch |

## Left out

- The gdsfactory kernel is not part of this model: polygon booleans,
  `flatten`, offsets and layer copying stay abstract `Region` terms,
  and `gl.basic.rectangle` and `gl.basic.circle` are placements whose internals are not modelled.
- Trigonometry, `np.pi` and `sqrt(2)` are not computed. pi and sqrt(2)
  are parameters with their defining facts, and ring holes stay in polar
  form as (radius, angle, rotation).
- Floating-point rounding is not modelled; all arithmetic is exact real
  arithmetic. numpy `arange` is modelled with its exact length,
  `max(0, ceil((stop - start) / step))`. Rotator gear's add-then-subtract
  of the bank phase is exact in the model.
- The `default_cell`/`gf.cell` caching decorators, pydantic validation
  and component naming are left out; they do not change geometry.
- `ReleaseSpec` is an abstract record `{hole_radius, distance,
  released}`. Its invariant 0 <= hole_radius < distance is required where
  the source divides by the pitch.
- Ring.Ring: requires radius_inner >= 0 and a well-formed release spec.
- Polygon.Polygon: requires hole_radius + distance > 0. An empty point
  list stands for the falsy shape.
- RotatorGear.RotatorGear: requires radius_inner + width_inner != 0 and
  teeth_pitch != 0, where the source divides by zero or numpy raises.
  `teeth_count` is a natural number.
- AngularComb.AngularComb: requires comb_count != -1, where the source
  divides by zero.
- Butterfly.Butterfly: requires radius_inner + width_inner != 0, where
  the source divides by zero (gfelib/flexure/butterfly.py:45-47); so do
  its helpers Butterfly.AngleStart and Butterfly.Carriage.
- Sagitta.SagittaOffsetSafe: requires radius != 0, where the source
  divides by zero.
- Polygon.Polygon: places the release-hole lattice over the origin-centred
  box of the bounding box's size, as the source does
  (gfelib/basic/polygon.py:44-49). The holes ignore where the shape sits,
  so a shape away from the origin gets holes outside itself; see
  Polygon.OffsetSquareHolesOutside.
- Zlever.Zlever: the final `A-B` boolean on the device layer and the
  re-emission of the other layers (gfelib/mega/zlever.py:144-156) are left
  to the layout kernel. The model returns the built pieces and the cut
  regions instead.
- ZCantilever.SortByPosition: proves sorted and permutation but not the
  stability of Python's sort.
- ZCantilever.ZCantileverHalf: inherits the sort's contract, so the order
  of beams with equal positions is not stated.
- ZCantilever.PlaceBeams: requires valid sizes. The source reads
  `get_inset_y` a second time without a check; the first loop already
  succeeded on the same beams.
- Several calls pass keyword arguments that the callee does not declare,
  and raise `TypeError` as written. `gl.basic.ring`
  (gfelib/basic/ring.py:11-18) takes `radius_inner`/`radius_outer`, but is
  called with `radius`/`width` at gfelib/actuator/rotator_gear.py:85-92 and
  109-119 and gfelib/flexure/butterfly.py:49-51. `gl.flexure.beam`
  (gfelib/flexure/beam.py:9-17) has no `beam_spec` parameter, but gets one
  at gfelib/flexure/z_cantilever.py:190-196, gfelib/flexure/parallel.py:44-50
  and gfelib/flexure/parallel_flexure.py:43-49. The model does not model
  that error. It assumes the callee signatures these callers were written
  against, and keeps the calls as `ArcRef`/carriage/beam records.
- The code and its design documentation disagree in several places. The
  model follows the code in each:
  - `zlever` does not range-check `stopper_pos`;
  - the "in" mesh extent uses `iso_left`;
  - a stator bank starts at phase * pitch / 360;
  - `comb`'s overlap is in y, not x;
  - neither `comb` (gfelib/actuator/comb.py:46-63) nor `rotator_gear`
    (gfelib/actuator/rotator_gear.py:48-129) rejects a non-positive
    finger or tooth width or span, so `Comb.Comb` has no error path and
    `RotatorGear.RotatorGear` fails only on an empty tooth bank;
  - `butterfly` lengthens its beams by a fixed `0.5 * width_beam`
    (gfelib/flexure/butterfly.py:59-67) and never calls
    `sagitta_offset_safe`, whose bound is only `chord**2 / (4 * radius)`
    (gfelib/utils/sagitta_offset_safe.py:13), without an angular
    resolution term;
  - `polygon`'s docstring (gfelib/basic/polygon.py:21) calls
    `release_distance` the maximum distance between adjacent holes, but
    the realised step can reach sqrt(2) * (hole_radius + distance)
    (gfelib/basic/polygon.py:37-39); `Polygon.StepAtMostMaxDist` states
    the bound the code keeps.
