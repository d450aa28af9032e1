/** Plain records for the output of the generators: the geometry kernel itself
    (polygons, boolean algebra, transforms) is abstracted, so a generator's
    output is a list of rectangles, arcs, circles, holes and instance
    placements, and a boolean combination is kept as an uninterpreted term. */
module Geometry {

  datatype Option<+T> = None | Some(value: T)

  /** Why a generator raised instead of returning a component. */
  datatype Error =
    | ThickLengthNotPositive        // BeamSpec.get_thick_length
    | ThickWidthNotPositive         // BeamSpec.get_thick_width
    | HandleEtchLengthNotPositive   // BeamSpec.get_handle_etch_length
    | HandleEtchWidthNotPositive    // BeamSpec.get_handle_etch_width
    | PositionNegative              // ZCantileverBeam.get_position, x < 0
    | PositionPastEnd               // ZCantileverBeam.get_position, x > length - width
    | InsetXNotPositive
    | InsetYNotPositive
    | IsolationXNotPositive
    | IsolationYNotPositive
    | DegenerateBoundingBox         // a zero-size bounding box makes numpy's arange fail
    | StopperSpecMissing            // zlever dereferences a missing release spec
    | StopperTooNarrow              // zlever's assertion on the stopper width
    | AngularSpanNotPositive        // angular_comb
    | FingerWidthNotPositive        // angular_comb
    | EmptyToothBank                // rotator_gear indexes the first tooth of an empty bank

  datatype Result<+T> = Ok(value: T) | Err(error: Error)

  /** Python's `sorted` on a pair of angles. */
  function Sorted(angles: (real, real)): (s: (real, real))
    ensures s.0 <= s.1
    ensures (s.0 == angles.0 && s.1 == angles.1) || (s.0 == angles.1 && s.1 == angles.0)
  {
    if angles.1 < angles.0 then (angles.1, angles.0) else angles
  }

  /** A GDS layer: a (layer, datatype) pair. Such a tuple is always truthy. */
  datatype Layer = Layer(gds: int, purpose: int)

  /** The release-hole specification as the generators use it. */
  datatype ReleaseSpec = ReleaseSpec(hole_radius: real, distance: real, released: bool)

  /** The documented invariant of a release specification. */
  predicate WellFormed(rs: ReleaseSpec)
  {
    0.0 <= rs.hole_radius < rs.distance
  }

  /** An axis-aligned rectangle given by its south-west corner and its size. */
  datatype Rect = Rect(x: real, y: real, w: real, h: real) {
    function Left(): real { x }
    function Right(): real { x + w }
    function Bottom(): real { y }
    function Top(): real { y + h }
    function CX(): real { x + w / 2.0 }
    function CY(): real { y + h / 2.0 }

    /** The same rectangle moved by (dx, dy). */
    function Moved(dx: real, dy: real): (r: Rect)
      ensures r.w == w && r.h == h
      ensures r.Left() == Left() + dx && r.Bottom() == Bottom() + dy
    {
      Rect(x + dx, y + dy, w, h)
    }

    /** Closed membership of a point. */
    predicate Contains(px: real, py: real)
    {
      x <= px <= x + w && y <= py <= y + h
    }

    /** Membership of a point in the open interior. */
    predicate InInterior(px: real, py: real)
    {
      x < px < x + w && y < py < y + h
    }
  }

  /** A rectangle of size (w, h) centred on (cx, cy) (the kernel's `centered=True`). */
  function Centred(cx: real, cy: real, w: real, h: real): (r: Rect)
    ensures r.CX() == cx && r.CY() == cy && r.w == w && r.h == h
  {
    Rect(cx - w / 2.0, cy - h / 2.0, w, h)
  }

  /** A rectangle drawn on a layer, perforated by the release tiler when
      `release` is present (the perforating rectangle itself is not modelled further). */
  datatype Block = Block(rect: Rect, layer: Layer, release: Option<ReleaseSpec>)

  /** A region built by the kernel's boolean algebra, kept as a term. */
  datatype Region =
    | Box(rect: Rect)
    | Minus(a: Region, b: Region)     // boolean "A-B"
    | Join(a: Region, b: Region)      // boolean "|"
    | Grown(inner: Region, distance: real)      // outward offset by a distance

  /** Two rectangles whose interiors do not meet. */
  predicate InteriorsDisjoint(a: Rect, b: Rect)
  {
    a.Right() <= b.Left() || b.Right() <= a.Left() || a.Top() <= b.Bottom() || b.Top() <= a.Bottom()
  }
}
