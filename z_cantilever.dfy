/** `z_cantilever_half`: one half of a Z cantilever. A base rectangle of the
    cantilever's length, from `y_offset` up to the centreline `width / 2`,
    has each beam's isolation trench and inset notch cut into its top edge
    (beams taken in order of position), then a vertical beam is hung at
    each position and a handle rectangle is added. */
module ZCantilever {
  import opened Geometry
  import opened BeamSpecs

  /** The frozen `ZCantileverBeam` record; the x-pairs resolve against the
      cantilever's length and the y-pairs against its width. */
  datatype ZCantileverBeam = ZCantileverBeam(
    length: real,
    width: real,
    position: Dim,
    inset_x: Dim,
    inset_y: Dim,
    isolation_x: Dim,
    isolation_y: Dim,
    spec: Option<BeamSpec>)
  {
    function GetPosition(cantilever_length: real): (r: Result<real>)
      ensures r.Ok? <==> 0.0 <= position.Resolve(cantilever_length) <= cantilever_length - width
      ensures r.Ok? ==> r.value == position.Resolve(cantilever_length)
      // a negative position is reported first, even when it is also past the end
      ensures position.Resolve(cantilever_length) < 0.0 ==> r == Err(PositionNegative)
      ensures 0.0 <= position.Resolve(cantilever_length) && position.Resolve(cantilever_length) > cantilever_length - width
              ==> r == Err(PositionPastEnd)
    {
      var x := position.abs + position.rel * cantilever_length;
      if x < 0.0 then Err(PositionNegative)
      else if x > cantilever_length - width then Err(PositionPastEnd)
      else Ok(x)
    }

    /** `insetted`: false as soon as either inset pair is unset. */
    predicate Insetted()
      ensures Insetted() <==> !inset_x.Unset() && !inset_y.Unset()
    {
      if inset_x.abs == 0.0 && inset_x.rel <= 0.0 then false
      else if inset_y.abs == 0.0 && inset_y.rel <= 0.0 then false
      else true
    }

    function GetInsetX(cantilever_length: real): (r: Result<real>)
      ensures r.Ok? <==> inset_x.Resolve(cantilever_length) > 0.0
      ensures r.Ok? ==> r.value == inset_x.Resolve(cantilever_length)
      ensures r.Err? ==> r.error == InsetXNotPositive
    {
      var x := inset_x.abs + inset_x.rel * cantilever_length;
      if x <= 0.0 then Err(InsetXNotPositive) else Ok(x)
    }

    function GetInsetY(cantilever_width: real): (r: Result<real>)
      ensures r.Ok? <==> inset_y.Resolve(cantilever_width) > 0.0
      ensures r.Ok? ==> r.value == inset_y.Resolve(cantilever_width)
      ensures r.Err? ==> r.error == InsetYNotPositive
    {
      var x := inset_y.abs + inset_y.rel * cantilever_width;
      if x <= 0.0 then Err(InsetYNotPositive) else Ok(x)
    }

    /** `isolated`: false as soon as either isolation pair is unset. */
    predicate Isolated()
      ensures Isolated() <==> !isolation_x.Unset() && !isolation_y.Unset()
    {
      if isolation_x.abs == 0.0 && isolation_x.rel <= 0.0 then false
      else if isolation_y.abs == 0.0 && isolation_y.rel <= 0.0 then false
      else true
    }

    function GetIsolationX(cantilever_length: real): (r: Result<real>)
      ensures r.Ok? <==> isolation_x.Resolve(cantilever_length) > 0.0
      ensures r.Ok? ==> r.value == isolation_x.Resolve(cantilever_length)
      ensures r.Err? ==> r.error == IsolationXNotPositive
    {
      var x := isolation_x.abs + isolation_x.rel * cantilever_length;
      if x <= 0.0 then Err(IsolationXNotPositive) else Ok(x)
    }

    function GetIsolationY(cantilever_width: real): (r: Result<real>)
      ensures r.Ok? <==> isolation_y.Resolve(cantilever_width) > 0.0
      ensures r.Ok? ==> r.value == isolation_y.Resolve(cantilever_width)
      ensures r.Err? ==> r.error == IsolationYNotPositive
    {
      var x := isolation_y.abs + isolation_y.rel * cantilever_width;
      if x <= 0.0 then Err(IsolationYNotPositive) else Ok(x)
    }
  }

  /** The sort key: the resolved position. */
  function Key(b: ZCantileverBeam, cantilever_length: real): real
  {
    b.position.Resolve(cantilever_length)
  }

  /** A `beam` instance (length along x, centred on the origin), rotated
      90 degrees and then moved so that its centre is `(x, y)`. */
  datatype BeamPlacement = BeamPlacement(length: real, width: real, spec: Option<BeamSpec>,
                                         release: Option<ReleaseSpec>, x: real, y: real)

  datatype ZCantileverOut = ZCantileverOut(body: Region, beams: seq<BeamPlacement>, handle: Rect,
                                           handle_layer: Option<Layer>, geometry_layer: Layer)

  /** The base rectangle starts half the clearance above the centre line
      when the cantilever is split down the middle. */
  function YOffset(clearance: real, middle_split: bool): real
  {
    if middle_split then 0.5 * clearance else 0.0
  }

  function Base(length: real, width: real, clearance: real, middle_split: bool): Rect
  {
    var y_offset := YOffset(clearance, middle_split);
    Rect(0.0, 0.0, length, 0.5 * width - y_offset).Moved(0.0, y_offset)
  }

  /** An x-interval of size `size` centred on `centre`, clamped to
      `[0, length]`. */
  function Interval(centre: real, size: real, length: real): (iv: (real, real))
    ensures iv.0 >= 0.0 && iv.0 >= centre - 0.5 * size
    ensures iv.0 == 0.0 || iv.0 == centre - 0.5 * size
    ensures iv.1 <= length && iv.1 <= centre + 0.5 * size
    ensures iv.1 == length || iv.1 == centre + 0.5 * size
  {
    var s := centre - 0.5 * size;
    var e := centre + 0.5 * size;
    (if s < 0.0 then 0.0 else s, if e > length then length else e)
  }

  /** The isolation or inset region of a beam: its clamped x-interval,
      reaching `y_size` down from the cantilever's top edge `width / 2`. */
  function Notch(centre: real, x_size: real, y_size: real, length: real, width: real): Rect
  {
    var iv := Interval(centre, x_size, length);
    Rect(0.0, 0.0, iv.1 - iv.0, y_size).Moved(iv.0, 0.5 * width - y_size)
  }

  /** The x-centre of a beam at its (unchecked) position. */
  function BeamCentre(b: ZCantileverBeam, length: real): real
  {
    Key(b, length) + 0.5 * b.width
  }

  /** Whether every size the beam's enabled regions need is positive. */
  predicate SizesValid(b: ZCantileverBeam, length: real, width: real)
  {
    && (b.Isolated() ==> b.isolation_x.Resolve(length) > 0.0 && b.isolation_y.Resolve(width) > 0.0)
    && (b.Insetted() ==> b.inset_x.Resolve(length) > 0.0 && b.inset_y.Resolve(width) > 0.0)
  }

  /** One beam's cuts: the isolation region is removed with `clearance` of
      margin and then put back, leaving a trench around it; the inset
      region is removed. */
  function Cut(c: Region, b: ZCantileverBeam, length: real, width: real, clearance: real): (r: Result<Region>)
    ensures r.Ok? <==> SizesValid(b, length, width)
  {
    var centre := BeamCentre(b, length);
    var isolated :=
      if !b.Isolated() then Ok(c)
      else match b.GetIsolationX(length)
        case Err(e) => Err(e)
        case Ok(isolation_x) =>
          match b.GetIsolationY(width)
          case Err(e) => Err(e)
          case Ok(isolation_y) =>
            var region := Box(Notch(centre, isolation_x, isolation_y, length, width));
            Ok(Join(Minus(c, Grown(region, clearance)), region));
    match isolated
    case Err(e) => Err(e)
    case Ok(c1) =>
      if !b.Insetted() then Ok(c1)
      else match b.GetInsetX(length)
        case Err(e) => Err(e)
        case Ok(inset_x) =>
          match b.GetInsetY(width)
          case Err(e) => Err(e)
          case Ok(inset_y) => Ok(Minus(c1, Box(Notch(centre, inset_x, inset_y, length, width))))
  }

  /** The cuts of all beams in order, starting from `c0`; the first beam
      whose sizes are invalid stops the construction. */
  function Cuts(c0: Region, bs: seq<ZCantileverBeam>, length: real, width: real, clearance: real): Result<Region>
  {
    if bs == [] then Ok(c0)
    else match Cuts(c0, bs[..|bs| - 1], length, width, clearance)
      case Err(e) => Err(e)
      case Ok(c) => Cut(c, bs[|bs| - 1], length, width, clearance)
  }

  /** How deep the beam's top end sits below the top edge. */
  function InsetDepth(b: ZCantileverBeam, width: real): real
  {
    if b.Insetted() then b.inset_y.Resolve(width) else 0.0
  }

  function Placement(b: ZCantileverBeam, length: real, width: real, release_spec: Option<ReleaseSpec>): BeamPlacement
  {
    BeamPlacement(b.length, b.width, b.spec, release_spec, 0.5 * b.width + Key(b, length),
                  0.5 * width + 0.5 * b.length - InsetDepth(b, width))
  }

  /** The component built from beams already in their final order. */
  function Build(bs: seq<ZCantileverBeam>, length: real, width: real, clearance: real, middle_split: bool,
                 geometry_layer: Layer, handle_layer: Option<Layer>, release_spec: Option<ReleaseSpec>)
    : (r: Result<ZCantileverOut>)
    ensures r.Ok? ==> |r.value.beams| == |bs|
  {
    match Cuts(Box(Base(length, width, clearance, middle_split)), bs, length, width, clearance)
    case Err(e) => Err(e)
    case Ok(body) =>
      Ok(ZCantileverOut(body, seq(|bs|, i requires 0 <= i < |bs| => Placement(bs[i], length, width, release_spec)),
                        Rect(0.0, 0.0, length, 0.5 * width), handle_layer, geometry_layer))
  }

  /** The error of the first beam whose position is invalid, in list order:
      every sort key is computed before anything is moved. */
  function FirstPositionError(bs: seq<ZCantileverBeam>, length: real): (r: Option<Error>)
    ensures r.None? <==> forall i :: 0 <= i < |bs| ==> bs[i].GetPosition(length).Ok?
  {
    if bs == [] then None
    else match bs[0].GetPosition(length)
      case Err(e) => Some(e)
      case Ok(_) =>
        var rest := FirstPositionError(bs[1..], length);
        assert forall i :: 1 <= i < |bs| ==> bs[i] == bs[1..][i - 1];
        rest
  }

  predicate SortedByPosition(bs: seq<ZCantileverBeam>, length: real)
  {
    forall i, j :: 0 <= i < j < |bs| ==> Key(bs[i], length) <= Key(bs[j], length)
  }

  /** Skipping a prefix of valid beams does not change the first error. */
  lemma {:induction false} FirstPositionErrorSkip(bs: seq<ZCantileverBeam>, length: real, i: nat)
    requires i <= |bs|
    requires forall j :: 0 <= j < i ==> bs[j].GetPosition(length).Ok?
    ensures FirstPositionError(bs, length) == FirstPositionError(bs[i..], length)
  {
    if i > 0 {
      assert bs[1..][i - 1..] == bs[i..];
      FirstPositionErrorSkip(bs[1..], length, i - 1);
    }
  }

  /** Compute every sort key in order; report the first failure. */
  method CheckPositions(beams: array<ZCantileverBeam>, length: real) returns (err: Option<Error>)
    ensures err == FirstPositionError(beams[..], length)
  {
    for i := 0 to beams.Length
      invariant forall j :: 0 <= j < i ==> beams[j].GetPosition(length).Ok?
    {
      var p := beams[i].GetPosition(length);
      if p.Err? {
        FirstPositionErrorSkip(beams[..], length, i);
        assert beams[..][i..][0] == beams[i];
        return Some(p.error);
      }
    }
    FirstPositionErrorSkip(beams[..], length, beams.Length);
    return None;
  }

  /** `beams.sort(key=get_position)` on an array whose keys are all valid:
      stable insertion, each beam moved down past strictly larger keys. */
  method SortByPosition(beams: array<ZCantileverBeam>, length: real)
    modifies beams
    ensures SortedByPosition(beams[..], length)
    ensures multiset(beams[..]) == multiset(old(beams[..]))
  {
    for i := 0 to beams.Length
      invariant SortedByPosition(beams[..i], length)
      invariant multiset(beams[..]) == multiset(old(beams[..]))
    {
      InsertDown(beams, i, length);
    }
    assert beams[..] == beams[..beams.Length];
  }

  /** `s[..i + 1]` is in order except possibly at the beam being moved,
      which sits at `j`. */
  predicate SortedExcept(s: seq<ZCantileverBeam>, i: nat, j: nat, length: real)
    requires i < |s|
  {
    forall p, q :: 0 <= p < q <= i && q != j ==> Key(s[p], length) <= Key(s[q], length)
  }

  lemma StartInsert(s: seq<ZCantileverBeam>, i: nat, length: real)
    requires i < |s| && SortedByPosition(s[..i], length)
    ensures SortedExcept(s, i, i, length)
  {
    forall p, q | 0 <= p < q <= i && q != i
      ensures Key(s[p], length) <= Key(s[q], length)
    {
      assert s[p] == s[..i][p] && s[q] == s[..i][q];
    }
  }

  /** Swapping the moved beam with a larger left neighbour keeps the rest
      in order. */
  lemma SwapDown(s: seq<ZCantileverBeam>, i: nat, j: nat, length: real)
    requires 0 < j <= i < |s| && SortedExcept(s, i, j, length)
    requires Key(s[j - 1], length) > Key(s[j], length)
    ensures SortedExcept(s[j - 1 := s[j]][j := s[j - 1]], i, j - 1, length)
  {
    var t := s[j - 1 := s[j]][j := s[j - 1]];
    forall p, q | 0 <= p < q <= i && q != j - 1
      ensures Key(t[p], length) <= Key(t[q], length)
    {
      if q == j {
        if p < j - 1 {
          assert Key(s[p], length) <= Key(s[j - 1], length);
        }
      } else if p == j {
        assert Key(s[j - 1], length) <= Key(s[q], length);
      } else if p == j - 1 {
        assert Key(s[j], length) <= Key(s[q], length);
      }
    }
  }

  lemma FinishInsert(s: seq<ZCantileverBeam>, i: nat, j: nat, length: real)
    requires j <= i < |s| && SortedExcept(s, i, j, length)
    requires j > 0 ==> Key(s[j - 1], length) <= Key(s[j], length)
    ensures SortedByPosition(s[..i + 1], length)
  {
    var t := s[..i + 1];
    forall p, q | 0 <= p < q < |t|
      ensures Key(t[p], length) <= Key(t[q], length)
    {
      if q == j && p < j - 1 {
        assert Key(s[p], length) <= Key(s[j - 1], length);
      }
    }
  }

  /** One insertion step: with `beams[..i]` sorted, swap `beams[i]` down
      until `beams[..i + 1]` is sorted. */
  method InsertDown(beams: array<ZCantileverBeam>, i: nat, length: real)
    requires i < beams.Length && SortedByPosition(beams[..i], length)
    modifies beams
    ensures SortedByPosition(beams[..i + 1], length)
    ensures multiset(beams[..]) == multiset(old(beams[..]))
  {
    StartInsert(beams[..], i, length);
    var j := i;
    while j > 0 && Key(beams[j - 1], length) > Key(beams[j], length)
      invariant 0 <= j <= i
      invariant multiset(beams[..]) == multiset(old(beams[..]))
      invariant SortedExcept(beams[..], i, j, length)
    {
      SwapDown(beams[..], i, j, length);
      beams[j - 1], beams[j] := beams[j], beams[j - 1];
      j := j - 1;
    }
    FinishInsert(beams[..], i, j, length);
  }

  /** The first loop: every beam's cuts, in array order. */
  method CutAll(beams: array<ZCantileverBeam>, base: Region, length: real, width: real, clearance: real)
    returns (r: Result<Region>)
    ensures r == Cuts(base, beams[..], length, width, clearance)
  {
    var c := base;
    for i := 0 to beams.Length
      invariant Cuts(base, beams[..i], length, width, clearance) == Ok(c)
    {
      var beam := beams[i];
      assert beams[..i + 1][..i] == beams[..i];
      var position := Key(beam, length);
      var centre := position + 0.5 * beam.width;
      if beam.Isolated() {
        var isolation_x := beam.GetIsolationX(length);
        if isolation_x.Err? {
          assert beams[..] == beams[..beams.Length];
          CutsStopAtError(base, beams[..], i + 1, length, width, clearance);
          return Err(isolation_x.error);
        }
        var isolation_y := beam.GetIsolationY(width);
        if isolation_y.Err? {
          assert beams[..] == beams[..beams.Length];
          CutsStopAtError(base, beams[..], i + 1, length, width, clearance);
          return Err(isolation_y.error);
        }
        var region := Box(Notch(centre, isolation_x.value, isolation_y.value, length, width));
        c := Minus(c, Grown(region, clearance));
        c := Join(c, region);
      }
      if beam.Insetted() {
        var inset_x := beam.GetInsetX(length);
        if inset_x.Err? {
          assert beams[..] == beams[..beams.Length];
          CutsStopAtError(base, beams[..], i + 1, length, width, clearance);
          return Err(inset_x.error);
        }
        var inset_y := beam.GetInsetY(width);
        if inset_y.Err? {
          assert beams[..] == beams[..beams.Length];
          CutsStopAtError(base, beams[..], i + 1, length, width, clearance);
          return Err(inset_y.error);
        }
        c := Minus(c, Box(Notch(centre, inset_x.value, inset_y.value, length, width)));
      }
    }
    assert beams[..] == beams[..beams.Length];
    return Ok(c);
  }

  /** The second loop: one placement per beam, in array order. */
  method PlaceBeams(beams: array<ZCantileverBeam>, length: real, width: real, release_spec: Option<ReleaseSpec>)
    returns (placements: seq<BeamPlacement>)
    // the first loop has already checked every size
    requires forall i :: 0 <= i < beams.Length ==> SizesValid(beams[i], length, width)
    ensures |placements| == beams.Length
    ensures forall i :: 0 <= i < beams.Length ==> placements[i] == Placement(beams[i], length, width, release_spec)
  {
    placements := [];
    for i := 0 to beams.Length
      invariant |placements| == i
      invariant forall j :: 0 <= j < i ==> placements[j] == Placement(beams[j], length, width, release_spec)
    {
      var beam := beams[i];
      var position := Key(beam, length);
      var inset := if beam.Insetted() then beam.GetInsetY(width).value else 0.0;
      placements := placements + [BeamPlacement(beam.length, beam.width, beam.spec, release_spec,
                                                0.5 * beam.width + position, 0.5 * width + 0.5 * beam.length - inset)];
    }
  }

  method ZCantileverHalf(length: real, width: real, beams: array<ZCantileverBeam>, clearance: real,
                         middle_split: bool, geometry_layer: Layer, handle_layer: Option<Layer>,
                         release_spec: Option<ReleaseSpec>) returns (r: Result<ZCantileverOut>)
    modifies beams
    // an invalid position fails the sort and leaves the caller's list as it was
    ensures FirstPositionError(old(beams[..]), length).Some? ==>
      r == Err(FirstPositionError(old(beams[..]), length).value) && beams[..] == old(beams[..])
    // otherwise the list is sorted in place, and the component is built from it
    ensures FirstPositionError(old(beams[..]), length).None? ==>
      && SortedByPosition(beams[..], length)
      && multiset(beams[..]) == multiset(old(beams[..]))
      && r == Build(beams[..], length, width, clearance, middle_split, geometry_layer, handle_layer, release_spec)
  {
    var y_offset := if middle_split then 0.5 * clearance else 0.0;
    var rect := Rect(0.0, 0.0, length, 0.5 * width - y_offset).Moved(0.0, y_offset);

    var err := CheckPositions(beams, length);
    if err.Some? {
      return Err(err.value);
    }
    SortByPosition(beams, length);

    var body := CutAll(beams, Box(rect), length, width, clearance);
    if body.Err? {
      return Err(body.error);
    }
    CutsOkIff(Box(rect), beams[..], length, width, clearance);
    var placements := PlaceBeams(beams, length, width, release_spec);
    var sorted := beams[..];
    assert placements == seq(|sorted|, i requires 0 <= i < |sorted| => Placement(sorted[i], length, width, release_spec));
    r := Ok(ZCantileverOut(body.value, placements, Rect(0.0, 0.0, length, 0.5 * width), handle_layer, geometry_layer));
  }

  /** Once a prefix fails, the whole sequence fails with the same error. */
  lemma {:induction false} CutsStopAtError(c0: Region, bs: seq<ZCantileverBeam>, k: nat, length: real, width: real,
                                           clearance: real)
    requires k <= |bs| && Cuts(c0, bs[..k], length, width, clearance).Err?
    ensures Cuts(c0, bs, length, width, clearance) == Cuts(c0, bs[..k], length, width, clearance)
    decreases |bs| - k
  {
    if k < |bs| {
      var next := bs[..k + 1];
      assert next[..|next| - 1] == bs[..k];
      CutsStopAtError(c0, bs, k + 1, length, width, clearance);
    } else {
      assert bs[..k] == bs;
    }
  }

  /** The cuts succeed exactly when every beam's enabled sizes are
      positive, whatever the starting region and the order of the beams. */
  lemma {:induction false} CutsOkIff(c0: Region, bs: seq<ZCantileverBeam>, length: real, width: real, clearance: real)
    ensures Cuts(c0, bs, length, width, clearance).Ok? <==> forall i :: 0 <= i < |bs| ==> SizesValid(bs[i], length, width)
  {
    if bs != [] {
      var init := bs[..|bs| - 1];
      CutsOkIff(c0, init, length, width, clearance);
      assert forall i :: 0 <= i < |init| ==> init[i] == bs[i];
    }
  }

  /** A valid position keeps the beam inside the cantilever: its x-centre
      lies in `[width/2, length - width/2]` of the beam. */
  lemma BeamWithinCantilever(b: ZCantileverBeam, length: real)
    requires b.GetPosition(length).Ok?
    ensures 0.5 * b.width <= BeamCentre(b, length) <= length - 0.5 * b.width
  {
  }

  /** A notch reaches exactly `y_size` below the top edge, stays inside
      `[0, length]` in x, and, when it is not clamped, is `x_size` wide and
      centred on the beam. */
  lemma NotchShape(centre: real, x_size: real, y_size: real, length: real, width: real)
    ensures var n := Notch(centre, x_size, y_size, length, width);
      && n.Top() == 0.5 * width && n.Bottom() == 0.5 * width - y_size
      && n.Left() >= 0.0 && n.Right() <= length
      && (0.0 <= centre - 0.5 * x_size && centre + 0.5 * x_size <= length ==>
            n.w == x_size && n.CX() == centre)
  {
  }

  /** With a valid position and a positive x-size, the notch always covers
      the beam's centre line, even when clamped. */
  lemma NotchCoversBeam(b: ZCantileverBeam, x_size: real, y_size: real, length: real, width: real)
    requires b.GetPosition(length).Ok? && b.width >= 0.0 && x_size > 0.0
    ensures var n := Notch(BeamCentre(b, length), x_size, y_size, length, width);
      n.Left() <= BeamCentre(b, length) <= n.Right()
  {
  }

  /** The base rectangle spans the length and reaches from `y_offset` up to
      the top edge `width / 2`. */
  lemma BaseSpan(length: real, width: real, clearance: real, middle_split: bool)
    ensures var r := Base(length, width, clearance, middle_split);
      && r.Left() == 0.0 && r.Right() == length
      && r.Bottom() == (if middle_split then 0.5 * clearance else 0.0) && r.Top() == 0.5 * width
  {
  }

  /** Each beam hangs from the cantilever: centred on its position in x, its
      lower end is at the top edge, or at the floor of its inset notch. */
  lemma BeamHangsFromNotchFloor(b: ZCantileverBeam, length: real, width: real, release_spec: Option<ReleaseSpec>)
    requires b.Insetted() ==> b.GetInsetX(length).Ok? && b.GetInsetY(width).Ok?
    ensures var p := Placement(b, length, width, release_spec);
      && p.x == BeamCentre(b, length)
      && (!b.Insetted() ==> p.y - 0.5 * p.length == 0.5 * width)
      && (b.Insetted() ==>
            p.y - 0.5 * p.length
            == Notch(BeamCentre(b, length), b.GetInsetX(length).value, b.GetInsetY(width).value, length, width).Bottom())
  {
  }
}
