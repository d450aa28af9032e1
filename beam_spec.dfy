/** The frozen `BeamSpec` record: a thickened mid-section and a handle-layer
    etch, every size an (abs, rel) pair resolved against the beam. */
module BeamSpecs {
  import opened Geometry

  /** An (abs, rel) pair, resolved against a reference dimension as
      `abs + rel * reference`. */
  datatype Dim = Dim(abs: real, rel: real) {
    function Resolve(reference: real): real
    {
      abs + rel * reference
    }

    /** The test the flags use to call a pair unset. */
    predicate Unset()
    {
      abs == 0.0 && rel <= 0.0
    }
  }

  datatype BeamSpec = BeamSpec(
    release_thin: bool,
    release_thick: bool,
    thick_length: Dim,
    thick_width: Dim,
    thick_offset: Dim,
    handle_etch_length: Dim,
    handle_etch_width: Dim,
    handle_etch_offset: Dim,
    handle_etch_layer: Option<Layer>)
  {
    /** `thickened`: false as soon as either thick size is unset. */
    predicate Thickened()
      ensures Thickened() <==> !thick_length.Unset() && !thick_width.Unset()
      ensures thick_length.abs != 0.0 && thick_width.abs != 0.0 ==> Thickened()
    {
      if thick_length.abs == 0.0 && thick_length.rel <= 0.0 then false
      else if thick_width.abs == 0.0 && thick_width.rel <= 0.0 then false
      else true
    }

    function GetThickLength(beam_length: real): (r: Result<real>)
      ensures r.Ok? <==> thick_length.Resolve(beam_length) > 0.0
      ensures r.Ok? ==> r.value == thick_length.Resolve(beam_length) && r.value > 0.0
      ensures r.Err? ==> r.error == ThickLengthNotPositive
    {
      var x := thick_length.abs + thick_length.rel * beam_length;
      if x <= 0.0 then Err(ThickLengthNotPositive) else Ok(x)
    }

    function GetThickWidth(beam_width: real): (r: Result<real>)
      ensures r.Ok? <==> thick_width.Resolve(beam_width) > 0.0
      ensures r.Ok? ==> r.value == thick_width.Resolve(beam_width) && r.value > 0.0
      ensures r.Err? ==> r.error == ThickWidthNotPositive
    {
      var x := thick_width.abs + thick_width.rel * beam_width;
      if x <= 0.0 then Err(ThickWidthNotPositive) else Ok(x)
    }

    /** Never fails; zero and negative offsets are returned as they are. */
    function GetThickOffset(beam_length: real): (o: real)
      ensures o == thick_offset.Resolve(beam_length)
    {
      thick_offset.abs + thick_offset.rel * beam_length
    }

    /** `handle_etched`: the thick-size tests of `thickened` (not the
        handle-etch sizes) plus a handle-etch layer. */
    predicate HandleEtched()
      ensures HandleEtched() <==> Thickened() && handle_etch_layer.Some?
    {
      if thick_length.abs == 0.0 && thick_length.rel <= 0.0 then false
      else if thick_width.abs == 0.0 && thick_width.rel <= 0.0 then false
      else if handle_etch_layer.None? then false
      else true
    }

    function GetHandleEtchLength(beam_length: real): (r: Result<real>)
      ensures r.Ok? <==> handle_etch_length.Resolve(beam_length) > 0.0
      ensures r.Ok? ==> r.value == handle_etch_length.Resolve(beam_length) && r.value > 0.0
      ensures r.Err? ==> r.error == HandleEtchLengthNotPositive
    {
      var x := handle_etch_length.abs + handle_etch_length.rel * beam_length;
      if x <= 0.0 then Err(HandleEtchLengthNotPositive) else Ok(x)
    }

    function GetHandleEtchWidth(beam_width: real): (r: Result<real>)
      ensures r.Ok? <==> handle_etch_width.Resolve(beam_width) > 0.0
      ensures r.Ok? ==> r.value == handle_etch_width.Resolve(beam_width) && r.value > 0.0
      ensures r.Err? ==> r.error == HandleEtchWidthNotPositive
    {
      var x := handle_etch_width.abs + handle_etch_width.rel * beam_width;
      if x <= 0.0 then Err(HandleEtchWidthNotPositive) else Ok(x)
    }

    /** Never fails; zero and negative offsets are returned as they are. */
    function GetHandleEtchOffset(beam_length: real): (o: real)
      ensures o == handle_etch_offset.Resolve(beam_length)
    {
      handle_etch_offset.abs + handle_etch_offset.rel * beam_length
    }
  }

  /** A `BeamSpec()` built with every default: all pairs (0, 0), no layer. */
  function DefaultBeamSpec(): BeamSpec
  {
    BeamSpec(false, false, Dim(0.0, 0.0), Dim(0.0, 0.0), Dim(0.0, 0.0),
             Dim(0.0, 0.0), Dim(0.0, 0.0), Dim(0.0, 0.0), None)
  }

  /** The defaults switch both the thick section and the handle etch off,
      and resolving the default sizes fails for every reference dimension. */
  lemma DefaultsDisabled(reference: real)
    ensures !DefaultBeamSpec().Thickened() && !DefaultBeamSpec().HandleEtched()
    ensures DefaultBeamSpec().GetThickLength(reference).Err?
    ensures DefaultBeamSpec().GetThickWidth(reference).Err?
    ensures DefaultBeamSpec().GetThickOffset(reference) == 0.0
  {
  }

  /** An unset pair never resolves to a positive size against a
      non-negative reference: the flag agrees with the resolvers. */
  lemma UnsetNeverPositive(d: Dim, reference: real)
    requires d.Unset() && reference >= 0.0
    ensures d.Resolve(reference) <= 0.0
  {
  }

  /** So when `thickened` is false on a real beam, one of the two thick
      resolvers fails. */
  lemma NotThickenedResolverFails(s: BeamSpec, beam_length: real, beam_width: real)
    requires !s.Thickened() && beam_length >= 0.0 && beam_width >= 0.0
    ensures s.GetThickLength(beam_length).Err? || s.GetThickWidth(beam_width).Err?
  {
    if s.thick_length.Unset() {
      UnsetNeverPositive(s.thick_length, beam_length);
    } else {
      UnsetNeverPositive(s.thick_width, beam_width);
    }
  }

  /** The converse does not hold: any non-zero `abs` counts as set, so a
      spec can be `thickened` while its thick length cannot be resolved. */
  lemma ThickenedDoesNotGuaranteeResolution()
    ensures var s := DefaultBeamSpec().(thick_length := Dim(-1.0, 0.0), thick_width := Dim(1.0, 0.0));
            s.Thickened() && s.GetThickLength(100.0).Err?
  {
  }

  /** `handle_etched` looks only at the thick sizes and the layer: the
      handle-etch sizes themselves never change it. */
  lemma HandleEtchedIgnoresHandleSizes(s: BeamSpec, l: Dim, w: Dim, o: Dim)
    ensures s.(handle_etch_length := l, handle_etch_width := w, handle_etch_offset := o).HandleEtched()
            == s.HandleEtched()
  {
  }
}
