/** `rotator_gear`: a half-rotator electrostatic actuator. A rotor arc
    carries teeth mirrored about angle 0; one stator arc per phase bank
    carries `teeth_count` teeth each, the banks laid end to end and the
    whole stator rotated to sit centred. The inner carriage is the rotor
    unless `inner_rotor` is false, in which case the roles swap. Angles are
    in degrees; pi is a parameter. */
module RotatorGear {
  import opened Geometry
  import opened Numeric

  /** A tooth instance: the centred `1.1 * teeth_height` by `teeth_width`
      rectangle, moved `x` along the x-axis, then rotated about the origin. */
  datatype ToothRef = ToothRef(x: real, rotation: real)

  /** A `ring` instance: centreline radius, width, angle pair, then rotated
      about the origin by `rotation` degrees. */
  datatype ArcRef = ArcRef(radius: real, width: real, angles: (real, real), rotation: real,
                           release: Option<ReleaseSpec>)

  /** A carriage's centreline radius and width, and where its teeth are
      centred radially. */
  datatype Carriage = Carriage(radius: real, width: real, teeth_x: real)

  datatype GearOut = GearOut(teeth_size: (real, real), rotor: ArcRef, rotor_teeth: seq<ToothRef>,
                             stators: seq<ArcRef>, stator_teeth: seq<seq<ToothRef>>,
                             geometry_layer: Layer, angle_resolution: real)

  /** The angle (degrees) that an arc of the given length subtends at `radius`. */
  function ArcAngle(length: real, radius: real, pi: real): real
    requires radius != 0.0 && pi > 0.0
  {
    length / radius / (pi / 180.0)
  }

  lemma ArcAngleNonZero(length: real, radius: real, pi: real)
    requires length != 0.0 && radius != 0.0 && pi > 0.0
    ensures ArcAngle(length, radius, pi) != 0.0
  {
    var a := ArcAngle(length, radius, pi);
    assert a * (pi / 180.0) * radius == length;
  }

  function TeethInnerRadius(radius_inner: real, width_inner: real): real
  {
    radius_inner + width_inner
  }

  function TeethOuterRadius(radius_inner: real, width_inner: real, teeth_height: real, teeth_clearance: real): real
  {
    TeethInnerRadius(radius_inner, width_inner) + 2.0 * teeth_height + teeth_clearance
  }

  /** The inner carriage spans `[radius_inner, radius_inner + width_inner]`;
      its teeth point outwards. */
  function InnerCarriage(radius_inner: real, width_inner: real, teeth_height: real): Carriage
  {
    Carriage(radius_inner + 0.5 * width_inner, width_inner,
             TeethInnerRadius(radius_inner, width_inner) + 0.4 * teeth_height)
  }

  /** The outer carriage spans `[radius_teeth_outer, radius_outer]`; its
      teeth point inwards. */
  function OuterCarriage(radius_inner: real, radius_outer: real, width_inner: real, teeth_height: real,
                         teeth_clearance: real): Carriage
  {
    var rto := TeethOuterRadius(radius_inner, width_inner, teeth_height, teeth_clearance);
    Carriage(0.5 * (rto + radius_outer), radius_outer - rto, rto - 0.4 * teeth_height)
  }

  /** (rotor, stator): the inner carriage is the rotor exactly when
      `inner_rotor`, and the two roles are always the two carriages. */
  function Roles(inner_rotor: bool, inner: Carriage, outer: Carriage): (roles: (Carriage, Carriage))
    ensures inner_rotor ==> roles.0 == inner && roles.1 == outer
    ensures !inner_rotor ==> roles.0 == outer && roles.1 == inner
  {
    if inner_rotor then (inner, outer) else (outer, inner)
  }

  /** Where tooth `j` of bank `k` sits before the stator is centred: the
      banks follow each other with one pitch per tooth, and a bank's phase
      shifts only its own teeth by `phase / 360` of a pitch. */
  function BankAngle(k: nat, j: nat, teeth_count: nat, phase: real, pitch: real): real
  {
    (k * teeth_count + j) as real * pitch + phase * pitch / 360.0
  }

  /** The rotation that centres the stator: minus half of all the pitches
      laid out, plus half a pitch. */
  function StatorOffset(banks: nat, teeth_count: nat, pitch: real): real
  {
    -0.5 * ((banks * teeth_count) as real * pitch) + 0.5 * pitch
  }

  /** The accumulator loop: the tooth angles of every bank, and the
      accumulator's final value. */
  method StatorBanks(teeth_phase: seq<real>, teeth_count: nat, pitch: real)
    returns (banks: seq<seq<real>>, angle_offset: real)
    ensures |banks| == |teeth_phase|
    ensures forall k :: 0 <= k < |banks| ==> |banks[k]| == teeth_count
    ensures forall k, j :: 0 <= k < |banks| && 0 <= j < teeth_count ==>
      banks[k][j] == BankAngle(k, j, teeth_count, teeth_phase[k], pitch)
    ensures angle_offset == (|teeth_phase| * teeth_count) as real * pitch
  {
    banks := [];
    angle_offset := 0.0;
    for k := 0 to |teeth_phase|
      invariant |banks| == k
      invariant forall m :: 0 <= m < k ==> |banks[m]| == teeth_count
      invariant forall m, j :: 0 <= m < k && 0 <= j < teeth_count ==>
        banks[m][j] == BankAngle(m, j, teeth_count, teeth_phase[m], pitch)
      invariant angle_offset == (k * teeth_count) as real * pitch
    {
      var phase := teeth_phase[k];
      angle_offset := angle_offset + phase * pitch / 360.0;
      var phase_angles := [];
      for j := 0 to teeth_count
        invariant |phase_angles| == j
        invariant forall i :: 0 <= i < j ==> phase_angles[i] == BankAngle(k, i, teeth_count, phase, pitch)
        invariant angle_offset == (k * teeth_count + j) as real * pitch + phase * pitch / 360.0
      {
        phase_angles := phase_angles + [angle_offset];
        assert (k * teeth_count + j + 1) as real * pitch == (k * teeth_count + j) as real * pitch + pitch;
        angle_offset := angle_offset + pitch;
      }
      angle_offset := angle_offset - phase * pitch / 360.0;
      assert k * teeth_count + teeth_count == (k + 1) * teeth_count;
      banks := banks + [phase_angles];
    }
  }

  /** The rotor teeth: a mirrored pair at each angle of
      `arange(pitch / 2, (rotor_span - pitch) / 2, pitch)`. */
  method RotorTeeth(teeth_x: real, pitch: real, rotor_span: real) returns (teeth: seq<ToothRef>)
    requires pitch != 0.0
    ensures |teeth| == 2 * ArangeLen(0.5 * pitch, 0.5 * (rotor_span - pitch), pitch)
    ensures forall k :: 0 <= k < ArangeLen(0.5 * pitch, 0.5 * (rotor_span - pitch), pitch) ==>
      teeth[2 * k] == ToothRef(teeth_x, 0.5 * pitch + k as real * pitch) &&
      teeth[2 * k + 1] == ToothRef(teeth_x, -(0.5 * pitch + k as real * pitch))
  {
    var n := ArangeLen(0.5 * pitch, 0.5 * (rotor_span - pitch), pitch);
    teeth := [];
    for k := 0 to n
      invariant |teeth| == 2 * k
      invariant forall m :: 0 <= m < k ==>
        teeth[2 * m] == ToothRef(teeth_x, 0.5 * pitch + m as real * pitch) &&
        teeth[2 * m + 1] == ToothRef(teeth_x, -(0.5 * pitch + m as real * pitch))
    {
      var angle := 0.5 * pitch + k as real * pitch;
      teeth := teeth + [ToothRef(teeth_x, angle), ToothRef(teeth_x, -angle)];
    }
  }

  /** The stator arcs and teeth, bank by bank; the first bank without teeth
      makes `phase[0]` fail. */
  method PlaceStators(banks: seq<seq<real>>, stator: Carriage, teeth_width_angle: real, stator_offset: real)
    returns (r: Result<(seq<ArcRef>, seq<seq<ToothRef>>)>)
    ensures r.Err? <==> exists k :: 0 <= k < |banks| && |banks[k]| == 0
    ensures r.Err? ==> r.error == EmptyToothBank
    ensures r.Ok? ==> |r.value.0| == |banks| && |r.value.1| == |banks|
    ensures r.Ok? ==> forall k :: 0 <= k < |banks| ==>
      r.value.0[k] == ArcRef(stator.radius, stator.width,
                             (banks[k][0] - 0.5 * teeth_width_angle, banks[k][|banks[k]| - 1] + 0.5 * teeth_width_angle),
                             stator_offset, None)
    ensures r.Ok? ==> forall k :: 0 <= k < |banks| ==>
      |r.value.1[k]| == |banks[k]| &&
      forall j :: 0 <= j < |banks[k]| ==> r.value.1[k][j] == ToothRef(stator.teeth_x, banks[k][j] + stator_offset)
  {
    var rings := [];
    var teeth := [];
    for k := 0 to |banks|
      invariant |rings| == k && |teeth| == k
      invariant forall m :: 0 <= m < k ==> |banks[m]| > 0
      invariant forall m :: 0 <= m < k ==>
        rings[m] == ArcRef(stator.radius, stator.width,
                           (banks[m][0] - 0.5 * teeth_width_angle, banks[m][|banks[m]| - 1] + 0.5 * teeth_width_angle),
                           stator_offset, None)
      invariant forall m :: 0 <= m < k ==>
        |teeth[m]| == |banks[m]| &&
        forall j :: 0 <= j < |banks[m]| ==> teeth[m][j] == ToothRef(stator.teeth_x, banks[m][j] + stator_offset)
    {
      var phase := banks[k];
      if |phase| == 0 {
        return Err(EmptyToothBank);
      }
      rings := rings + [ArcRef(stator.radius, stator.width,
                               (phase[0] - 0.5 * teeth_width_angle, phase[|phase| - 1] + 0.5 * teeth_width_angle),
                               stator_offset, None)];
      var bank_teeth := [];
      for j := 0 to |phase|
        invariant |bank_teeth| == j
        invariant forall i :: 0 <= i < j ==> bank_teeth[i] == ToothRef(stator.teeth_x, phase[i] + stator_offset)
      {
        bank_teeth := bank_teeth + [ToothRef(stator.teeth_x, phase[j] + stator_offset)];
      }
      teeth := teeth + [bank_teeth];
    }
    return Ok((rings, teeth));
  }

  /** All stator banks: the accumulator loop, then the arcs and teeth
      rotated by the centring offset. */
  method Stators(teeth_phase: seq<real>, teeth_count: nat, pitch: real, teeth_width_angle: real, stator: Carriage)
    returns (r: Result<(seq<ArcRef>, seq<seq<ToothRef>>)>)
    ensures r.Err? <==> teeth_count == 0 && |teeth_phase| > 0
    ensures r.Err? ==> r.error == EmptyToothBank
    ensures r.Ok? ==> |r.value.0| == |teeth_phase| && |r.value.1| == |teeth_phase|
    ensures r.Ok? ==> forall k :: 0 <= k < |teeth_phase| ==>
      r.value.0[k] == ArcRef(stator.radius, stator.width,
                             (BankAngle(k, 0, teeth_count, teeth_phase[k], pitch) - 0.5 * teeth_width_angle,
                              BankAngle(k, teeth_count - 1, teeth_count, teeth_phase[k], pitch) + 0.5 * teeth_width_angle),
                             StatorOffset(|teeth_phase|, teeth_count, pitch), None)
    ensures r.Ok? ==> forall k :: 0 <= k < |teeth_phase| ==> |r.value.1[k]| == teeth_count
    ensures r.Ok? ==> forall k, j :: 0 <= k < |teeth_phase| && 0 <= j < teeth_count ==>
      r.value.1[k][j] == ToothRef(stator.teeth_x,
                                  BankAngle(k, j, teeth_count, teeth_phase[k], pitch)
                                    + StatorOffset(|teeth_phase|, teeth_count, pitch))
  {
    var banks, angle_offset := StatorBanks(teeth_phase, teeth_count, pitch);
    var stator_offset := -0.5 * angle_offset + 0.5 * pitch;
    assert stator_offset == StatorOffset(|teeth_phase|, teeth_count, pitch);
    r := PlaceStators(banks, stator, teeth_width_angle, stator_offset);
    if r.Ok? {
      assert !(0 < |banks| && |banks[0]| == 0);
    }
  }

  method RotatorGear(radius_inner: real, radius_outer: real, width_inner: real, teeth_pitch: real,
                     teeth_width: real, teeth_height: real, teeth_clearance: real, teeth_phase: seq<real>,
                     teeth_count: nat, inner_rotor: bool, rotor_span: real, geometry_layer: Layer,
                     angle_resolution: real, release_spec: Option<ReleaseSpec>, pi: real)
    returns (r: Result<GearOut>)
    requires pi > 0.0 && radius_inner + width_inner != 0.0 && teeth_pitch != 0.0
    // only an empty bank fails
    ensures r.Err? <==> teeth_count == 0 && |teeth_phase| > 0
    ensures r.Err? ==> r.error == EmptyToothBank
    ensures r.Ok? ==>
      var rti := TeethInnerRadius(radius_inner, width_inner);
      var pitch := ArcAngle(teeth_pitch, rti, pi);
      var roles := Roles(inner_rotor, InnerCarriage(radius_inner, width_inner, teeth_height),
                         OuterCarriage(radius_inner, radius_outer, width_inner, teeth_height, teeth_clearance));
      var n := ArangeLen(0.5 * pitch, 0.5 * (rotor_span - pitch), pitch);
      var g := r.value;
      // the rotor arc spans the rotor span centred on angle 0 and is the only perforated part
      && g.teeth_size == (teeth_height * 1.1, teeth_width)
      && g.rotor == ArcRef(roles.0.radius, roles.0.width, (-0.5 * rotor_span, 0.5 * rotor_span), 0.0, release_spec)
      && |g.rotor_teeth| == 2 * n
      && (forall k :: 0 <= k < n ==>
            g.rotor_teeth[2 * k] == ToothRef(roles.0.teeth_x, 0.5 * pitch + k as real * pitch) &&
            g.rotor_teeth[2 * k + 1] == ToothRef(roles.0.teeth_x, -(0.5 * pitch + k as real * pitch)))
      && |g.stators| == |teeth_phase| && |g.stator_teeth| == |teeth_phase|
      && (forall k :: 0 <= k < |teeth_phase| ==>
            g.stators[k] == ArcRef(roles.1.radius, roles.1.width,
                                   (BankAngle(k, 0, teeth_count, teeth_phase[k], pitch)
                                      - 0.5 * ArcAngle(teeth_width, rti, pi),
                                    BankAngle(k, teeth_count - 1, teeth_count, teeth_phase[k], pitch)
                                      + 0.5 * ArcAngle(teeth_width, rti, pi)),
                                   StatorOffset(|teeth_phase|, teeth_count, pitch), None))
      && (forall k :: 0 <= k < |teeth_phase| ==> |g.stator_teeth[k]| == teeth_count)
      && (forall k, j :: 0 <= k < |teeth_phase| && 0 <= j < teeth_count ==>
            g.stator_teeth[k][j] == ToothRef(roles.1.teeth_x,
                                             BankAngle(k, j, teeth_count, teeth_phase[k], pitch)
                                               + StatorOffset(|teeth_phase|, teeth_count, pitch)))
      && g.geometry_layer == geometry_layer && g.angle_resolution == angle_resolution
  {
    var radius_teeth_inner := TeethInnerRadius(radius_inner, width_inner);
    var teeth_width_angle := ArcAngle(teeth_width, radius_teeth_inner, pi);
    var teeth_pitch_angle := ArcAngle(teeth_pitch, radius_teeth_inner, pi);
    ArcAngleNonZero(teeth_pitch, radius_teeth_inner, pi);

    var roles := Roles(inner_rotor, InnerCarriage(radius_inner, width_inner, teeth_height),
                       OuterCarriage(radius_inner, radius_outer, width_inner, teeth_height, teeth_clearance));
    var rotor, stator := roles.0, roles.1;

    var rotor_ring := ArcRef(rotor.radius, rotor.width, (-0.5 * rotor_span, 0.5 * rotor_span), 0.0, release_spec);
    var rotor_teeth := RotorTeeth(rotor.teeth_x, teeth_pitch_angle, rotor_span);

    var stators := Stators(teeth_phase, teeth_count, teeth_pitch_angle, teeth_width_angle, stator);
    if stators.Err? {
      return Err(stators.error);
    }
    r := Ok(GearOut((teeth_height * 1.1, teeth_width), rotor_ring, rotor_teeth, stators.value.0, stators.value.1,
                    geometry_layer, angle_resolution));
  }

  /** Each bank's teeth are one pitch apart, and bank `k + 1` continues
      where bank `k` ends: its unphased start is `teeth_count` pitches on. */
  lemma BanksLaidEndToEnd(k: nat, j: nat, teeth_count: nat, phase: real, next_phase: real, pitch: real)
    ensures BankAngle(k, j + 1, teeth_count, phase, pitch) - BankAngle(k, j, teeth_count, phase, pitch) == pitch
    ensures BankAngle(k + 1, 0, teeth_count, next_phase, pitch) - next_phase * pitch / 360.0
            == BankAngle(k, 0, teeth_count, phase, pitch) - phase * pitch / 360.0 + teeth_count as real * pitch
  {
    assert (k * teeth_count + j + 1) as real * pitch == (k * teeth_count + j) as real * pitch + pitch;
    assert ((k + 1) * teeth_count) as real * pitch == (k * teeth_count) as real * pitch + teeth_count as real * pitch;
  }

  /** After centring, the stator teeth sit on the rotor's tooth grid
      `(m + 1/2) * pitch`, shifted by their bank's phase as a fraction of a
      pitch; `m` runs from `-N/2` to `N/2 - 1` over all `N` teeth, so with
      no phases the stator is symmetric about angle 0. */
  lemma {:induction false} StatorOnRotorGrid(banks: nat, k: nat, j: nat, teeth_count: nat, phase: real, pitch: real)
    requires (banks * teeth_count) % 2 == 0
    ensures var m := k * teeth_count + j - banks * teeth_count / 2;
      BankAngle(k, j, teeth_count, phase, pitch) + StatorOffset(banks, teeth_count, pitch)
      == (m as real + 0.5) * pitch + phase * pitch / 360.0
  {
    var total := banks * teeth_count;
    var half := total / 2;
    assert total == 2 * half;
    var m := k * teeth_count + j - half;
    assert (total as real) * pitch == 2.0 * (half as real * pitch);
    assert ((k * teeth_count + j) as real) * pitch == m as real * pitch + half as real * pitch;
    assert (m as real + 0.5) * pitch == m as real * pitch + 0.5 * pitch;
  }

  /** With every phase zero and at least one tooth, the first and last
      stator teeth are mirror images about angle 0. */
  lemma {:induction false} StatorSymmetric(banks: nat, teeth_count: nat, pitch: real)
    requires banks > 0 && teeth_count > 0
    ensures BankAngle(0, 0, teeth_count, 0.0, pitch) + StatorOffset(banks, teeth_count, pitch)
         == -(BankAngle(banks - 1, teeth_count - 1, teeth_count, 0.0, pitch) + StatorOffset(banks, teeth_count, pitch))
  {
    var total := banks * teeth_count;
    assert (banks - 1) * teeth_count + teeth_count - 1 == total - 1;
    assert ((total - 1) as real) * pitch == total as real * pitch - pitch;
  }

  /** Every rotor tooth is centred at least half a pitch inside the rotor
      arc's ends, on both sides of angle 0. */
  lemma {:induction false} RotorTeethInsideArc(pitch: real, rotor_span: real, k: nat)
    requires pitch > 0.0 && k < ArangeLen(0.5 * pitch, 0.5 * (rotor_span - pitch), pitch)
    ensures var angle := 0.5 * pitch + k as real * pitch;
      && 0.0 < angle < 0.5 * rotor_span - 0.5 * pitch
      && -0.5 * rotor_span + 0.5 * pitch < -angle < 0.0
  {
    ArangeMembers(0.5 * pitch, 0.5 * (rotor_span - pitch), pitch, k);
    assert k as real * pitch >= 0.0;
  }

  /** The radial layout: the inner carriage spans `[Ri, Ri + wi]` and the
      outer one `[Rto, Ro]`; each tooth (`1.1 * teeth_height` long) reaches
      `0.15 * teeth_height` into its own carriage, and opposing tooth tips
      are `teeth_clearance + 0.1 * teeth_height` apart. */
  lemma TeethInterleave(radius_inner: real, radius_outer: real, width_inner: real, teeth_height: real,
                        teeth_clearance: real)
    ensures var inner := InnerCarriage(radius_inner, width_inner, teeth_height);
      var outer := OuterCarriage(radius_inner, radius_outer, width_inner, teeth_height, teeth_clearance);
      var half_tooth := 0.55 * teeth_height;
      && inner.radius - 0.5 * inner.width == radius_inner
      && inner.radius + 0.5 * inner.width == TeethInnerRadius(radius_inner, width_inner)
      && outer.radius - 0.5 * outer.width == TeethOuterRadius(radius_inner, width_inner, teeth_height, teeth_clearance)
      && outer.radius + 0.5 * outer.width == radius_outer
      && (inner.radius + 0.5 * inner.width) - (inner.teeth_x - half_tooth) == 0.15 * teeth_height
      && (outer.teeth_x + half_tooth) - (outer.radius - 0.5 * outer.width) == 0.15 * teeth_height
      && (outer.teeth_x - half_tooth) - (inner.teeth_x + half_tooth) == teeth_clearance + 0.1 * teeth_height
  {
  }
}
