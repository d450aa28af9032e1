/** `sagitta_offset_safe`: a square-root-free upper bound on the sagitta of
    a circular arc, `chord^2 / (4 * radius)`. */
module Sagitta {
  import opened Numeric

  function SagittaOffsetSafe(radius: real, chord: real): (s: real)
    requires radius != 0.0
    ensures radius > 0.0 ==> s >= 0.0
    ensures chord == 0.0 ==> s == 0.0
    ensures s * (4.0 * radius) == chord * chord
  {
    chord * chord / (4.0 * radius)
  }

  /** For a chord shorter than the diameter the bound is at most half the
      chord. */
  lemma {:induction false} AtMostHalfChord(radius: real, chord: real)
    requires radius > 0.0 && 0.0 <= chord <= 2.0 * radius
    ensures SagittaOffsetSafe(radius, chord) <= chord / 2.0
  {
    var s := SagittaOffsetSafe(radius, chord);
    calc {
      s * (4.0 * radius);
      chord * chord;
    <= { MulLeft(chord, 2.0 * radius, chord); }
      chord * (2.0 * radius);
      (chord / 2.0) * (4.0 * radius);
    }
    CancelPositive(s, chord / 2.0, 4.0 * radius);
  }

  /** The overestimate, without square roots: when the bound does not
      exceed the radius, `(radius - s)^2 <= radius^2 - (chord / 2)^2`. */
  lemma {:induction false} SquaredOverestimate(radius: real, chord: real)
    requires radius > 0.0 && 0.0 <= chord < 2.0 * radius
    ensures var s := SagittaOffsetSafe(radius, chord);
            s <= radius ==> (radius - s) * (radius - s) <= radius * radius - (chord / 2.0) * (chord / 2.0)
  {
    var s := SagittaOffsetSafe(radius, chord);
    AtMostHalfChord(radius, chord);
    assert 2.0 * radius * s == chord * chord / 2.0;
    assert 0.0 <= s <= chord / 2.0;
    SquareLe(s, chord / 2.0);
    calc {
      (radius - s) * (radius - s);
      radius * radius - 2.0 * radius * s + s * s;
      radius * radius - chord * chord / 2.0 + s * s;
    <=
      radius * radius - chord * chord / 2.0 + (chord / 2.0) * (chord / 2.0);
      radius * radius - (chord / 2.0) * (chord / 2.0);
    }
  }

  /** The documented guarantee: for every square root `t` of
      `radius^2 - (chord / 2)^2`, the exact sagitta `radius - t` never
      exceeds the bound. A negative chord is as long as its absolute value. */
  lemma {:induction false} Overestimates(radius: real, chord: real, t: real)
    requires radius > 0.0 && -2.0 * radius < chord < 2.0 * radius
    requires t >= 0.0 && t * t == radius * radius - (chord / 2.0) * (chord / 2.0)
    ensures SagittaOffsetSafe(radius, chord) >= radius - t
  {
    var c := if chord < 0.0 then -chord else chord;
    assert chord * chord == c * c by {
      if chord < 0.0 {
        assert c * c == (-chord) * (-chord);
      }
    }
    var s := SagittaOffsetSafe(radius, c);
    assert SagittaOffsetSafe(radius, chord) == s;
    assert t * t == radius * radius - (c / 2.0) * (c / 2.0);
    if s < radius - t {
      SquaredOverestimate(radius, c);
      assert 0.0 <= t < radius - s;
      SquareStrict(t, radius - s);
      assert false;
    }
  }

  /** For a fixed radius the bound grows with the length of the chord. */
  lemma {:induction false} MonotoneInChord(radius: real, c1: real, c2: real)
    requires radius > 0.0
    requires (if c1 < 0.0 then -c1 else c1) <= (if c2 < 0.0 then -c2 else c2)
    ensures SagittaOffsetSafe(radius, c1) <= SagittaOffsetSafe(radius, c2)
  {
    var a1 := if c1 < 0.0 then -c1 else c1;
    var a2 := if c2 < 0.0 then -c2 else c2;
    assert c1 * c1 == a1 * a1 && c2 * c2 == a2 * a2;
    SquareLe(a1, a2);
    CancelPositive(SagittaOffsetSafe(radius, c1), SagittaOffsetSafe(radius, c2), 4.0 * radius);
  }
}
