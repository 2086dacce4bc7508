/**
 * The action normaliser of the opposite-direction manoeuvre scenario: an adversarial
 * policy emits actions nominally in the canonical range [-1, 1], and each of the first
 * three entries is rescaled, independently and without clamping, onto a physical range:
 * a longitudinal distance x in [40, 60] m, a second gap y in [20, 40] m and a yaw in
 * [6, 10] degrees.
 *
 * The Python code computes with floats. Every constant, scale and mean here is a small
 * exact rational, but `actions[i] * scale + mean` rounds in the program; the model
 * computes with exact `real` arithmetic, so the strict order, containment,
 * injectivity, onto, exact shift, exact inverse and closed-form facts below hold of
 * the real-valued map, not of the rounded one.
 */
module ActionNormalizer {
  import opened Wrappers

  /** A physical interval [lo, hi] that the canonical interval [-1, 1] is mapped onto. */
  datatype Range = Range(lo: real, hi: real) {
    predicate Valid() { lo < hi }

    /** Half the width of the interval: the slope of the affine map. */
    function Scale(): real { (hi - lo) / 2.0 }

    /** The centre of the interval: the image of the action 0. */
    function Mean(): real { (hi + lo) / 2.0 }

    predicate Contains(v: real) { lo <= v <= hi }
  }

  const XRange: Range := Range(40.0, 60.0)
  const YRange: Range := Range(20.0, 40.0)
  const YawRange: Range := Range(6.0, 10.0)

  /** The range table, indexed like the action vector. */
  const Ranges: seq<Range> := [XRange, YRange, YawRange]

  /** The affine map of one dimension: `action * scale + mean`. */
  function Rescale(a: real, range: Range): real {
    a * range.Scale() + range.Mean()
  }

  /** The inverse of `Rescale`: from a physical value back to the canonical scale. */
  function Unscale(v: real, range: Range): real
    requires range.Valid()
  {
    (v - range.Mean()) / range.Scale()
  }

  /**
   * `convert_actions`: the first three entries of the action vector, rescaled onto
   * the x, y and yaw ranges. Entries past index 2 are ignored; a vector with fewer than
   * three entries makes the Python indexing raise IndexError. An output lies within
   * its physical range exactly when its input lies within [-1, 1].
   */
  function ConvertActions(actions: seq<real>): (r: Result<seq<real>, Exception>)
    ensures r.Ok? <==> |actions| >= 3
    ensures r.Err? ==> r.error == IndexError
    ensures r.Ok? ==> |r.value| == 3
    ensures r.Ok? ==> forall i :: 0 <= i < 3 ==>
              (Ranges[i].Contains(r.value[i]) <==> -1.0 <= actions[i] <= 1.0)
  {
    if |actions| < 3 then Err(IndexError)
    else
      var x := Rescale(actions[0], XRange);
      var y := Rescale(actions[1], YRange);
      var yaw := Rescale(actions[2], YawRange);
      Ok([x, y, yaw])
  }

  // ---------------------------------------------------------------------------
  // The affine map, for any valid range table
  // ---------------------------------------------------------------------------

  /** -1, 0 and 1 go to the lower end, the centre and the upper end of the range. */
  lemma RescaleAnchors(range: Range)
    ensures Rescale(-1.0, range) == range.lo
    ensures Rescale(0.0, range) == range.Mean()
    ensures Rescale(1.0, range) == range.hi
  {
  }

  /** The image lies within the range exactly when the action lies within [-1, 1]. */
  lemma RescaleContainedIff(a: real, range: Range)
    requires range.Valid()
    ensures range.Contains(Rescale(a, range)) <==> -1.0 <= a <= 1.0
  {
    var s := range.Scale();
    assert s > 0.0;
    assert Rescale(a, range) - range.lo == (a + 1.0) * s;
    assert range.hi - Rescale(a, range) == (1.0 - a) * s;
    PositiveProduct(a + 1.0, s);
    PositiveProduct(1.0 - a, s);
  }

  /** The map is strictly increasing in the action, with slope `Scale()`. */
  lemma RescaleStrictlyIncreasing(a: real, b: real, range: Range)
    requires range.Valid()
    requires a < b
    ensures Rescale(a, range) < Rescale(b, range)
  {
    assert Rescale(b, range) - Rescale(a, range) == (b - a) * range.Scale();
    PositiveProduct(b - a, range.Scale());
  }

  /** No clamping: moving the action by `d` moves the image by exactly `d * Scale()`. */
  lemma RescaleAffine(a: real, d: real, range: Range)
    ensures Rescale(a + d, range) == Rescale(a, range) + d * range.Scale()
  {
  }

  /** `Unscale` undoes `Rescale`, and `Rescale` undoes `Unscale`. */
  lemma RescaleRoundTrip(a: real, v: real, range: Range)
    requires range.Valid()
    ensures Unscale(Rescale(a, range), range) == a
    ensures Rescale(Unscale(v, range), range) == v
  {
    var s, m := range.Scale(), range.Mean();
    assert s != 0.0;
    assert Rescale(a, range) - m == a * s;
    assert (a * s) / s == a;
    assert Unscale(v, range) * s == v - m;
  }

  /** Sign of a product, for the order lemmas above. */
  lemma PositiveProduct(x: real, s: real)
    requires s > 0.0
    ensures x * s >= 0.0 <==> x >= 0.0
    ensures x * s > 0.0 <==> x > 0.0
  {
    if x > 0.0 {
      assert x * s > 0.0;
    } else if x < 0.0 {
      assert (-x) * s > 0.0;
    }
  }

  // ---------------------------------------------------------------------------
  // `convert_actions` with the scenario's own range table
  // ---------------------------------------------------------------------------

  /** The three ranges are proper intervals, with slopes 10, 10 and 2. */
  lemma RangeTableFacts()
    ensures forall i :: 0 <= i < 3 ==> Ranges[i].Valid()
    ensures XRange.Scale() == 10.0 && YRange.Scale() == 10.0 && YawRange.Scale() == 2.0
    ensures XRange.Mean() == 50.0 && YRange.Mean() == 30.0 && YawRange.Mean() == 8.0
  {
  }

  /** Closed form: output `i` is midpoint `i` plus slope `i` times input `i`, and nothing else. */
  lemma ConvertComponent(actions: seq<real>, i: int)
    requires |actions| >= 3 && 0 <= i < 3
    ensures ConvertActions(actions).value[i] == [50.0, 30.0, 8.0][i] + [10.0, 10.0, 2.0][i] * actions[i]
  {
    RangeTableFacts();
  }

  /** Output `i` depends only on input `i`: vectors that agree there agree on output `i`. */
  lemma ConvertIndependent(a: seq<real>, b: seq<real>, i: int)
    requires |a| >= 3 && |b| >= 3 && 0 <= i < 3
    requires a[i] == b[i]
    ensures ConvertActions(a).value[i] == ConvertActions(b).value[i]
  {
    ConvertComponent(a, i);
    ConvertComponent(b, i);
  }

  /** Entries past index 2 are ignored. */
  lemma ConvertIgnoresTail(actions: seq<real>, rest: seq<real>)
    requires |actions| >= 3
    ensures ConvertActions(actions + rest) == ConvertActions(actions)
    ensures ConvertActions(actions) == ConvertActions(actions[..3])
  {
  }

  /** The action 0 gives the midpoints; -1 and 1 give the ends of each range. */
  lemma ConvertAnchors(actions: seq<real>, i: int)
    requires |actions| >= 3 && 0 <= i < 3
    ensures actions[i] == -1.0 ==> ConvertActions(actions).value[i] == Ranges[i].lo
    ensures actions[i] == 0.0 ==> ConvertActions(actions).value[i] == [50.0, 30.0, 8.0][i]
    ensures actions[i] == 1.0 ==> ConvertActions(actions).value[i] == Ranges[i].hi
  {
    ConvertComponent(actions, i);
    RescaleAnchors(Ranges[i]);
  }

  /** The three distinguished action vectors. */
  lemma ConvertExamples()
    ensures ConvertActions([0.0, 0.0, 0.0]) == Ok([50.0, 30.0, 8.0])
    ensures ConvertActions([-1.0, -1.0, -1.0]) == Ok([40.0, 20.0, 6.0])
    ensures ConvertActions([1.0, 1.0, 1.0]) == Ok([60.0, 40.0, 10.0])
  {
  }

  /**
   * Each output is strictly increasing in its own input, with slopes 10, 10 and 2:
   * the difference of two outputs is the slope times the difference of the inputs.
   */
  lemma ConvertSlopes(a: seq<real>, b: seq<real>, i: int)
    requires |a| >= 3 && |b| >= 3 && 0 <= i < 3
    ensures ConvertActions(b).value[i] - ConvertActions(a).value[i]
            == [10.0, 10.0, 2.0][i] * (b[i] - a[i])
    ensures a[i] < b[i] ==> ConvertActions(a).value[i] < ConvertActions(b).value[i]
  {
    ConvertComponent(a, i);
    ConvertComponent(b, i);
    RangeTableFacts();
    RescaleAffine(a[i], b[i] - a[i], Ranges[i]);
    if a[i] < b[i] {
      RescaleStrictlyIncreasing(a[i], b[i], Ranges[i]);
    }
  }

  /**
   * No clamping: an input beyond [-1, 1] lands beyond the physical range, on the
   * same line; an x action of 2 gives 70 m and a yaw action of -2 gives 4 degrees.
   */
  lemma ConvertExtrapolates(actions: seq<real>, i: int)
    requires |actions| >= 3 && 0 <= i < 3
    ensures actions[i] > 1.0 ==> ConvertActions(actions).value[i] > Ranges[i].hi
    ensures actions[i] < -1.0 ==> ConvertActions(actions).value[i] < Ranges[i].lo
    ensures actions[0] == 2.0 ==> ConvertActions(actions).value[0] == 70.0
    ensures actions[2] == -2.0 ==> ConvertActions(actions).value[2] == 4.0
  {
    ConvertComponent(actions, i);
    RangeTableFacts();
    if actions[i] > 1.0 {
      RescaleStrictlyIncreasing(1.0, actions[i], Ranges[i]);
      RescaleAnchors(Ranges[i]);
    } else if actions[i] < -1.0 {
      RescaleStrictlyIncreasing(actions[i], -1.0, Ranges[i]);
      RescaleAnchors(Ranges[i]);
    }
  }

  /** Every value of a valid range is the image of some action in [-1, 1]. */
  lemma RescaleOnto(v: real, range: Range)
    requires range.Valid() && range.Contains(v)
    ensures exists a :: -1.0 <= a <= 1.0 && Rescale(a, range) == v
  {
    var a := Unscale(v, range);
    RescaleRoundTrip(a, v, range);
    RescaleContainedIff(a, range);
  }

  /** Every physical triple inside the three ranges is the output of some action in [-1, 1]^3. */
  lemma ConvertOnto(x: real, y: real, yaw: real)
    requires XRange.Contains(x) && YRange.Contains(y) && YawRange.Contains(yaw)
    ensures exists a: seq<real> :: |a| == 3 &&
              (forall i :: 0 <= i < 3 ==> -1.0 <= a[i] <= 1.0) &&
              ConvertActions(a) == Ok([x, y, yaw])
  {
    var a := [Unscale(x, XRange), Unscale(y, YRange), Unscale(yaw, YawRange)];
    RescaleRoundTrip(0.0, x, XRange);
    RescaleRoundTrip(0.0, y, YRange);
    RescaleRoundTrip(0.0, yaw, YawRange);
    assert ConvertActions(a).value == [x, y, yaw];
    forall i | 0 <= i < 3 ensures -1.0 <= a[i] <= 1.0 {
      RescaleContainedIff(a[i], Ranges[i]);
    }
  }

  /** Distinct actions give distinct outputs: the first three entries are determined by the result. */
  lemma ConvertInjective(a: seq<real>, b: seq<real>)
    requires |a| >= 3 && |b| >= 3
    requires ConvertActions(a) == ConvertActions(b)
    ensures a[..3] == b[..3]
  {
    forall i | 0 <= i < 3 ensures a[i] == b[i] {
      ConvertSlopes(a, b, i);
    }
  }
}
