/**
 * Joint limits of a kinematic joint: clamping, clipping (saturating or
 * wrapping), validity check and stepping of joint-position vectors.
 *
 * Positions are modelled over `real`: the operations only compare, assign,
 * add and subtract, so apart from rounding (and NaN, which reals do not
 * have) they behave as the float64 code does.
 */
module Kinematics {

  function Abs(x: real): (r: real)
    ensures r >= 0.0 && (r == x || r == -x)
  {
    if x < 0.0 then -x else x
  }

  // ---------------------------------------------------------------------
  // Clamp

  /** The reads Clamp makes at index `i` stay within `lo`, `hi` and
      `wrap`: the wraparound flag always, `lo[i]` only at a non-wraparound
      index, and `hi[i]` only when the entry is not below `lo[i]`. */
  predicate ClampReadsAt(v: real, lo: seq<real>, hi: seq<real>, wrap: seq<bool>, i: nat)
  {
    i < |wrap| && (!wrap[i] ==> i < |lo| && (v >= lo[i] ==> i < |hi|))
  }

  /** Clamp reads no slice past its end, for any index of `p`. */
  predicate ClampReadsOk(p: seq<real>, lo: seq<real>, hi: seq<real>, wrap: seq<bool>)
  {
    forall i :: 0 <= i < |p| ==> ClampReadsAt(p[i], lo, hi, wrap, i)
  }

  /** What Clamp stores at index `i`: wraparound entries are left alone,
      the others are raised to `lo[i]` or lowered to `hi[i]`, `lo[i]`
      tested first. */
  function ClampEntry(v: real, lo: seq<real>, hi: seq<real>, wrap: seq<bool>, i: nat): real
    requires ClampReadsAt(v, lo, hi, wrap, i)
  {
    if wrap[i] then v
    else if v < lo[i] then lo[i]
    else if v > hi[i] then hi[i]
    else v
  }

  /** The vector Clamp leaves behind, index by index. */
  function ClampSeq(p: seq<real>, lo: seq<real>, hi: seq<real>, wrap: seq<bool>): seq<real>
    requires ClampReadsOk(p, lo, hi, wrap)
  {
    seq(|p|, i requires 0 <= i < |p| => ClampEntry(p[i], lo, hi, wrap, i))
  }

  /** Every entry of `p` has limits and lies within them (what IsValid
      checks). */
  predicate InLimits(p: seq<real>, lo: seq<real>, hi: seq<real>)
  {
    forall i :: 0 <= i < |p| ==> i < |lo| && i < |hi| && lo[i] <= p[i] <= hi[i]
  }

  /** No index below `n` is a wraparound index. */
  predicate NoWraparound(wrap: seq<bool>, n: nat)
    requires |wrap| >= n
  {
    forall i :: 0 <= i < n ==> !wrap[i]
  }

  /** The limits at every index below `n` form a non-empty interval. */
  predicate Ordered(lo: seq<real>, hi: seq<real>, n: nat)
    requires |lo| >= n && |hi| >= n
  {
    forall i :: 0 <= i < n ==> lo[i] <= hi[i]
  }

  lemma ClampWithinLimits(p: seq<real>, lo: seq<real>, hi: seq<real>, wrap: seq<bool>)
    requires |lo| >= |p| && |hi| >= |p| && |wrap| >= |p|
    requires Ordered(lo, hi, |p|)
    ensures forall i :: 0 <= i < |p| && !wrap[i] ==>
      lo[i] <= ClampSeq(p, lo, hi, wrap)[i] <= hi[i]
  {
  }

  lemma ClampKeepsWraparoundAndInRange(p: seq<real>, lo: seq<real>, hi: seq<real>, wrap: seq<bool>)
    requires |lo| >= |p| && |hi| >= |p| && |wrap| >= |p|
    ensures |ClampSeq(p, lo, hi, wrap)| == |p|
    ensures forall i :: 0 <= i < |p| && wrap[i] ==> ClampSeq(p, lo, hi, wrap)[i] == p[i]
    ensures forall i :: 0 <= i < |p| && lo[i] <= p[i] <= hi[i] ==> ClampSeq(p, lo, hi, wrap)[i] == p[i]
  {
  }

  lemma ClampIdempotent(p: seq<real>, lo: seq<real>, hi: seq<real>, wrap: seq<bool>)
    requires |lo| >= |p| && |hi| >= |p| && |wrap| >= |p|
    requires Ordered(lo, hi, |p|)
    ensures ClampSeq(ClampSeq(p, lo, hi, wrap), lo, hi, wrap) == ClampSeq(p, lo, hi, wrap)
  {
    var c := ClampSeq(p, lo, hi, wrap);
    forall i | 0 <= i < |p|
      ensures ClampSeq(c, lo, hi, wrap)[i] == c[i]
    {
    }
  }

  /** With no wraparound index and ordered limits, a clamped vector is valid. */
  lemma ClampMakesValid(p: seq<real>, lo: seq<real>, hi: seq<real>, wrap: seq<bool>)
    requires |lo| >= |p| && |hi| >= |p| && |wrap| >= |p|
    requires Ordered(lo, hi, |p|) && NoWraparound(wrap, |p|)
    ensures InLimits(ClampSeq(p, lo, hi, wrap), lo, hi)
  {
  }

  // ---------------------------------------------------------------------
  // Clip

  /** Clip's wrap loops stop: a zero range only when the value already
      sits at the (single) limit. */
  predicate WrapTerminates(v: real, lo: real, hi: real)
  {
    lo != hi || v == lo
  }

  /** The first wrap loop of Clip: subtract `r` while above `hi`. */
  function WrapDown(v: real, hi: real, r: real): (d: real)
    requires r > 0.0 || v <= hi
    ensures d <= hi && (v <= hi ==> d == v)
    decreases if v > hi then ((v - hi) / r).Floor + 1 else 0
  {
    if v > hi then
      MeasureStep(v - hi, r);
      assert v - r - hi == (v - hi) - r;
      WrapDown(v - r, hi, r)
    else v
  }

  /** The second wrap loop of Clip: add `r` while below `lo`. */
  function WrapUp(v: real, lo: real, r: real): (u: real)
    requires r > 0.0 || v >= lo
    ensures u >= lo && (v >= lo ==> u == v)
    decreases if v < lo then ((lo - v) / r).Floor + 1 else 0
  {
    if v < lo then
      MeasureStep(lo - v, r);
      assert lo - (v + r) == (lo - v) - r;
      WrapUp(v + r, lo, r)
    else v
  }

  /** Taking one range `r` off a positive distance `a` lowers the floor of
      `a / r` by one and keeps it non-negative: the measure of both wrap
      loops. */
  lemma MeasureStep(a: real, r: real)
    requires r > 0.0 && a > 0.0
    ensures (a / r).Floor >= 0 && ((a - r) / r).Floor == (a / r).Floor - 1
  {
    var q := a / r;
    var p := (a - r) / r;
    assert q * r == a;
    assert p * r == a - r;
    var d := p - q + 1.0;
    assert d * r == 0.0;
    assert d == 0.0;
    assert q > 0.0;
  }

  /** What Clip stores at one index below the joint's position count. */
  function ClipValue(v: real, lo: real, hi: real, wrap: bool): real
    requires wrap ==> WrapTerminates(v, lo, hi)
  {
    if wrap then
      var r := Abs(hi - lo);
      WrapUp(WrapDown(v, hi, r), lo, r)
    else if v > hi then hi
    else if v < lo then lo
    else v
  }

  /** The vector Clip leaves behind: indices from `dof` on are untouched. */
  function ClipSeq(q: seq<real>, lo: seq<real>, hi: seq<real>, wrap: seq<bool>, dof: nat): (r: seq<real>)
    requires dof <= |q| && |lo| >= dof && |hi| >= dof && |wrap| >= dof
    requires forall i :: 0 <= i < dof && wrap[i] ==> WrapTerminates(q[i], lo[i], hi[i])
    ensures |r| == |q| && r[dof..] == q[dof..]
  {
    seq(|q|, i requires 0 <= i < |q| =>
      if i < dof then ClipValue(q[i], lo[i], hi[i], wrap[i]) else q[i])
  }

  lemma {:induction false} WrapDownShift(v: real, hi: real, r: real) returns (k: nat)
    requires r > 0.0 || v <= hi
    ensures WrapDown(v, hi, r) <= hi
    ensures WrapDown(v, hi, r) == v - (k as real) * r
    ensures v > hi ==> WrapDown(v, hi, r) > hi - r
    decreases if v > hi then ((v - hi) / r).Floor + 1 else 0
  {
    if v > hi {
      MeasureStep(v - hi, r);
      assert v - r - hi == (v - hi) - r;
      var k' := WrapDownShift(v - r, hi, r);
      k := k' + 1;
      assert (k as real) * r == (k' as real) * r + r;
    } else {
      k := 0;
    }
  }

  lemma {:induction false} WrapUpShift(v: real, lo: real, r: real) returns (k: nat)
    requires r > 0.0 || v >= lo
    ensures WrapUp(v, lo, r) >= lo
    ensures WrapUp(v, lo, r) == v + (k as real) * r
    ensures v < lo ==> WrapUp(v, lo, r) < lo + r
    decreases if v < lo then ((lo - v) / r).Floor + 1 else 0
  {
    if v < lo {
      MeasureStep(lo - v, r);
      assert lo - (v + r) == (lo - v) - r;
      var k' := WrapUpShift(v + r, lo, r);
      k := k' + 1;
      assert (k as real) * r == (k' as real) * r + r;
    } else {
      k := 0;
    }
  }

  /** For a wraparound index with `lo < hi`, Clip lands in `[lo, hi]`,
      shifted from the input by a whole number of ranges. */
  lemma ClipWrapInRange(v: real, lo: real, hi: real) returns (k: int)
    requires lo < hi
    ensures lo <= ClipValue(v, lo, hi, true) <= hi
    ensures ClipValue(v, lo, hi, true) == v + (k as real) * (hi - lo)
  {
    var r := hi - lo;
    var down := WrapDownShift(v, hi, r);
    var d := WrapDown(v, hi, r);
    var up := WrapUpShift(d, lo, r);
    if d >= lo {
      assert (up as real) * r == 0.0;
      assert up == 0;
    }
    k := (up as int) - (down as int);
    assert (k as real) * r == (up as real) * r - (down as real) * r;
  }

  /** Below `dof`, a non-wraparound entry is saturated exactly as Clamp does. */
  lemma ClipSaturatesLikeClamp(q: seq<real>, lo: seq<real>, hi: seq<real>, wrap: seq<bool>, dof: nat)
    requires dof <= |q| && |lo| >= |q| && |hi| >= |q| && |wrap| >= |q|
    requires forall i :: 0 <= i < dof && wrap[i] ==> WrapTerminates(q[i], lo[i], hi[i])
    requires Ordered(lo, hi, dof)
    ensures forall i :: 0 <= i < dof && !wrap[i] ==>
      ClipSeq(q, lo, hi, wrap, dof)[i] == ClampSeq(q, lo, hi, wrap)[i]
  {
  }

  /** With reversed limits (`hi < lo`) at a non-wraparound index, Clip and
      Clamp still agree on an entry outside the gap between them; inside
      it Clip lowers the entry to `hi` while Clamp raises it to `lo`. */
  lemma ClipClampReversedLimits(q: seq<real>, lo: seq<real>, hi: seq<real>, wrap: seq<bool>, dof: nat, i: nat)
    requires dof <= |q| && |lo| >= |q| && |hi| >= |q| && |wrap| >= |q|
    requires forall k :: 0 <= k < dof && wrap[k] ==> WrapTerminates(q[k], lo[k], hi[k])
    requires i < dof && !wrap[i] && hi[i] < lo[i]
    ensures ClipSeq(q, lo, hi, wrap, dof)[i] == ClampSeq(q, lo, hi, wrap)[i] <==> q[i] <= hi[i] || q[i] >= lo[i]
    ensures hi[i] < q[i] < lo[i] ==>
      ClipSeq(q, lo, hi, wrap, dof)[i] == hi[i] && ClampSeq(q, lo, hi, wrap)[i] == lo[i]
  {
  }

  /** With ordered limits, and a strictly ordered interval at every
      wraparound index, every clipped entry below `dof` is within limits. */
  lemma ClipWithinLimits(q: seq<real>, lo: seq<real>, hi: seq<real>, wrap: seq<bool>, dof: nat)
    requires dof <= |q| && |lo| >= dof && |hi| >= dof && |wrap| >= dof
    requires Ordered(lo, hi, dof)
    requires forall i :: 0 <= i < dof && wrap[i] ==> lo[i] < hi[i]
    ensures InLimits(ClipSeq(q, lo, hi, wrap, dof)[..dof], lo, hi)
  {
    var c := ClipSeq(q, lo, hi, wrap, dof);
    forall i | 0 <= i < dof
      ensures lo[i] <= c[..dof][i] <= hi[i]
    {
      if wrap[i] {
        var _ := ClipWrapInRange(q[i], lo[i], hi[i]);
      }
    }
  }

  // ---------------------------------------------------------------------
  // The joint

  class Joint {
    var min: seq<real>
    var max: seq<real>
    var wraparound: seq<bool>
    var position: seq<real>

    /** NewJoint: `dPos` position slots, none a wraparound one; the limits
        are left empty (nil) until the joint's model fills them in. */
    constructor (dPos: nat)
      ensures wraparound == seq(dPos, _ => false)
      ensures position == seq(dPos, _ => 0.0)
      ensures min == [] && max == []
    {
      wraparound := seq(dPos, _ => false);
      position := seq(dPos, _ => 0.0);
      min, max := [], [];
    }

    /** GetDofPosition: the length of the position vector, not of a
        vector passed in. */
    function DofPosition(): nat
      reads this
    {
      |position|
    }

    method Clamp(posvec: array<real>) returns (r: array<real>)
      requires ClampReadsOk(posvec[..], min, max, wraparound)
      modifies posvec
      ensures r == posvec
      ensures posvec[..] == ClampSeq(old(posvec[..]), min, max, wraparound)
    {
      var i := 0;
      while i < posvec.Length
        invariant 0 <= i <= posvec.Length
        invariant forall k :: 0 <= k < i ==>
          ClampReadsAt(old(posvec[k]), min, max, wraparound, k) &&
          posvec[k] == ClampEntry(old(posvec[k]), min, max, wraparound, k)
        invariant forall k :: i <= k < posvec.Length ==> posvec[k] == old(posvec[k])
      {
        var v := posvec[i];
        assert ClampReadsAt(old(posvec[..])[i], min, max, wraparound, i);
        if wraparound[i] {
          // wraparound entries are not clamped
        } else {
          if v < min[i] {
            posvec[i] := min[i];
          } else if v > max[i] {
            posvec[i] := max[i];
          }
        }
        i := i + 1;
      }
      r := posvec;
    }

    method Clip(q: array<real>)
      requires q.Length >= |position|
      requires |wraparound| >= |position| && |min| >= |position| && |max| >= |position|
      requires forall i :: 0 <= i < |position| && wraparound[i] ==> WrapTerminates(q[i], min[i], max[i])
      modifies q
      ensures q[..] == ClipSeq(old(q[..]), min, max, wraparound, |position|)
    {
      var i := 0;
      while i < DofPosition()
        invariant 0 <= i <= |position|
        invariant forall k :: 0 <= k < i ==>
          q[k] == ClipValue(old(q[k]), min[k], max[k], wraparound[k])
        invariant forall k :: i <= k < q.Length ==> q[k] == old(q[k])
      {
        if wraparound[i] {
          var jRange := Abs(max[i] - min[i]);
          // q[i] is held in `x` while it is shifted, then stored back
          var x := q[i];
          while x > max[i]
            modifies {}
            invariant jRange > 0.0 || x <= max[i]
            invariant WrapDown(x, max[i], jRange) == WrapDown(q[i], max[i], jRange)
            decreases if x > max[i] then ((x - max[i]) / jRange).Floor + 1 else 0
          {
            MeasureStep(x - max[i], jRange);
            assert x - jRange - max[i] == (x - max[i]) - jRange;
            x := x - jRange;
          }
          ghost var down := x;
          while x < min[i]
            modifies {}
            invariant jRange > 0.0 || x >= min[i]
            invariant WrapUp(x, min[i], jRange) == WrapUp(down, min[i], jRange)
            decreases if x < min[i] then ((min[i] - x) / jRange).Floor + 1 else 0
          {
            MeasureStep(min[i] - x, jRange);
            assert min[i] - (x + jRange) == (min[i] - x) - jRange;
            x := x + jRange;
          }
          q[i] := x;
        } else if q[i] > max[i] {
          q[i] := max[i];
        } else if q[i] < min[i] {
          q[i] := min[i];
        }
        i := i + 1;
      }
    }

    /** The loop stops at the first entry out of its limits, and `max[i]`
        is read only when `posvec[i]` is not below `min[i]`: a short limit
        slice is read past its end only at an index all of whose
        predecessors are within limits. */
    method IsValid(posvec: array<real>) returns (ok: bool)
      requires forall i :: 0 <= i < posvec.Length ==>
        InLimits(posvec[..i], min, max) ==> i < |min| && (posvec[i] >= min[i] ==> i < |max|)
      ensures ok == InLimits(posvec[..], min, max)
    {
      var i := 0;
      while i < posvec.Length
        invariant 0 <= i <= posvec.Length
        invariant InLimits(posvec[..i], min, max)
      {
        assert i < |min| && (posvec[i] >= min[i] ==> i < |max|);
        if posvec[i] < min[i] || posvec[i] > max[i] {
          assert posvec[..][i] == posvec[i];
          return false;
        }
        assert posvec[..i + 1] == posvec[..i] + [posvec[i]];
        i := i + 1;
      }
      assert posvec[..i] == posvec[..];
      return true;
    }

    method Step(posvec: array<real>, dpos: array<real>) returns (posvec2: array<real>)
      requires dpos.Length >= posvec.Length
      ensures fresh(posvec2) && posvec2.Length == posvec.Length
      ensures forall i :: 0 <= i < posvec.Length ==> posvec2[i] == posvec[i] + dpos[i]
    {
      posvec2 := new real[posvec.Length];
      var i := 0;
      while i < posvec.Length
        invariant 0 <= i <= posvec.Length
        invariant forall k :: 0 <= k < i ==> posvec2[k] == posvec[k] + dpos[k]
      {
        posvec2[i] := posvec[i] + dpos[i];
        i := i + 1;
      }
    }
  }
}
