/** Block-level buffer primitives of the audio engine (inc/utils/dsp.h).

    A `float *` with a `size` becomes a sequence of reals: each primitive
    works on the first `size` samples and returns the whole buffer, the
    samples from `size` on unchanged. Samples and gains are exact reals, so
    floating-point rounding is not modelled. Only the scalar loops are
    modelled, not the optional vectorised backend. The two differ for
    dsp_abs_max: the vectorised one returns the buffer's peak alone and
    ignores the incoming peak. */
module Dsp {

  /** glib's CLAMP: the upper bound is compared first, so with `lo > hi` a
      value above `hi` becomes `hi` and one below `lo` becomes `lo`. */
  function Clamp(x: real, lo: real, hi: real): (r: real)
    ensures lo <= hi ==> lo <= r <= hi
    ensures lo <= x <= hi ==> r == x
    ensures x > hi ==> r == hi
    ensures lo <= hi && x < lo ==> r == lo
    ensures x <= hi && x < lo ==> r == lo
  {
    if x > hi then hi else if x < lo then lo else x
  }

  function Abs(x: real): real
  {
    if x < 0.0 then -x else x
  }

  function Max(a: real, b: real): real
  {
    if a < b then b else a
  }

  /** FLT_EPSILON (2^-23), the tolerance of the plain float comparison. */
  const FltEpsilon: real := 0.00000011920928955078125

  /** Two floats count as equal when they lie strictly closer than `e`. */
  predicate FloatsEqualEpsilon(a: real, b: real, e: real)
  {
    if a > b then a - b < e else b - a < e
  }

  predicate FloatsEqual(a: real, b: real)
  {
    FloatsEqualEpsilon(a, b, FltEpsilon)
  }

  /** A left and a right channel of the same block. */
  datatype Stereo = Stereo(l: seq<real>, r: seq<real>)

  /** Both channels hold exactly `n` samples. */
  predicate Spans(s: Stereo, n: nat)
  {
    |s.l| == n && |s.r| == n
  }

  /** dsp_fill: every one of the first `size` samples becomes `val`. */
  function Fill(buf: seq<real>, val: real, size: nat): (r: seq<real>)
    requires size <= |buf|
    ensures |r| == |buf|
    ensures forall i :: 0 <= i < size ==> r[i] == val
    ensures r[size..] == buf[size..]
  {
    seq(|buf|, i requires 0 <= i < |buf| => if i < size then val else buf[i])
  }

  /** dsp_limit1: clamps the first `size` samples to [minf, maxf]. */
  function Limit1(buf: seq<real>, minf: real, maxf: real, size: nat): (r: seq<real>)
    requires size <= |buf|
    ensures |r| == |buf|
    ensures minf <= maxf ==> forall i :: 0 <= i < size ==> minf <= r[i] <= maxf
    ensures forall i :: 0 <= i < size && minf <= buf[i] <= maxf ==> r[i] == buf[i]
    ensures forall i :: 0 <= i < size && buf[i] > maxf ==> r[i] == maxf
    ensures minf <= maxf ==> forall i :: 0 <= i < size && buf[i] < minf ==> r[i] == minf
    ensures r[size..] == buf[size..]
  {
    seq(|buf|, i requires 0 <= i < |buf| => if i < size then Clamp(buf[i], minf, maxf) else buf[i])
  }

  /** Limiting twice is limiting once. */
  lemma Limit1Idempotent(buf: seq<real>, minf: real, maxf: real, size: nat)
    requires size <= |buf|
    requires minf <= maxf
    ensures Limit1(Limit1(buf, minf, maxf, size), minf, maxf, size) == Limit1(buf, minf, maxf, size)
  {
    var once := Limit1(buf, minf, maxf, size);
    var twice := Limit1(once, minf, maxf, size);
    assert forall i :: 0 <= i < |buf| ==> twice[i] == once[i] by {
      forall i | 0 <= i < |buf|
        ensures twice[i] == once[i]
      {
        if i >= size {
          assert twice[i] == twice[size..][i - size];
          assert once[i] == once[size..][i - size];
        }
      }
    }
  }

  /** A block already inside the range passes the limiter untouched. */
  lemma Limit1InRangeUnchanged(buf: seq<real>, minf: real, maxf: real, size: nat)
    requires size <= |buf|
    requires forall i :: 0 <= i < size ==> minf <= buf[i] <= maxf
    ensures Limit1(buf, minf, maxf, size) == buf
  {
    var r := Limit1(buf, minf, maxf, size);
    assert forall i :: 0 <= i < |buf| ==> r[i] == buf[i] by {
      forall i | 0 <= i < |buf|
        ensures r[i] == buf[i]
      {
        if i >= size {
          assert r[i] == r[size..][i - size];
        }
      }
    }
  }

  /** dsp_copy: a forward copy of the first `size` samples of `src`. */
  function Copy(dest: seq<real>, src: seq<real>, size: nat): (r: seq<real>)
    requires size <= |dest| && size <= |src|
    ensures |r| == |dest|
    ensures r[..size] == src[..size]
    ensures r[size..] == dest[size..]
  {
    src[..size] + dest[size..]
  }

  /** dsp_mul_k2: dest[i] = dest[i] * k. */
  function MulK2(dest: seq<real>, k: real, size: nat): (r: seq<real>)
    requires size <= |dest|
    ensures |r| == |dest|
    ensures forall i :: 0 <= i < size ==> r[i] == dest[i] * k
    ensures r[size..] == dest[size..]
  {
    seq(|dest|, i requires 0 <= i < |dest| => if i < size then dest[i] * k else dest[i])
  }

  /** Scaling by k1 then by k2 is scaling by k1 * k2. */
  lemma MulK2Compose(dest: seq<real>, k1: real, k2: real, size: nat)
    requires size <= |dest|
    ensures MulK2(MulK2(dest, k1, size), k2, size) == MulK2(dest, k1 * k2, size)
  {
    var a := MulK2(MulK2(dest, k1, size), k2, size);
    var b := MulK2(dest, k1 * k2, size);
    forall i | 0 <= i < |dest|
      ensures a[i] == b[i]
    {
      if i < size {
        assert a[i] == (dest[i] * k1) * k2;
      } else {
        assert a[i] == a[size..][i - size];
        assert b[i] == b[size..][i - size];
      }
    }
  }

  /** dsp_add2: dest[i] = dest[i] + src[i]. */
  function Add2(dest: seq<real>, src: seq<real>, size: nat): (r: seq<real>)
    requires size <= |dest| && size <= |src|
    ensures |r| == |dest|
    ensures forall i :: 0 <= i < size ==> r[i] == dest[i] + src[i]
    ensures r[size..] == dest[size..]
  {
    seq(|dest|, i requires 0 <= i < |dest| => if i < size then dest[i] + src[i] else dest[i])
  }

  /** dsp_mix2 (scalar path): dest[i] = dest[i] * k1 + src[i] * k2. */
  function Mix2(dest: seq<real>, src: seq<real>, k1: real, k2: real, size: nat): (r: seq<real>)
    requires size <= |dest| && size <= |src|
    ensures |r| == |dest|
    ensures forall i :: 0 <= i < size ==> r[i] == dest[i] * k1 + src[i] * k2
    ensures r[size..] == dest[size..]
  {
    seq(|dest|, i requires 0 <= i < |dest| => if i < size then dest[i] * k1 + src[i] * k2 else dest[i])
  }

  /** A mix is the sum of the two separately scaled buffers. */
  lemma Mix2IsScaledSum(dest: seq<real>, src: seq<real>, k1: real, k2: real, size: nat)
    requires size <= |dest| && size <= |src|
    ensures Mix2(dest, src, k1, k2, size) == Add2(MulK2(dest, k1, size), MulK2(src, k2, size), size)
  {
    var a := Mix2(dest, src, k1, k2, size);
    var b := Add2(MulK2(dest, k1, size), MulK2(src, k2, size), size);
    forall i | 0 <= i < |dest|
      ensures a[i] == b[i]
    {
      if i >= size {
        assert a[i] == a[size..][i - size];
        assert b[i] == b[size..][i - size];
        assert MulK2(dest, k1, size)[i] == MulK2(dest, k1, size)[size..][i - size];
      }
    }
  }

  /** dsp_mix_add2: dest[i] = dest[i] + src1[i] * k1 + src2[i] * k2. */
  function MixAdd2(dest: seq<real>, src1: seq<real>, src2: seq<real>, k1: real, k2: real, size: nat): (r: seq<real>)
    requires size <= |dest| && size <= |src1| && size <= |src2|
    ensures |r| == |dest|
    ensures forall i :: 0 <= i < size ==> r[i] == dest[i] + src1[i] * k1 + src2[i] * k2
    ensures r[size..] == dest[size..]
  {
    seq(|dest|, i requires 0 <= i < |dest| =>
      if i < size then dest[i] + src1[i] * k1 + src2[i] * k2 else dest[i])
  }

  /** A copy is a mix that drops `dest` and takes `src` at unity gain. */
  lemma CopyIsMix(dest: seq<real>, src: seq<real>, size: nat)
    requires size <= |dest| && size <= |src|
    ensures Copy(dest, src, size) == Mix2(dest, src, 0.0, 1.0, size)
  {
    var a := Copy(dest, src, size);
    var b := Mix2(dest, src, 0.0, 1.0, size);
    forall i | 0 <= i < |dest|
      ensures a[i] == b[i]
    {
      if i < size {
        assert a[i] == a[..size][i];
      } else {
        assert a[i] == a[size..][i - size];
        assert b[i] == b[size..][i - size];
      }
    }
  }

  /** A fill is a mix that drops `buf` and takes a constant buffer at unity gain. */
  lemma FillIsMix(buf: seq<real>, val: real, size: nat)
    requires size <= |buf|
    ensures Fill(buf, val, size) == Mix2(buf, seq(|buf|, _ => val), 0.0, 1.0, size)
  {
    var a := Fill(buf, val, size);
    var b := Mix2(buf, seq(|buf|, _ => val), 0.0, 1.0, size);
    forall i | 0 <= i < |buf|
      ensures a[i] == b[i]
    {
      if i >= size {
        assert a[i] == a[size..][i - size];
        assert b[i] == b[size..][i - size];
      }
    }
  }

  /** Adding a mix of two sources is adding their two-source mix. */
  lemma MixAdd2IsAddOfMix(dest: seq<real>, src1: seq<real>, src2: seq<real>, k1: real, k2: real, size: nat)
    requires size <= |dest| && size <= |src1| && size <= |src2|
    ensures MixAdd2(dest, src1, src2, k1, k2, size) == Add2(dest, Mix2(src1, src2, k1, k2, size), size)
  {
    var a := MixAdd2(dest, src1, src2, k1, k2, size);
    var b := Add2(dest, Mix2(src1, src2, k1, k2, size), size);
    forall i | 0 <= i < |dest|
      ensures a[i] == b[i]
    {
      if i >= size {
        assert a[i] == a[size..][i - size];
        assert b[i] == b[size..][i - size];
      }
    }
  }

  /** The sum coefficient of dsp_make_mono: (L+R) * 0.7079 for equal power
      (about -3 dB), (L+R) / 2 for equal amplitude (about -6.02 dB). */
  function MonoCoefficient(equalPower: bool): real
  {
    if equalPower then 0.7079 else 0.5
  }

  /** dsp_make_mono: both channels get coef * (l[i] + r[i]). */
  function MakeMono(s: Stereo, size: nat, equalPower: bool): (r: Stereo)
    requires size <= |s.l| && size <= |s.r|
    ensures |r.l| == |s.l| && |r.r| == |s.r|
    ensures forall i :: 0 <= i < size ==> r.l[i] == r.r[i]
    ensures forall i :: 0 <= i < size ==> r.l[i] == MonoCoefficient(equalPower) * (s.l[i] + s.r[i])
    ensures !equalPower ==> forall i :: 0 <= i < size ==> r.l[i] + r.r[i] == s.l[i] + s.r[i]
    ensures forall i :: 0 <= i < size && s.l[i] == s.r[i] ==> r.l[i] == MonoCoefficient(equalPower) * 2.0 * s.l[i]
    ensures r.l[size..] == s.l[size..] && r.r[size..] == s.r[size..]
  {
    var k := MonoCoefficient(equalPower);
    Stereo(
      seq(|s.l|, i requires 0 <= i < |s.l| => if i < size then k * (s.l[i] + s.r[i]) else s.l[i]),
      seq(|s.r|, i requires 0 <= i < |s.r| => if i < size then k * (s.l[i] + s.r[i]) else s.r[i]))
  }

  /** Equal-amplitude summing leaves a block that is already mono unchanged,
      so applying it twice is applying it once. */
  lemma MakeMonoEqualAmplitudeIdempotent(s: Stereo, size: nat)
    requires size <= |s.l| && size <= |s.r|
    ensures MakeMono(MakeMono(s, size, false), size, false) == MakeMono(s, size, false)
  {
    var once := MakeMono(s, size, false);
    var twice := MakeMono(once, size, false);
    forall i | 0 <= i < |s.l|
      ensures twice.l[i] == once.l[i]
    {
      if i >= size {
        assert twice.l[i] == twice.l[size..][i - size];
        assert once.l[i] == once.l[size..][i - size];
      }
    }
    forall i | 0 <= i < |s.r|
      ensures twice.r[i] == once.r[i]
    {
      if i >= size {
        assert twice.r[i] == twice.r[size..][i - size];
        assert once.r[i] == once.r[size..][i - size];
      }
    }
  }

  /** The peak a left-to-right scan of the first `size` samples leaves,
      starting from `cur`. */
  function Peak(buf: seq<real>, cur: real, size: nat): (p: real)
    requires size <= |buf|
    ensures p >= cur
    ensures forall i :: 0 <= i < size ==> Abs(buf[i]) <= p
    ensures p == cur || exists i :: 0 <= i < size && p == Abs(buf[i])
  {
    if size == 0 then cur else Max(Peak(buf, cur, size - 1), Abs(buf[size - 1]))
  }

  /** dsp_abs_max (scalar path): raises `curPeak` to the largest absolute
      sample and reports whether it moved by more than FLT_EPSILON. */
  method AbsMax(buf: seq<real>, curPeak: real, size: nat) returns (peak: real, changed: bool)
    requires size <= |buf|
    ensures peak == Peak(buf, curPeak, size)
    ensures peak >= curPeak
    ensures forall i :: 0 <= i < size ==> Abs(buf[i]) <= peak
    ensures peak == curPeak || exists i :: 0 <= i < size && peak == Abs(buf[i])
    ensures changed <==> !FloatsEqual(peak, curPeak)
  {
    peak := curPeak;
    var i := 0;
    while i < size
      invariant 0 <= i <= size
      invariant peak == Peak(buf, curPeak, i)
    {
      var val := Abs(buf[i]);
      if val > peak {
        peak := val;
      }
      i := i + 1;
    }
    changed := !FloatsEqual(peak, curPeak);
  }

  /** When no sample exceeds the incoming peak, the peak stays and no change
      is reported. */
  lemma {:induction false} PeakUnchangedWhenBelow(buf: seq<real>, cur: real, size: nat)
    requires size <= |buf|
    requires forall i :: 0 <= i < size ==> Abs(buf[i]) <= cur
    ensures Peak(buf, cur, size) == cur
    ensures FloatsEqual(Peak(buf, cur, size), cur)
  {
    if size > 0 {
      PeakUnchangedWhenBelow(buf, cur, size - 1);
    }
  }
}
