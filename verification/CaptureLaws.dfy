/** What the capture's arithmetic means: clamping, filtering, rounding and resampling (src/bin/edgemap/daemon/audio.rs). */
module CaptureLaws {
  import opened Model
  import opened Capture

  // ------------------------------------------------------------ one sample

  /** Four bytes of a quad as a sample: a finite value pulled into [-1, 1], anything else silence. */
  predicate SampleOf(x: real, read: FloatReader, bytes: Bytes) {
    && -1.0 <= x <= 1.0
    && match read(bytes)
       case None => x == 0.0
       case Some(y) => (-1.0 <= y <= 1.0 ==> x == y) && (y > 1.0 ==> x == 1.0) && (y < -1.0 ==> x == -1.0)
  }

  lemma SampleIs(read: FloatReader, bytes: Bytes)
    ensures SampleOf(Sample(read, bytes), read, bytes)
  {
  }

  /** The four channels of quad `i` are 16 bytes of the stream: front left, front right, rear left, rear right. */
  lemma Channels(read: FloatReader, stream: Bytes, i: nat)
    requires 16 * i + 16 <= |stream|
    ensures var front, rear := FrontOf(read, QuadAt(stream, i)), RearOf(read, QuadAt(stream, i));
            && SampleOf(front.left, read, stream[16 * i..16 * i + 4])
            && SampleOf(front.right, read, stream[16 * i + 4..16 * i + 8])
            && SampleOf(rear.left, read, stream[16 * i + 8..16 * i + 12])
            && SampleOf(rear.right, read, stream[16 * i + 12..16 * i + 16])
  {
    hide SampleOf, Sample;
    var quad := QuadAt(stream, i);
    SliceOfSlice(stream, 16 * i, 16 * i + 16, 0, 4);
    SliceOfSlice(stream, 16 * i, 16 * i + 16, 4, 8);
    SliceOfSlice(stream, 16 * i, 16 * i + 16, 8, 12);
    SliceOfSlice(stream, 16 * i, 16 * i + 16, 12, 16);
    SampleIs(read, quad[0..4]);
    SampleIs(read, quad[4..8]);
    SampleIs(read, quad[8..12]);
    SampleIs(read, quad[12..16]);
  }

  lemma {:induction false} RearAt(read: FloatReader, stream: Bytes, n: nat, i: nat)
    requires 16 * n <= |stream| && i < n
    ensures Rear(read, stream, n)[i] == RearOf(read, QuadAt(stream, i))
  {
    if i + 1 < n {
      RearAt(read, stream, n - 1, i);
    }
  }

  lemma {:induction false} FrontAt(read: FloatReader, stream: Bytes, from: nat, n: nat, i: nat)
    requires 16 * (from + n) <= |stream| && i < n
    ensures Front(read, stream, from, n)[i] == FrontOf(read, QuadAt(stream, from + i))
  {
    if i + 1 < n {
      FrontAt(read, stream, from, n - 1, i);
    }
  }

  // ------------------------------------------------------------ the filter

  /** Until the kth oldest sample of the window is summed, silence alone was. */
  lemma {:induction false} SumOfOne(coefficients: seq<real>, heard: seq<Stereo>, k: nat, n: nat)
    requires n <= 255 == |coefficients| && k < 255
    requires forall j :: 0 <= j < 255 && j != k ==> Windowed(heard, j) == Stereo(0.0, 0.0)
    ensures Dot(coefficients, heard, n)
            == if k < n then Stereo(coefficients[k] * Windowed(heard, k).left, coefficients[k] * Windowed(heard, k).right)
               else Stereo(0.0, 0.0)
  {
    if n > 0 {
      SumOfOne(coefficients, heard, k, n - 1);
    }
  }

  /**
   * The impulse response: a single sample heard `age` samples ago comes out weighted with coefficient
   * 254 - `age`, and once 255 samples have been heard from it on it no longer counts.
   */
  lemma Impulse(coefficients: seq<real>, heard: seq<Stereo>, p: nat)
    requires |coefficients| == 255 && p < |heard|
    requires forall j :: 0 <= j < |heard| && j != p ==> heard[j] == Stereo(0.0, 0.0)
    ensures var age := |heard| - 1 - p;
            Dot(coefficients, heard, 255)
            == if age < 255 then Stereo(coefficients[254 - age] * heard[p].left, coefficients[254 - age] * heard[p].right)
               else Stereo(0.0, 0.0)
  {
    hide Dot;
    var age := |heard| - 1 - p;
    if age < 255 {
      SumOfOne(coefficients, heard, 254 - age, 255);
    } else {
      SumOfOne(coefficients, heard, 0, 255);
      assert Windowed(heard, 0) == Stereo(0.0, 0.0);
      assert coefficients[0] * 0.0 == 0.0;
    }
  }

  function Plus(x: Stereo, y: Stereo): Stereo {
    Stereo(x.left + y.left, x.right + y.right)
  }

  function Sum(a: seq<Stereo>, b: seq<Stereo>): seq<Stereo>
    requires |a| == |b|
  {
    seq(|a|, i requires 0 <= i < |a| => Plus(a[i], b[i]))
  }

  function Scaled(c: real, x: Stereo): Stereo {
    Stereo(c * x.left, c * x.right)
  }

  lemma ScaledPlus(c: real, x: Stereo, y: Stereo)
    ensures Scaled(c, Plus(x, y)) == Plus(Scaled(c, x), Scaled(c, y))
  {
    Distribute(c, x.left, y.left);
    Distribute(c, x.right, y.right);
  }

  lemma Distribute(c: real, x: real, y: real)
    ensures c * (x + y) == c * x + c * y
  {
  }

  lemma DotStep(coefficients: seq<real>, heard: seq<Stereo>, n: nat)
    requires n < 255 == |coefficients|
    ensures Dot(coefficients, heard, n + 1) == Plus(Dot(coefficients, heard, n), Scaled(coefficients[n], Windowed(heard, n)))
  {
    hide Dot, Windowed;
    DotNext(coefficients, heard, n);
  }

  lemma PlusMiddle(p: Stereo, q: Stereo, r: Stereo, s: Stereo)
    ensures Plus(Plus(p, q), Plus(r, s)) == Plus(Plus(p, r), Plus(q, s))
  {
  }

  lemma SumWindowed(a: seq<Stereo>, b: seq<Stereo>, k: nat)
    requires |a| == |b| && k < 255
    ensures Windowed(Sum(a, b), k) == Plus(Windowed(a, k), Windowed(b, k))
  {
  }

  lemma SilentPlus()
    ensures Plus(SILENT, SILENT) == SILENT
  {
  }

  /** The filter is linear, so the impulse response says what it makes of any sound. */
  lemma {:induction false} Additive(coefficients: seq<real>, a: seq<Stereo>, b: seq<Stereo>, n: nat)
    requires n <= 255 == |coefficients| && |a| == |b|
    ensures Dot(coefficients, Sum(a, b), n) == Plus(Dot(coefficients, a, n), Dot(coefficients, b, n))
  {
    hide Dot, Windowed, Plus, Scaled, Sum;
    if n == 0 {
      DotNone(coefficients, a);
      DotNone(coefficients, b);
      DotNone(coefficients, Sum(a, b));
      SilentPlus();
    } else {
      var k := n - 1;
      Additive(coefficients, a, b, k);
      DotStep(coefficients, a, k);
      DotStep(coefficients, b, k);
      DotStep(coefficients, Sum(a, b), k);
      SumWindowed(a, b, k);
      ScaledPlus(coefficients[k], Windowed(a, k), Windowed(b, k));
      PlusMiddle(Dot(coefficients, a, k), Dot(coefficients, b, k),
                 Scaled(coefficients[k], Windowed(a, k)), Scaled(coefficients[k], Windowed(b, k)));
    }
  }

  /** Quantised to a signed byte: the nearest whole 128th, ties away from zero, out of range to the nearest end. */
  lemma Quantised(x: real)
    ensures var n, v := ToSigned(x), x * 128.0;
            && -128 <= n <= 127
            && (v >= 126.5 ==> n == 127) && (v <= -127.5 ==> n == -128)
            && (0.0 <= v < 126.5 ==> n as real - 0.5 <= v < n as real + 0.5)
            && (-127.5 < v < 0.0 ==> n as real - 0.5 < v <= n as real + 0.5)
  {
  }

  // --------------------------------------------------------- the resampler

  /** The point of a straight line `where` samples along. */
  function OnLine(at: Stereo, slope: Stereo, where: real): Stereo {
    Stereo(at.left + slope.left * where, at.right + slope.right * where)
  }

  predicate Straight(front: seq<Stereo>, at: Stereo, slope: Stereo) {
    forall j :: 0 <= j < |front| ==> front[j] == OnLine(at, slope, j as real)
  }

  lemma BetweenPoints(at: real, slope: real, j: real, fraction: real, p: real, q: real)
    requires p == at + slope * j && q == at + slope * (j + 1.0)
    ensures p * (1.0 - fraction) + q * fraction == at + slope * (j + fraction)
  {
    assert q == p + slope;
    assert p * (1.0 - fraction) + q * fraction == p + slope * fraction;
  }

  lemma MixOnLine(at: Stereo, slope: Stereo, j: real, fraction: real)
    ensures Mix(OnLine(at, slope, j), OnLine(at, slope, j + 1.0), fraction) == OnLine(at, slope, j + fraction)
  {
    var a, b := OnLine(at, slope, j), OnLine(at, slope, j + 1.0);
    BetweenPoints(at.left, slope.left, j, fraction, a.left, b.left);
    BetweenPoints(at.right, slope.right, j, fraction, a.right, b.right);
    hide OnLine;
    assert Mix(a, b, fraction).left == a.left * (1.0 - fraction) + b.left * fraction;
    assert Mix(a, b, fraction).right == a.right * (1.0 - fraction) + b.right * fraction;
  }

  lemma PlaceOf(i: nat)
    ensures (16 * i) as real / 15.0 == (16 * i / 15) as real + (16 * i % 15) as real / 15.0
  {
  }

  lemma PointIs(front: seq<Stereo>, i: nat)
    requires |front| == 512 && i < 480
    ensures |Resampled(front)| == 480
    ensures Resampled(front)[i] == Mix(front[16 * i / 15], front[16 * i / 15 + 1], (16 * i % 15) as real / 15.0)
  {
  }

  /** Point `i` of the 480 stands at 16/15 `i` of the 512: resampling a straight line gives that line there, exactly. */
  lemma StraightStays(front: seq<Stereo>, at: Stereo, slope: Stereo, i: nat)
    requires |front| == 512 && i < 480 && Straight(front, at, slope)
    ensures |Resampled(front)| == 480
    ensures Resampled(front)[i] == OnLine(at, slope, (16 * i) as real / 15.0)
  {
    hide Mix, OnLine, Resampled;
    var j := 16 * i / 15;
    assert (j + 1) as real == j as real + 1.0;
    MixOnLine(at, slope, j as real, (16 * i % 15) as real / 15.0);
    PlaceOf(i);
    PointIs(front, i);
  }

  /** Each point lies between its two neighbours and depends on no other sample. */
  lemma OnlyNeighbours(front: seq<Stereo>, front': seq<Stereo>, i: nat)
    requires |front| == |front'| == 512 && i < 480
    requires front[16 * i / 15] == front'[16 * i / 15] && front[16 * i / 15 + 1] == front'[16 * i / 15 + 1]
    ensures Resampled(front)[i] == Resampled(front')[i]
  {
  }

  /** A block is encoded exactly when it or one of the eight before it has a sample that is not silence. */
  lemma EncodedWithinEight(read: FloatReader, stream: Bytes, n: nat, total: nat)
    requires n < total && 16 * (512 * total) <= |stream|
    ensures Encodes(LoudBlocks(read, stream, total), n)
            <==> exists j :: 0 <= j <= n && n <= j + 8 && LoudBlocks(read, stream, total)[j]
  {
    hide Encodes, LoudBlocks;
    EncodesNearLoud(LoudBlocks(read, stream, total), n);
  }

  /** A block counts as loud when any of its 512 front samples, left or right, is not zero. */
  lemma {:induction false} LoudMeans(read: FloatReader, stream: Bytes, total: nat, k: nat)
    requires k < total && 16 * (512 * total) <= |stream|
    ensures LoudBlocks(read, stream, total)[k]
            <==> exists i :: 512 * k <= i < 512 * k + 512 && FrontOf(read, QuadAt(stream, i)) != Stereo(0.0, 0.0)
    decreases total
  {
    if k + 1 < total {
      LoudMeans(read, stream, total - 1, k);
    } else {
      var front := Front(read, stream, 512 * k, 512);
      forall i | 0 <= i < 512 ensures front[i] == FrontOf(read, QuadAt(stream, 512 * k + i)) {
        FrontAt(read, stream, 512 * k, 512, i);
      }
      if i :| 512 * k <= i < 512 * k + 512 && FrontOf(read, QuadAt(stream, i)) != Stereo(0.0, 0.0) {
        assert front[i - 512 * k] != SILENT;
      }
    }
  }
}
