/** Audio capture: rear-channel filtering, front-channel resampling and block framing (src/bin/edgemap/daemon/audio.rs, audio/speaker.rs). */
module Capture {
  import opened Model

  type Bytes = seq<Byte>

  datatype Stereo = Stereo(left: real, right: real)

  const SILENT: Stereo := Stereo(0.0, 0.0)

  const TAPS: nat := 255

  const DECIMATION: nat := 16

  const BLOCK: nat := 512

  const QUAD: nat := 16

  const RESAMPLED: nat := 480

  /** How four bytes read as a float; None stands for an infinity or a NaN. */
  type FloatReader = Bytes -> Option<real>

  function Clamp(x: real): real {
    if x < -1.0 then -1.0 else if 1.0 < x then 1.0 else x
  }

  function Sample(read: FloatReader, bytes: Bytes): real {
    match read(bytes)
    case Some(x) => Clamp(x)
    case None => 0.0
  }

  function FrontOf(read: FloatReader, quad: Bytes): Stereo
    requires |quad| == QUAD
  {
    Stereo(Sample(read, quad[0..4]), Sample(read, quad[4..8]))
  }

  function RearOf(read: FloatReader, quad: Bytes): Stereo
    requires |quad| == QUAD
  {
    Stereo(Sample(read, quad[8..12]), Sample(read, quad[12..16]))
  }

  // ------------------------------------------------------------ the filter

  /** The kth oldest of the last 255 samples, zero before there were that many. */
  function Windowed(heard: seq<Stereo>, k: nat): Stereo
    requires k < TAPS
  {
    if |heard| + k < TAPS then SILENT else heard[|heard| + k - TAPS]
  }

  function Dot(coefficients: seq<real>, heard: seq<Stereo>, n: nat): Stereo
    requires n <= TAPS == |coefficients|
  {
    if n == 0 then SILENT else
    var before, x := Dot(coefficients, heard, n - 1), Windowed(heard, n - 1);
    Stereo(before.left + coefficients[n - 1] * x.left, before.right + coefficients[n - 1] * x.right)
  }

  lemma DotNone(coefficients: seq<real>, heard: seq<Stereo>)
    requires |coefficients| == TAPS
    ensures Dot(coefficients, heard, 0) == SILENT
  {
  }

  lemma DotNext(coefficients: seq<real>, heard: seq<Stereo>, n: nat)
    requires n < TAPS == |coefficients|
    ensures var before, x := Dot(coefficients, heard, n), Windowed(heard, n);
            Dot(coefficients, heard, n + 1)
            == Stereo(before.left + coefficients[n] * x.left, before.right + coefficients[n] * x.right)
  {
  }

  /** Rounds half away from zero, then clamps to a signed byte. */
  function ToSigned(x: real): int {
    var scaled := x * 128.0;
    var rounded := if scaled >= 0.0 then (scaled + 0.5).Floor else -((0.5 - scaled).Floor);
    if rounded < -128 then -128 else if 127 < rounded then 127 else rounded
  }

  /** One retained output: the rounded dot product of the coefficients with the last 255 samples. */
  function Filtered(coefficients: seq<real>, heard: seq<Stereo>): (int, int)
    requires |coefficients| == TAPS
  {
    var sum := Dot(coefficients, heard, TAPS);
    (ToSigned(sum.left), ToSigned(sum.right))
  }

  class RearPcm {
    const read: FloatReader
    const coefficients: seq<real>
    const history: array<Stereo>
    var cursor: nat
    var phase: nat
    /** Every rear sample pushed so far. */
    ghost var heard: seq<Stereo>

    ghost predicate Valid()
      reads this, history
    {
      && |coefficients| == TAPS && history.Length == TAPS
      && cursor < TAPS && phase == |heard| % DECIMATION
      && forall k :: 0 <= k < TAPS ==> history[(cursor + k) % TAPS] == Windowed(heard, k)
    }

    constructor (read: FloatReader, coefficients: seq<real>)
      requires |coefficients| == TAPS
      ensures Valid() && fresh(history) && heard == []
      ensures this.read == read && this.coefficients == coefficients
    {
      this.read, this.coefficients := read, coefficients;
      history := new Stereo[TAPS](_ => SILENT);
      cursor, phase, heard := 0, 0, [];
    }

    method Push(quad: Bytes) returns (out: Option<(int, int)>)
      requires Valid() && |quad| == QUAD
      modifies this, history
      ensures Valid()
      ensures heard == old(heard) + [RearOf(read, quad)]
      ensures out == if |heard| % DECIMATION == 0 then Some(Filtered(coefficients, heard)) else None
    {
      hide Dot, ToSigned, Windowed, Sample;
      Store(RearOf(read, quad));
      phase := phase + 1;
      if phase != DECIMATION {
        return None;
      }
      phase := 0;
      var sum := Convolve();
      return Some((ToSigned(sum.left), ToSigned(sum.right)));
    }

    /** The sum over the whole history, oldest sample first. */
    method Convolve() returns (sum: Stereo)
      requires Valid()
      ensures sum == Dot(coefficients, heard, TAPS)
    {
      hide Windowed, Dot;
      DotNone(coefficients, heard);
      sum := SILENT;
      for i := 0 to TAPS
        invariant sum == Dot(coefficients, heard, i)
      {
        var sample := history[(cursor + i) % TAPS];
        assert sample == Windowed(heard, i);
        DotNext(coefficients, heard, i);
        sum := Stereo(sum.left + coefficients[i] * sample.left, sum.right + coefficients[i] * sample.right);
      }
    }

    /** Overwrites the oldest sample; the window slides by one. */
    method Store(sample: Stereo)
      requires Valid()
      modifies this`cursor, this`heard, history
      ensures heard == old(heard) + [sample]
      ensures cursor < TAPS
      ensures forall k :: 0 <= k < TAPS ==> history[(cursor + k) % TAPS] == Windowed(heard, k)
    {
      ghost var c := cursor;
      history[cursor] := sample;
      cursor := (cursor + 1) % TAPS;
      heard := heard + [sample];
      forall k | 0 <= k < TAPS ensures history[(cursor + k) % TAPS] == Windowed(heard, k) {
        Slide(c, k);
        if k + 1 < TAPS {
          assert old(history[(c + (k + 1)) % TAPS]) == Windowed(old(heard), k + 1);
        }
      }
    }
  }

  /** After the cursor moves on, position `k` is where position `k + 1` was. */
  lemma Slide(c: nat, k: nat)
    requires c < 255 && k < 255
    ensures ((c + 1) % 255 + k) % 255 == (c + (k + 1)) % 255
    ensures (c + (k + 1)) % 255 == c <==> k == 254
  {
  }

  // ----------------------------------------------------------- the speaker

  predicate Loud(front: seq<Stereo>) {
    exists i :: 0 <= i < |front| && front[i] != SILENT
  }

  function Mix(a: Stereo, b: Stereo, fraction: real): Stereo {
    Stereo(a.left * (1.0 - fraction) + b.left * fraction, a.right * (1.0 - fraction) + b.right * fraction)
  }

  /** 512 samples read at 480 evenly spaced points: point `i` lies at `16 i / 15`. */
  function Resampled(front: seq<Stereo>): (pcm: seq<Stereo>)
    requires |front| == BLOCK
    ensures |pcm| == RESAMPLED
  {
    seq(RESAMPLED, i requires 0 <= i < RESAMPLED => PointAt(front, i))
  }

  function PointAt(front: seq<Stereo>, i: nat): Stereo
    requires |front| == BLOCK && i < RESAMPLED
  {
    Mix(front[i * 16 / 15], front[i * 16 / 15 + 1], (i * 16 % 15) as real / 15.0)
  }

  const FLUSH_BLOCKS: nat := 8

  /** The silent-tail counter after a block. */
  function NextTail(tail: nat, loud: bool): nat {
    if loud then FLUSH_BLOCKS else if tail > 0 then tail - 1 else 0
  }

  datatype Finished = Quiet | Packet(pcm: seq<Stereo>) | EncoderFailed

  class Speaker {
    const read: FloatReader
    const front: array<Stereo>
    var used: nat
    var silentTail: nat

    ghost predicate Valid()
      reads this
    {
      front.Length == BLOCK && used <= BLOCK
    }

    constructor (read: FloatReader)
      ensures Valid() && fresh(front) && used == 0 && silentTail == 0 && this.read == read
    {
      this.read := read;
      front := new Stereo[BLOCK](_ => SILENT);
      used, silentTail := 0, 0;
    }

    /** Indexing past the block buffer would panic in the source; the precondition excludes it. */
    method Push(quad: Bytes)
      requires Valid() && used < BLOCK && |quad| == QUAD
      modifies this`used, front
      ensures Valid() && used == old(used) + 1
      ensures front[..used] == old(front[..used]) + [FrontOf(read, quad)]
    {
      front[used] := FrontOf(read, quad);
      used := used + 1;
    }

    /** The source asserts a full block; `encodes` is whether the encoder, if asked, yields a packet. */
    method FinishBlock(encodes: bool) returns (r: Finished)
      requires Valid() && used == BLOCK
      modifies this`used, this`silentTail
      ensures Valid() && used == 0
      ensures silentTail == NextTail(old(silentTail), Loud(front[..]))
      ensures r == if !Loud(front[..]) && old(silentTail) == 0 then Quiet
                   else if encodes then Packet(Resampled(front[..])) else EncoderFailed
    {
      used := 0;
      var loud := exists i :: 0 <= i < front.Length && front[i] != SILENT;
      if loud {
        assert Loud(front[..]);
        silentTail := FLUSH_BLOCKS;
      } else if silentTail != 0 {
        silentTail := silentTail - 1;
      } else {
        return Quiet;
      }
      var pcm: seq<Stereo> := [];
      for i := 0 to RESAMPLED
        invariant |pcm| == i && forall j :: 0 <= j < i ==> pcm[j] == PointAt(front[..], j)
      {
        var index := i * 16 / 15;
        var fraction := (i * 16 % 15) as real / 15.0;
        pcm := pcm + [Mix(front[index], front[index + 1], fraction)];
      }
      assert pcm == Resampled(front[..]);
      return if encodes then Packet(pcm) else EncoderFailed;
    }
  }

  function TailAfter(loud: seq<bool>): nat {
    if loud == [] then 0 else NextTail(TailAfter(loud[..|loud| - 1]), loud[|loud| - 1])
  }

  /** A block is encoded. */
  predicate Encodes(loud: seq<bool>, n: nat)
    requires n < |loud|
  {
    loud[n] || TailAfter(loud[..n]) > 0
  }

  /** One of the last `k + 1` blocks was loud. */
  predicate RecentlyLoud(loud: seq<bool>, k: nat) {
    exists j :: 0 <= j < |loud| && |loud| <= j + 1 + k && loud[j]
  }

  lemma TailBounded(loud: seq<bool>)
    ensures TailAfter(loud) <= FLUSH_BLOCKS
  {
  }

  /** The tail counts down from the last loud block. */
  lemma {:induction false} TailCounts(loud: seq<bool>, k: nat)
    requires k < FLUSH_BLOCKS
    ensures TailAfter(loud) + k >= FLUSH_BLOCKS <==> RecentlyLoud(loud, k)
  {
    if loud != [] && !loud[|loud| - 1] {
      var init := loud[..|loud| - 1];
      TailBounded(init);
      if k > 0 {
        TailCounts(init, k - 1);
        if j :| 0 <= j < |init| && |init| <= j + 1 + (k - 1) && init[j] {
          assert loud[j];
        }
        if j :| 0 <= j < |loud| && |loud| <= j + 1 + k && loud[j] {
          assert init[j];
        }
      }
    }
  }

  /** The speaker stays on for exactly eight silent blocks after the last loud one. */
  lemma EncodesNearLoud(loud: seq<bool>, n: nat)
    requires n < |loud|
    ensures Encodes(loud, n) <==> exists j :: 0 <= j <= n && n <= j + FLUSH_BLOCKS && loud[j]
  {
    var init := loud[..n];
    TailCounts(init, FLUSH_BLOCKS - 1);
    if j :| 0 <= j <= n && n <= j + FLUSH_BLOCKS && loud[j] {
      assert j < n ==> init[j];
    }
    if j :| 0 <= j < |init| && |init| <= j + 1 + (FLUSH_BLOCKS - 1) && init[j] {
      assert loud[j];
    }
  }

  // ------------------------------------------------------------ the framing

  function QuadAt(stream: Bytes, i: nat): Bytes
    requires QUAD * i + QUAD <= |stream|
  {
    stream[QUAD * i..QUAD * i + QUAD]
  }

  /** The rear samples of the first `n` quads of the stream. */
  function Rear(read: FloatReader, stream: Bytes, n: nat): (r: seq<Stereo>)
    requires QUAD * n <= |stream|
    ensures |r| == n
  {
    if n == 0 then [] else Rear(read, stream, n - 1) + [RearOf(read, QuadAt(stream, n - 1))]
  }

  function Front(read: FloatReader, stream: Bytes, from: nat, n: nat): (r: seq<Stereo>)
    requires QUAD * (from + n) <= |stream|
    ensures |r| == n
  {
    if n == 0 then [] else Front(read, stream, from, n - 1) + [FrontOf(read, QuadAt(stream, from + n - 1))]
  }

  /** The mth retained output sample of the stream. */
  function Output(read: FloatReader, coefficients: seq<real>, stream: Bytes, m: nat): (int, int)
    requires |coefficients| == TAPS && QUAD * (DECIMATION * (m + 1)) <= |stream|
  {
    Filtered(coefficients, Rear(read, stream, DECIMATION * (m + 1)))
  }

  /** One datagram: 64 interleaved haptics samples and, in the speaker demo, the block's front audio. */
  datatype Frame = Frame(haptics: seq<int>, speaker: Option<Finished>)

  /** Which of the first `n` blocks have any front audio. */
  function LoudBlocks(read: FloatReader, stream: Bytes, n: nat): (r: seq<bool>)
    requires QUAD * (BLOCK * n) <= |stream|
    ensures |r| == n
  {
    if n == 0 then [] else LoudBlocks(read, stream, n - 1) + [Loud(Front(read, stream, BLOCK * (n - 1), BLOCK))]
  }

  predicate FrameOf(frame: Frame, read: FloatReader, coefficients: seq<real>, stream: Bytes, k: nat)
    requires |coefficients| == TAPS && QUAD * (BLOCK * (k + 1)) <= |stream|
  {
    && |frame.haptics| == 64
    && (forall j :: 0 <= j < 32 ==>
          (frame.haptics[2 * j], frame.haptics[2 * j + 1]) == Output(read, coefficients, stream, 32 * k + j))
    && (frame.speaker.Some? ==> SpeakerOk(frame.speaker.value, read, stream, k))
  }

  /** Block `k` is encoded exactly while the speaker is on, from the block's own resampled audio. */
  predicate SpeakerOk(finished: Finished, read: FloatReader, stream: Bytes, k: nat)
    requires QUAD * (BLOCK * (k + 1)) <= |stream|
  {
    && (finished.Packet? <==> Encodes(LoudBlocks(read, stream, k + 1), k))
    && (finished.Packet? ==> finished.pcm == Resampled(Front(read, stream, BLOCK * k, BLOCK)))
    && !finished.EncoderFailed?
  }

  /** The encoder is asked for block `k` and yields nothing, which ends the capture. */
  predicate Stops(read: FloatReader, encodes: nat -> bool, stream: Bytes, k: nat) {
    && QUAD * (BLOCK * (k + 1)) <= |stream|
    && Encodes(LoudBlocks(read, stream, k + 1), k) && !encodes(k)
  }

  lemma BlockFinished(finished: Finished, read: FloatReader, encodes: nat -> bool, stream: Bytes, k: nat, tail: nat,
                      front: seq<Stereo>)
    requires QUAD * (BLOCK * (k + 1)) <= |stream| && front == Front(read, stream, BLOCK * k, BLOCK)
    requires tail == TailAfter(LoudBlocks(read, stream, k))
    requires finished == if !Loud(front) && tail == 0 then Quiet
                         else if encodes(k) then Packet(Resampled(front)) else EncoderFailed
    ensures finished.EncoderFailed? <==> Stops(read, encodes, stream, k)
    ensures !finished.EncoderFailed? ==> SpeakerOk(finished, read, stream, k)
    ensures NextTail(tail, Loud(front)) == TailAfter(LoudBlocks(read, stream, k + 1))
  {
    var loud := LoudBlocks(read, stream, k + 1);
    assert loud[..k] == LoudBlocks(read, stream, k) && loud[k] == Loud(front);
  }

  /** Whole blocks are offered as frames; the block in progress holds its outputs so far. */
  ghost predicate Framed(read: FloatReader, coefficients: seq<real>, stream: Bytes, quads: nat, frame: seq<int>, offered: seq<Frame>) {
    && |coefficients| == TAPS && QUAD * quads <= |stream|
    && BLOCK * |offered| <= quads < BLOCK * |offered| + BLOCK
    && (forall k :: 0 <= k < |offered| ==> OfferedOk(read, coefficients, stream, offered, k))
    && |frame| == (quads - BLOCK * |offered|) / DECIMATION * 2
    && forall j :: 0 <= j < |frame| / 2 ==>
         SampleOk(read, coefficients, stream, 32 * |offered| + j, frame[2 * j], frame[2 * j + 1])
  }

  predicate OfferedOk(read: FloatReader, coefficients: seq<real>, stream: Bytes, offered: seq<Frame>, k: nat)
    requires k < |offered|
  {
    && |coefficients| == TAPS && QUAD * (BLOCK * (k + 1)) <= |stream|
    && FrameOf(offered[k], read, coefficients, stream, k)
  }

  predicate SampleOk(read: FloatReader, coefficients: seq<real>, stream: Bytes, m: nat, left: int, right: int) {
    && |coefficients| == TAPS && QUAD * (DECIMATION * (m + 1)) <= |stream|
    && (left, right) == Output(read, coefficients, stream, m)
  }

  lemma FramedPlain(read: FloatReader, coefficients: seq<real>, stream: Bytes, quads: nat, frame: seq<int>, offered: seq<Frame>)
    requires Framed(read, coefficients, stream, quads, frame, offered)
    requires QUAD * (quads + 1) <= |stream| && (quads + 1) % DECIMATION != 0
    ensures Framed(read, coefficients, stream, quads + 1, frame, offered)
  {
  }

  lemma FramedSample(read: FloatReader, coefficients: seq<real>, stream: Bytes, quads: nat, frame: seq<int>, offered: seq<Frame>,
                     out: (int, int))
    requires Framed(read, coefficients, stream, quads, frame, offered)
    requires QUAD * (quads + 1) <= |stream| && (quads + 1) % DECIMATION == 0
    requires out == Filtered(coefficients, Rear(read, stream, quads + 1))
    ensures |frame| + 2 < 64 ==> Framed(read, coefficients, stream, quads + 1, frame + [out.0, out.1], offered)
    ensures |frame| + 2 <= 64
    ensures |frame| + 2 == 64 <==> quads + 1 == BLOCK * (|offered| + 1)
    ensures SamplesOk(read, coefficients, stream, frame + [out.0, out.1], |offered|)
  {
    SampleCount(quads, |frame|, |offered|);
    assert SampleOk(read, coefficients, stream, 32 * |offered| + |frame| / 2, out.0, out.1);
    MoreSamples(read, coefficients, stream, frame, |offered|, out);
  }

  lemma SampleCount(quads: nat, used: nat, n: nat)
    requires BLOCK * n <= quads < BLOCK * n + BLOCK && used == (quads - BLOCK * n) / DECIMATION * 2
    requires (quads + 1) % DECIMATION == 0
    ensures quads + 1 == DECIMATION * (32 * n + used / 2 + 1) && used % 2 == 0
  {
  }

  lemma MoreSamples(read: FloatReader, coefficients: seq<real>, stream: Bytes, frame: seq<int>, n: nat, out: (int, int))
    requires SamplesOk(read, coefficients, stream, frame, n)
    requires SampleOk(read, coefficients, stream, 32 * n + |frame| / 2, out.0, out.1)
    ensures SamplesOk(read, coefficients, stream, frame + [out.0, out.1], n)
  {
    hide SampleOk;
    var frame' := frame + [out.0, out.1];
    assert |frame'| / 2 == |frame| / 2 + 1;
    forall j | 0 <= j < |frame'| / 2
      ensures SampleOk(read, coefficients, stream, 32 * n + j, frame'[2 * j], frame'[2 * j + 1])
    {
      if j < |frame| / 2 {
        assert SampleOk(read, coefficients, stream, 32 * n + j, frame[2 * j], frame[2 * j + 1]);
      }
    }
  }

  ghost predicate SamplesOk(read: FloatReader, coefficients: seq<real>, stream: Bytes, frame: seq<int>, n: nat) {
    |frame| % 2 == 0 && forall j :: 0 <= j < |frame| / 2 ==>
      SampleOk(read, coefficients, stream, 32 * n + j, frame[2 * j], frame[2 * j + 1])
  }

  lemma FramedBlock(read: FloatReader, coefficients: seq<real>, stream: Bytes, quads: nat, old_frame: seq<int>,
                    frame: seq<int>, offered: seq<Frame>, block: Option<Finished>)
    requires Framed(read, coefficients, stream, quads, old_frame, offered)
    requires QUAD * (quads + 1) <= |stream| && quads + 1 == BLOCK * (|offered| + 1)
    requires |frame| == 64 && SamplesOk(read, coefficients, stream, frame, |offered|)
    requires block.Some? ==> SpeakerOk(block.value, read, stream, |offered|)
    ensures Framed(read, coefficients, stream, quads + 1, [], offered + [Frame(frame, block)])
  {
    var offered' := offered + [Frame(frame, block)];
    forall k | 0 <= k < |offered'| ensures OfferedOk(read, coefficients, stream, offered', k) {
      if k < |offered| {
        assert OfferedOk(read, coefficients, stream, offered, k);
      } else {
        forall j | 0 <= j < 32
          ensures (frame[2 * j], frame[2 * j + 1]) == Output(read, coefficients, stream, 32 * k + j)
        {
          assert SampleOk(read, coefficients, stream, 32 * |offered| + j, frame[2 * j], frame[2 * j + 1]);
        }
      }
    }
  }

  /** Every frame carries a speaker block, or none does. */
  predicate Tagged(offered: seq<Frame>, withSpeaker: bool) {
    forall k :: 0 <= k < |offered| ==> offered[k].speaker.Some? == withSpeaker
  }

  lemma SliceOfSlice(s: Bytes, a: nat, b: nat, c: nat, d: nat)
    requires a <= b <= |s| && c <= d <= b - a
    ensures s[a..b][c..d] == s[a + c..a + d]
  {
    var x, y := s[a..b][c..d], s[a + c..a + d];
    assert forall i :: 0 <= i < |x| ==> x[i] == s[a..b][c + i] == y[i];
  }

  /** The bridge between the capture process and the audio socket. */
  class Bridge {
    const filter: RearPcm
    const speaker: Speaker?
    /** Whether the encoder, if asked for block `k`, yields a packet. */
    const encodes: nat -> bool
    var frame: seq<int>
    /** Frames offered to the socket, oldest first. */
    var offered: seq<Frame>

    ghost predicate Valid(stream: Bytes, quads: nat)
      reads this, filter, filter.history, speaker, if speaker == null then {} else {speaker.front}
    {
      && Framed(filter.read, filter.coefficients, stream, quads, frame, offered)
      && filter.Valid() && filter.heard == Rear(filter.read, stream, quads)
      && (speaker != null ==> SpeakerAt(stream, quads))
      && Tagged(offered, speaker != null)
    }

    /** The speaker has buffered exactly the block in progress. */
    ghost predicate SpeakerAt(stream: Bytes, quads: nat)
      requires speaker != null && QUAD * quads <= |stream|
      reads this, filter, speaker, if speaker == null then {} else {speaker.front}
    {
      && speaker.Valid() && speaker.read == filter.read
      && BLOCK * |offered| + speaker.used == quads
      && speaker.front[..speaker.used] == Front(filter.read, stream, BLOCK * |offered|, speaker.used)
      && speaker.silentTail == TailAfter(LoudBlocks(filter.read, stream, |offered|))
      && NoStop(stream)
    }

    ghost predicate NoStop(stream: Bytes)
      reads this, filter
    {
      forall k :: 0 <= k < |offered| ==> !Stops(filter.read, encodes, stream, k)
    }

    /** The encoder gave up on the block in progress; what was offered before stays as it is. */
    ghost predicate Stopped(stream: Bytes)
      reads this, filter
    {
      && speaker != null && NoStop(stream) && Stops(filter.read, encodes, stream, |offered|)
      && Tagged(offered, true)
      && forall k :: 0 <= k < |offered| ==> OfferedOk(filter.read, filter.coefficients, stream, offered, k)
    }

    constructor (read: FloatReader, coefficients: seq<real>, withSpeaker: bool, encodes: nat -> bool, ghost stream: Bytes)
      requires |coefficients| == TAPS
      ensures Valid(stream, 0) && filter.read == read && filter.coefficients == coefficients
      ensures fresh(filter) && fresh(filter.history) && (speaker != null ==> fresh(speaker) && fresh(speaker.front))
      ensures (speaker != null) == withSpeaker && this.encodes == encodes
    {
      this.encodes := encodes;
      filter := new RearPcm(read, coefficients);
      if withSpeaker {
        speaker := new Speaker(read);
      } else {
        speaker := null;
      }
      frame, offered := [], [];
    }

    /** One quad of the stream: front pair to the speaker, rear pair to the filter, and a frame when the block is full. */
    method TakeQuad(quad: Bytes, ghost stream: Bytes, ghost quads: nat) returns (ok: bool)
      requires QUAD * (quads + 1) <= |stream| && Valid(stream, quads) && quad == QuadAt(stream, quads)
      modifies this, filter, filter.history, speaker, if speaker == null then {} else {speaker.front}
      ensures ok ==> Valid(stream, quads + 1)
      ensures !ok ==> Stopped(stream)
    {
      hide Framed, Filtered, FrontOf, RearOf, LoudBlocks, TailAfter;
      ok := true;
      ghost var frame0, read, coefficients := frame, filter.read, filter.coefficients;
      assert BLOCK * |offered| <= quads < BLOCK * |offered| + BLOCK by {
        FramedBounds(read, coefficients, stream, quads, frame, offered);
      }
      if speaker != null {
        speaker.Push(quad);
      }
      var stereo := filter.Push(quad);
      if stereo.None? {
        FramedPlain(read, coefficients, stream, quads, frame, offered);
        return;
      }
      FramedSample(read, coefficients, stream, quads, frame, offered, stereo.value);
      frame := frame + [stereo.value.0, stereo.value.1];
      if |frame| == 64 {
        ok := OfferBlock(stream, quads, frame0);
      }
    }

    lemma HasNotStopped(stream: Bytes, quads: nat)
      requires speaker != null && Valid(stream, quads)
      ensures NoStop(stream)
    {
    }

    method TakeQuads(bytes: Bytes, ghost stream: Bytes, ghost first: nat) returns (ok: bool)
      requires |bytes| % QUAD == 0 && QUAD * first + |bytes| <= |stream| && Valid(stream, first)
      requires bytes == stream[QUAD * first..QUAD * first + |bytes|]
      modifies this, filter, filter.history, speaker, if speaker == null then {} else {speaker.front}
      ensures ok ==> Valid(stream, first + |bytes| / QUAD)
      ensures !ok ==> Stopped(stream)
    {
      hide Framed, Bridge.SpeakerAt, RearPcm.Valid, Rear;
      ok := true;
      for i := 0 to |bytes| / QUAD
        invariant Valid(stream, first + i)
      {
        SliceOfSlice(stream, QUAD * first, QUAD * first + |bytes|, QUAD * i, QUAD * i + QUAD);
        ok := TakeQuad(bytes[QUAD * i..QUAD * i + QUAD], stream, first + i);
        if !ok {
          return;
        }
      }
    }

    /** Finishes the speaker's block, which is then empty for the next one. */
    method FinishSpeaker(ghost stream: Bytes, ghost quads: nat) returns (finished: Finished)
      requires speaker != null && QUAD * (quads + 1) <= |stream| && quads + 1 == BLOCK * (|offered| + 1)
      requires SpeakerAt(stream, quads + 1)
      modifies speaker`used, speaker`silentTail
      ensures finished.EncoderFailed? <==> Stops(filter.read, encodes, stream, |offered|)
      ensures !finished.EncoderFailed? ==> SpeakerOk(finished, filter.read, stream, |offered|)
      ensures speaker.Valid() && speaker.used == 0
      ensures speaker.silentTail == TailAfter(LoudBlocks(filter.read, stream, |offered| + 1))
    {
      hide Stops, SpeakerOk, LoudBlocks, TailAfter, Loud;
      assert speaker.front[..] == speaker.front[..speaker.used];
      ghost var tail := speaker.silentTail;
      finished := speaker.FinishBlock(encodes(|offered|));
      BlockFinished(finished, filter.read, encodes, stream, |offered|, tail, speaker.front[..]);
    }

    /** Offers the finished block; a failing encoder ends the capture instead. */
    method OfferBlock(ghost stream: Bytes, ghost quads: nat, ghost frame0: seq<int>) returns (ok: bool)
      requires QUAD * (quads + 1) <= |stream| && quads + 1 == BLOCK * (|offered| + 1)
      requires Framed(filter.read, filter.coefficients, stream, quads, frame0, offered)
      requires |frame| == 64 && SamplesOk(filter.read, filter.coefficients, stream, frame, |offered|)
      requires speaker != null ==> SpeakerAt(stream, quads + 1)
      requires Tagged(offered, speaker != null)
      modifies this`frame, this`offered, speaker
      ensures ok ==> Framed(filter.read, filter.coefficients, stream, quads + 1, frame, offered)
      ensures ok && speaker != null ==> SpeakerAt(stream, quads + 1)
      ensures ok ==> Tagged(offered, speaker != null)
      ensures !ok ==> Stopped(stream)
    {
      hide Framed, OfferedOk, SpeakerOk, Stops, LoudBlocks, TailAfter, Front, SamplesOk;
      var block: Option<Finished> := None;
      if speaker != null {
        var finished := FinishSpeaker(stream, quads);
        if finished.EncoderFailed? {
          FramedOffers(filter.read, filter.coefficients, stream, quads, frame0, offered);
          return false;
        }
        block := Some(finished);
      }
      FramedBlock(filter.read, filter.coefficients, stream, quads, frame0, frame, offered, block);
      offered := offered + [Frame(frame, block)];
      frame := [];
      return true;
    }
  }

  lemma FramedBounds(read: FloatReader, coefficients: seq<real>, stream: Bytes, quads: nat, frame: seq<int>, offered: seq<Frame>)
    requires Framed(read, coefficients, stream, quads, frame, offered)
    ensures |coefficients| == TAPS && QUAD * quads <= |stream|
    ensures BLOCK * |offered| <= quads < BLOCK * |offered| + BLOCK
  {
  }

  lemma FramedOffers(read: FloatReader, coefficients: seq<real>, stream: Bytes, quads: nat, frame: seq<int>, offered: seq<Frame>)
    requires Framed(read, coefficients, stream, quads, frame, offered)
    ensures forall k :: 0 <= k < |offered| ==> OfferedOk(read, coefficients, stream, offered, k)
  {
  }

  const READ_LIMIT: nat := 8192

  /**
   * The capture loop over a stream that arrives in reads of any size: the frames depend on the stream
   * alone, every block the speaker finishes holds exactly 512 samples, and the capture ends early only
   * at the first block the encoder fails on.
   */
  method RunCapture(stream: Bytes, read: FloatReader, coefficients: seq<real>, withSpeaker: bool, encodes: nat -> bool)
    returns (offered: seq<Frame>, ok: bool)
    requires |coefficients| == TAPS
    ensures if ok then |offered| == |stream| / QUAD / BLOCK else withSpeaker && Stops(read, encodes, stream, |offered|)
    ensures withSpeaker ==> forall k :: 0 <= k < |offered| ==> !Stops(read, encodes, stream, k)
    ensures forall k :: 0 <= k < |offered| ==> OfferedOk(read, coefficients, stream, offered, k)
    ensures Tagged(offered, withSpeaker)
  {
    hide Framed, Bridge.SpeakerAt, RearPcm.Valid, Rear;
    var bridge := new Bridge(read, coefficients, withSpeaker, encodes, stream);
    var bytes: Bytes, position := [], 0;
    ghost var quads := 0;
    while position < |stream|
      invariant fresh(bridge) && fresh(bridge.filter) && fresh(bridge.filter.history)
      invariant (bridge.speaker != null) == withSpeaker && bridge.encodes == encodes
      invariant bridge.speaker != null ==> fresh(bridge.speaker) && fresh(bridge.speaker.front)
      invariant bridge.filter.read == read && bridge.filter.coefficients == coefficients
      invariant position <= |stream| && position == QUAD * quads + |bytes| && |bytes| < QUAD
      invariant bytes == stream[QUAD * quads..position]
      invariant bridge.Valid(stream, quads)
    {
      var n :| 1 <= n <= READ_LIMIT - |bytes| && position + n <= |stream|;
      bytes := bytes + stream[position..position + n];
      position := position + n;
      var complete := |bytes| / QUAD;
      assert bytes == stream[QUAD * quads..position];
      ok := bridge.TakeQuads(bytes[..QUAD * complete], stream, quads);
      if !ok {
        return bridge.offered, false;
      }
      quads := quads + complete;
      bytes := bytes[QUAD * complete..];
    }
    FramedAll(read, coefficients, stream, quads, bridge.frame, bridge.offered);
    if withSpeaker {
      bridge.HasNotStopped(stream, quads);
    }
    return bridge.offered, true;
  }

  lemma FramedAll(read: FloatReader, coefficients: seq<real>, stream: Bytes, quads: nat, frame: seq<int>, offered: seq<Frame>)
    requires Framed(read, coefficients, stream, quads, frame, offered) && quads == |stream| / QUAD
    ensures |offered| == |stream| / QUAD / BLOCK
    ensures forall k :: 0 <= k < |offered| ==> OfferedOk(read, coefficients, stream, offered, k)
  {
  }
}
