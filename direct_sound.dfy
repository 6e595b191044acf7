/**
 * The sound arithmetic of main.cpp's DirectSound code: the 16-bit stereo PCM
 * wave format, the one-second secondary buffer of `EasyInitialization`, the
 * per-frame write plan of `ProcessFrameSound`, and its square-wave fill of
 * the one or two regions a buffer lock returns.
 *
 * The lock regions are given as arrays of 16-bit sample values together with
 * their sizes in bytes. The C `assert`s of the fill are modelled as they act
 * in a debug build: a failed one stops the operation, reported here as an
 * outcome.
 */
module DirectSound {

  const DWordModulus: nat := 0x1_0000_0000
  /** `WAVE_FORMAT_PCM`. */
  const WaveFormatPcm: nat := 1
  /** Size in bytes of `signed short`. */
  const ShortBytes: nat := 2

  /** The fields of `WAVEFORMATEX` that the source sets. */
  datatype WaveFormat = WaveFormat(
    formatTag: nat,
    channels: nat,
    samplesPerSec: nat,
    avgBytesPerSec: nat,
    blockAlign: nat,
    bitsPerSample: nat,
    cbSize: nat)

  /**
   * The rules `WAVEFORMATEX` states for PCM: a block is one sample for every
   * channel (`channels * bits / 8` bytes), and the byte rate is the sample
   * rate times the block size (in a 32-bit `DWORD`).
   */
  predicate IsConsistentPcm(f: WaveFormat) {
    && f.formatTag == WaveFormatPcm
    && f.blockAlign == f.channels * f.bitsPerSample / 8
    && f.avgBytesPerSec == (f.samplesPerSec * f.blockAlign) % DWordModulus
    && f.samplesPerSec < DWordModulus
    && f.cbSize == 0
  }

  /**
   * The format built by `DSOUND::Initialize`: 16-bit stereo PCM at the given
   * rate. The `int` rate lands in a `DWORD`, which keeps it modulo 2^32.
   */
  function StereoPcm16(samplesPerSecond: int): (f: WaveFormat)
    ensures IsConsistentPcm(f)
    ensures f.channels == 2 && f.bitsPerSample == 16 && f.blockAlign == 4
    ensures 0 <= samplesPerSecond < DWordModulus ==> f.samplesPerSec == samplesPerSecond
  {
    var channels := 2;
    var bits := 16;
    var samplesPerSec := samplesPerSecond % DWordModulus;
    var blockAlign := (channels * bits) / 8;
    WaveFormat(WaveFormatPcm, channels, samplesPerSec, (samplesPerSec * blockAlign) % DWordModulus,
               blockAlign, bits, 0)
  }

  /** Sample rate used by `EasyInitialization`. */
  const EasySampleRate: nat := 48000

  /**
   * The secondary buffer size chosen by `EasyInitialization`: one stereo
   * 16-bit frame per sample, 48000 of them, which is exactly one second of
   * audio in the format it asks for.
   */
  function EasyBufferSize(): (n: nat)
    ensures n == StereoPcm16(EasySampleRate).avgBytesPerSec
    ensures n % StereoPcm16(EasySampleRate).blockAlign == 0
  {
    var bytesPerSample := ShortBytes * 2;
    bytesPerSample * EasySampleRate
  }

  /** The frame rate `ProcessFrameSound` assumes, and the tone it writes. */
  const FramesPerSecond: nat := 60
  const ToneHz: nat := 60
  const Volume: int := 16000

  /** The quantities `ProcessFrameSound` derives before it writes. */
  datatype FramePlan = FramePlan(
    samplesPerFrame: nat,
    bytesToWrite: nat,
    samplesPerOscillation: nat,
    samplesPerHalfOscillation: nat)

  /**
   * `ProcessFrameSound`'s arithmetic: one frame's worth of samples and
   * bytes, and the square wave's period in sample values. The tone and the
   * frame rate are both 60, so one oscillation spans one frame.
   */
  function PlanFrame(samplesPerSecond: nat, bytesPerSample: nat): (p: FramePlan)
    ensures p.samplesPerOscillation == p.samplesPerFrame == samplesPerSecond / FramesPerSecond
    ensures p.bytesToWrite == p.samplesPerOscillation * bytesPerSample
    ensures p.samplesPerHalfOscillation * 2 <= p.samplesPerOscillation < p.samplesPerHalfOscillation * 2 + 2
  {
    var samplesPerFrame := samplesPerSecond / FramesPerSecond;
    var bytesPerFrame := samplesPerFrame * bytesPerSample;
    var oscillationsPerFrame := ToneHz / FramesPerSecond;
    var samplesPerOscillation := samplesPerFrame / oscillationsPerFrame;
    FramePlan(samplesPerFrame, bytesPerFrame, samplesPerOscillation, samplesPerOscillation / 2)
  }

  /**
   * The value of sample number `k` of the square wave with period `period`:
   * full positive volume in the first half of each period (rounded down),
   * full negative volume in the rest. Both levels fit a `signed short`.
   */
  function SquareSample(k: nat, period: nat): (s: int)
    requires period > 0
    ensures s == Volume || s == -Volume
    ensures s == Volume <==> k % period < period / 2
    ensures -0x8000 <= s < 0x8000
  {
    if k % period < period / 2 then Volume else -Volume
  }

  /** `count` consecutive samples of the wave, starting at sample number `start`. */
  function SquareWave(start: nat, count: nat, period: nat): (s: seq<int>)
    requires period > 0
    ensures |s| == count
  {
    seq(count, k requires 0 <= k => SquareSample(start + k, period))
  }

  /** Multiplication by a natural number is monotone. */
  lemma {:induction false} MulMonotone(a: nat, b: nat, d: nat)
    ensures a <= b ==> a * d <= b * d
    decreases b
  {
    if a < b {
      MulMonotone(a, b - 1, d);
      assert b * d == (b - 1) * d + d;
    }
  }

  /** Quotient and remainder are the unique q, r with n == q d + r and r < d. */
  lemma ModUnique(n: nat, d: nat, q: nat, r: nat)
    requires d > 0 && r < d && n == q * d + r
    ensures n % d == r && n / d == q
  {
    var q', r' := n / d, n % d;
    assert n == q' * d + r';
    assert (q' + 1) * d == q' * d + d;
    assert (q + 1) * d == q * d + d;
    MulMonotone(q' + 1, q, d);
    MulMonotone(q + 1, q', d);
  }

  /** The wave repeats every `period` samples. */
  lemma SquareSamplePeriodic(k: nat, period: nat)
    requires period > 0
    ensures SquareSample(k + period, period) == SquareSample(k, period)
  {
    assert k == (k / period) * period + k % period;
    assert (k / period + 1) * period == (k / period) * period + period;
    ModUnique(k + period, period, k / period + 1, k % period);
  }

  /**
   * Writing `n1` samples and then `n2` more with the same counter gives the
   * unbroken wave: the second region continues where the first stopped.
   */
  lemma SquareWaveSplit(start: nat, n1: nat, n2: nat, period: nat)
    requires period > 0
    ensures SquareWave(start, n1, period) + SquareWave(start + n1, n2, period)
         == SquareWave(start, n1 + n2, period)
  {
    var left := SquareWave(start, n1, period) + SquareWave(start + n1, n2, period);
    var whole := SquareWave(start, n1 + n2, period);
    forall k | 0 <= k < n1 + n2 ensures left[k] == whole[k] {
      if k >= n1 {
        assert left[k] == SquareWave(start + n1, n2, period)[k - n1];
      }
    }
  }

  /** Bytes accounted for a region of `size` bytes: whole 16-bit samples only. */
  function WrittenBytes(size: nat): (n: nat)
    ensures n % ShortBytes == 0 && n <= size < n + ShortBytes
  {
    size / ShortBytes * ShortBytes
  }

  /**
   * One of the fill loops: writes the wave into every sample of `buffer`,
   * continuing from `sampleCounter`, and returns the advanced counter.
   */
  method FillRegion(buffer: array<int>, sampleCounter: nat, period: nat) returns (next: nat)
    requires period > 0
    modifies buffer
    ensures buffer[..] == SquareWave(sampleCounter, buffer.Length, period)
    ensures next == sampleCounter + buffer.Length
  {
    next := sampleCounter;
    for i := 0 to buffer.Length
      invariant next == sampleCounter + i
      invariant buffer[..i] == SquareWave(sampleCounter, i, period)
    {
      if next % period < period / 2 {
        buffer[i] := Volume;
      } else {
        buffer[i] := -Volume;
      }
      next := next + 1;
      assert buffer[..i + 1] == buffer[..i] + [SquareSample(sampleCounter + i, period)];
    }
  }

  /** How a frame's sound write ends. */
  datatype FillOutcome =
    | Written(bytes1: nat, bytes2: nat)     // both asserts hold; bytes accounted per region
    | SingleRegionMismatch                  // one region, but not of the requested size
    | TotalMismatch(bytes1: nat, bytes2: nat) // samples written, but the total is not the request

  /**
   * The write step of `ProcessFrameSound`. A first region smaller than the
   * request means the lock wrapped around and both regions are filled, the
   * wave running on from the first into the second; otherwise the first
   * region must be exactly the request and is filled alone. Each region
   * accounts its whole samples, and their total must be the request.
   */
  method FillFrameSound(buffer1: array<int>, size1: nat, buffer2: array<int>, size2: nat,
                        bytesToWrite: nat, period: nat) returns (outcome: FillOutcome)
    requires period > 0
    requires buffer1.Length == size1 / ShortBytes && buffer2.Length == size2 / ShortBytes
    requires buffer1 != buffer2
    modifies buffer1, buffer2
    ensures outcome.SingleRegionMismatch? <==> size1 > bytesToWrite
    ensures outcome.SingleRegionMismatch? ==> buffer1[..] == old(buffer1[..]) && buffer2[..] == old(buffer2[..])
    ensures size1 < bytesToWrite ==>
      && buffer1[..] + buffer2[..] == SquareWave(0, buffer1.Length + buffer2.Length, period)
      && outcome == (if WrittenBytes(size1) + WrittenBytes(size2) == bytesToWrite
                     then Written(WrittenBytes(size1), WrittenBytes(size2))
                     else TotalMismatch(WrittenBytes(size1), WrittenBytes(size2)))
    ensures size1 == bytesToWrite ==>
      && buffer1[..] == SquareWave(0, buffer1.Length, period)
      && buffer2[..] == old(buffer2[..])
      && outcome == (if WrittenBytes(size1) == bytesToWrite
                     then Written(WrittenBytes(size1), 0)
                     else TotalMismatch(WrittenBytes(size1), 0))
  {
    var usingTwoBuffers := size1 < bytesToWrite;
    if !usingTwoBuffers && size1 != bytesToWrite {
      return SingleRegionMismatch;
    }
    var sampleCounter := 0;
    var written1, written2 := 0, 0;
    if usingTwoBuffers {
      sampleCounter := FillRegion(buffer1, sampleCounter, period);
      sampleCounter := FillRegion(buffer2, sampleCounter, period);
      SquareWaveSplit(0, buffer1.Length, buffer2.Length, period);
      written1 := size1 / ShortBytes * ShortBytes;
      written2 := size2 / ShortBytes * ShortBytes;
    } else {
      sampleCounter := FillRegion(buffer1, sampleCounter, period);
      written1 := size1 / ShortBytes * ShortBytes;
    }
    if written1 + written2 == bytesToWrite {
      outcome := Written(written1, written2);
    } else {
      outcome := TotalMismatch(written1, written2);
    }
  }

  /**
   * With whole-sample regions the accounting never fails: one region of
   * exactly the request, or two regions adding up to it, end `Written`.
   */
  lemma WholeSampleRegionsAccountExactly(size1: nat, size2: nat, bytesToWrite: nat)
    requires size1 % ShortBytes == 0 && size2 % ShortBytes == 0
    requires size1 == bytesToWrite || (size1 < bytesToWrite && size1 + size2 == bytesToWrite)
    ensures size1 == bytesToWrite ==> WrittenBytes(size1) == bytesToWrite
    ensures size1 < bytesToWrite ==> WrittenBytes(size1) + WrittenBytes(size2) == bytesToWrite
  {
  }

  /** Remainders of 2j and 2j + 1 modulo an even number 2h. */
  lemma DoubledRemainders(j: nat, h: nat)
    requires h > 0
    ensures (2 * j) % (2 * h) == 2 * (j % h)
    ensures (2 * j + 1) % (2 * h) == 2 * (j % h) + 1
  {
    var q, m := j / h, j % h;
    assert j == q * h + m;
    assert q * (2 * h) == 2 * (q * h);
    ModUnique(2 * j, 2 * h, q, 2 * m);
    ModUnique(2 * j + 1, 2 * h, q, 2 * m + 1);
  }

  /**
   * The counter advances once per 16-bit value, so the left and right values
   * of a stereo frame (sample values 2j and 2j + 1) are equal whenever the
   * half period is even, as it is for the 48000 Hz rate (period 800).
   */
  lemma StereoChannelsAgree(j: nat, period: nat)
    requires period > 0 && period % 4 == 0
    ensures SquareSample(2 * j + 1, period) == SquareSample(2 * j, period)
  {
    var h := period / 2;
    assert period == 2 * h && h % 2 == 0;
    DoubledRemainders(j, h);
  }

  /** At 48000 Hz with 4-byte stereo frames a frame is 800 samples, 3200 bytes, period 800. */
  lemma EasyFramePlan()
    ensures PlanFrame(EasySampleRate, 4) == FramePlan(800, 3200, 800, 400)
  {
  }
}
