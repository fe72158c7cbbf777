/**
 * The bookkeeping rules of an analysis session: the configuration, when
 * extraction results may be reused, which segmentation levels a run clears,
 * when structure detection runs, the frame-size advice for long recordings,
 * and the frame-count arithmetic.
 */
module Session {
  import opened Results

  /** The configuration snapshot `loadConfiguration` reads. */
  datatype Config = Config(
    useMFCC: bool,
    useAutoCorrelation: bool,
    useCQT: bool,
    frameSize: int,
    overlapping: int,
    cqtBins: int,
    mfccCoef: int,
    melfilters: int,
    lowerFilterFreq: real,
    upperFilterFreq: real,
    macroEnabled: bool,
    mesoEnabled: bool,
    microEnabled: bool)

  /** The part of a configuration that determines what feature extraction produces. */
  datatype Extraction = Extraction(
    useMFCC: bool,
    useAutoCorrelation: bool,
    useCQT: bool,
    frameSize: int,
    overlapping: int,
    cqtBins: int,
    mfccCoef: int,
    melfilters: int,
    lowerFilterFreq: real,
    upperFilterFreq: real)

  function ExtractionOf(c: Config): Extraction
  {
    Extraction(c.useMFCC, c.useAutoCorrelation, c.useCQT, c.frameSize, c.overlapping,
               c.cqtBins, c.mfccCoef, c.melfilters, c.lowerFilterFreq, c.upperFilterFreq)
  }

  /**
   * The reuse flag after reloading the configuration: it survives only if it
   * was set and no extraction setting changed.
   */
  function KeepsReuse(before: Config, after: Config, reuse: bool): (r: bool)
    ensures r <==> reuse && ExtractionOf(before) == ExtractionOf(after)
  {
    reuse
    && before.useMFCC == after.useMFCC
    && before.useAutoCorrelation == after.useAutoCorrelation
    && before.useCQT == after.useCQT
    && before.frameSize == after.frameSize
    && before.overlapping == after.overlapping
    && before.cqtBins == after.cqtBins
    && before.mfccCoef == after.mfccCoef
    && before.melfilters == after.melfilters
    && before.lowerFilterFreq == after.lowerFilterFreq
    && before.upperFilterFreq == after.upperFilterFreq
  }

  /** Switching segmentation levels on or off never costs the reuse of extracted features. */
  lemma LevelsDoNotAffectReuse(before: Config, after: Config, reuse: bool, macro: bool, meso: bool, micro: bool)
    ensures KeepsReuse(before, after.(macroEnabled := macro, mesoEnabled := meso, microEnabled := micro), reuse)
         == KeepsReuse(before, after, reuse)
  {
  }

  /** The three segmentation levels; the segment type is left abstract. */
  datatype Segmentation<S> = Segmentation(macro: seq<S>, meso: seq<S>, micro: seq<S>)

  function Cleared<S>(): Segmentation<S>
  {
    Segmentation([], [], [])
  }

  /**
   * What a run clears before detecting structure: everything when the macro
   * level is enabled, otherwise meso and micro when meso is, otherwise micro
   * when micro is, otherwise nothing.
   */
  function ClearForRun<S>(c: Config, s: Segmentation<S>): (r: Segmentation<S>)
    ensures r.macro == if c.macroEnabled then [] else s.macro
    ensures r.meso == if c.macroEnabled || c.mesoEnabled then [] else s.meso
    ensures r.micro == if c.macroEnabled || c.mesoEnabled || c.microEnabled then [] else s.micro
  {
    if c.macroEnabled then Cleared()
    else if c.mesoEnabled then s.(meso := [], micro := [])
    else if c.microEnabled then s.(micro := [])
    else s
  }

  /**
   * Structure detection runs when at least one level is enabled: exactly
   * when the run clears something of a segmentation that has segments on
   * every level.
   */
  function RunsDetection(c: Config): (r: bool)
    ensures r <==> ClearForRun(c, Segmentation([()], [()], [()])) != Segmentation([()], [()], [()])
  {
    c.macroEnabled || c.mesoEnabled || c.microEnabled
  }

  /**
   * Clearing and detection go together: a run that detects nothing clears
   * nothing, and a run that detects always clears the micro level.
   */
  lemma ClearingMatchesDetection<S>(c: Config, s: Segmentation<S>)
    ensures !RunsDetection(c) ==> ClearForRun(c, s) == s
    ensures RunsDetection(c) ==> ClearForRun(c, s).micro == []
  {
  }

  /**
   * The frame size suggested before analysing a long recording, if any:
   * 16384 for frames up to 8192 and more than 16 minutes, else 8192 for
   * frames up to 4096 and more than 12 minutes, else 4096 for frames up to
   * 2048 and more than 360 seconds.
   */
  function FrameSizeAdvice(frameSize: int, minutes: real, seconds: real): (r: Option<int>)
    ensures r.Some? ==> r.value in {4096, 8192, 16384}
    ensures r.Some? ==> 2 * frameSize <= r.value
    ensures frameSize > 8192 ==> r.None?
    ensures minutes > 16.0 && frameSize <= 8192 ==> r == Some(16384)
  {
    if frameSize <= 8192 && minutes > 16.0 then Some(16384)
    else if frameSize <= 4096 && minutes > 12.0 then Some(8192)
    else if frameSize <= 2048 && seconds > 360.0 then Some(4096)
    else None
  }

  /** Accepting the advice settles the question: the suggested size draws no further advice. */
  lemma AdviceIsFinal(frameSize: int, minutes: real, seconds: real)
    requires FrameSizeAdvice(frameSize, minutes, seconds).Some?
    ensures FrameSizeAdvice(FrameSizeAdvice(frameSize, minutes, seconds).value, minutes, seconds).None?
  {
  }

  /** A longer recording is advised at least as strongly as a shorter one. */
  lemma AdviceGrowsWithLength(frameSize: int, minutes: real, seconds: real, minutes': real, seconds': real)
    requires minutes <= minutes' && seconds <= seconds'
    requires FrameSizeAdvice(frameSize, minutes, seconds).Some?
    ensures FrameSizeAdvice(frameSize, minutes', seconds').Some?
    ensures FrameSizeAdvice(frameSize, minutes, seconds).value <= FrameSizeAdvice(frameSize, minutes', seconds').value
  {
  }

  /** Ceiling of the exact quotient `a / b`, as `(int) Math.ceil` of a float quotient. */
  function CeilDiv(a: int, b: int): (q: int)
    requires b > 0
    ensures (q - 1) * b < a <= q * b
  {
    if a % b == 0 then a / b else a / b + 1
  }

  /** Java's `int` division: the quotient truncated toward zero. */
  function TruncDiv(a: int, b: int): (q: int)
    requires b != 0
    ensures -Abs(b) < a - q * b < Abs(b)
    ensures a >= 0 ==> 0 <= a - q * b
    ensures a <= 0 ==> a - q * b <= 0
  {
    var m := Abs(a) / Abs(b);
    DivisionRemainder(Abs(a), Abs(b));
    var q := if (a >= 0) == (b > 0) then m else -m;
    TruncRemainder(a, b, m, q);
    q
  }

  /** Dividing a natural number leaves a remainder below the divisor. */
  lemma DivisionRemainder(n: nat, d: int)
    requires d > 0
    ensures 0 <= n - (n / d) * d < d
  {
  }

  /** The remainder of the truncated quotient is that of the magnitudes, with the dividend's sign: below the divisor in size. */
  lemma TruncRemainder(a: int, b: int, m: int, q: int)
    requires b != 0 && 0 <= Abs(a) - m * Abs(b) < Abs(b)
    requires q == if (a >= 0) == (b > 0) then m else -m
    ensures -Abs(b) < a - q * b < Abs(b)
    ensures a >= 0 ==> 0 <= a - q * b
    ensures a <= 0 ==> a - q * b <= 0
  {
    var B := Abs(b);
    if b > 0 {
      assert b == B;
    } else {
      assert b == -B;
      assert q * b == -q * B;
    }
  }

  function Abs(x: int): int
  {
    if x < 0 then -x else x
  }

  /**
   * The amount of frames derived from the audio file's length in samples:
   * for a positive hop `frameSize - overlapping`, the number of whole hops
   * that fit in the length.
   */
  function FramesOfLength(frameLength: int, frameSize: int, overlapping: int): (n: int)
    requires frameSize - overlapping != 0
    ensures frameLength >= 0 && frameSize - overlapping > 0 ==>
      n >= 0 && n * (frameSize - overlapping) <= frameLength < (n + 1) * (frameSize - overlapping)
  {
    var hop := frameSize - overlapping;
    if frameLength >= 0 && hop > 0 then
      var q := frameLength / hop;
      DivisionRemainder(frameLength, hop);
      assert (q + 1) * hop == q * hop + hop;
      assert TruncDiv(frameLength, hop) == q;
      TruncDiv(frameLength, hop)
    else TruncDiv(frameLength, hop)
  }

  /** The largest and smallest Java `int`: where a cast of an infinite float quotient lands. */
  const INT_MAX: int := 0x7fff_ffff
  const INT_MIN: int := -0x8000_0000

  /**
   * The amount of frames an analysis allocates: the duration over the step
   * `frameSize - overlapping + 1`, rounded up, then cast to `int`. A
   * negative step rounds the (negative or zero) quotient up just the same.
   * A zero step is a float division by zero: a positive duration gives
   * infinity, which the cast saturates to `INT_MAX`, a negative one minus
   * infinity (`INT_MIN`), and an empty one NaN, which casts to 0.
   */
  function FrameCount(durationInFrames: int, frameSize: int, overlapping: int): (n: int)
    ensures var step := frameSize - overlapping + 1;
      step > 0 ==> (n - 1) * step < durationInFrames <= n * step
    ensures var step := frameSize - overlapping + 1;
      step < 0 ==> n * step <= durationInFrames < (n - 1) * step
    ensures frameSize - overlapping + 1 == 0 ==>
      n == if durationInFrames > 0 then INT_MAX else if durationInFrames < 0 then INT_MIN else 0
    ensures frameSize - overlapping + 1 > 0 && durationInFrames >= 0 ==> n >= 0
    ensures frameSize - overlapping + 1 > 0 && durationInFrames >= 1 ==> n >= 1
  {
    var step := frameSize - overlapping + 1;
    if step > 0 then
      var n := CeilDiv(durationInFrames, step);
      CeilSign(durationInFrames, step, n);
      n
    else if step < 0 then
      var n := CeilDiv(-durationInFrames, -step);
      CeilNegated(durationInFrames, step, n);
      n
    else if durationInFrames > 0 then INT_MAX
    else if durationInFrames < 0 then INT_MIN
    else 0
  }

  /** A ceiling quotient by a positive divisor is non-negative for a non-negative dividend, and positive for a positive one. */
  lemma CeilSign(a: int, b: int, q: int)
    requires b > 0 && (q - 1) * b < a <= q * b
    ensures a >= 0 ==> q >= 0
    ensures a >= 1 ==> q >= 1
  {
    if q < 0 {
      assert q * b <= -b;
    } else if q == 0 {
      assert q * b == 0;
    }
  }

  /** The ceiling of `(-a) / (-b)` bounds `a` by multiples of the negative divisor `b`. */
  lemma CeilNegated(a: int, b: int, q: int)
    requires b < 0 && (q - 1) * (-b) < -a <= q * (-b)
    ensures q * b <= a < (q - 1) * b
  {
    assert (q - 1) * (-b) == -((q - 1) * b);
    assert q * (-b) == -(q * b);
  }

  /**
   * The amount of frames of an analysis with default settings: one frame,
   * plus the rest of the duration over `frameSize - overlapping + 1`,
   * rounded up.
   */
  function FrameCountWithDefaults(durationInFrames: int, frameSize: int, overlapping: int): (n: int)
    requires frameSize - overlapping + 1 > 0
    ensures durationInFrames >= frameSize ==> n >= 1
    ensures (n - 1) * (frameSize - overlapping + 1) >= durationInFrames - frameSize
    ensures (n - 2) * (frameSize - overlapping + 1) < durationInFrames - frameSize
  {
    CeilDiv(durationInFrames - frameSize, frameSize - overlapping + 1) + 1
  }
}
