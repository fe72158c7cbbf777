/**
 * The analysis model of the segmenter: the configuration it was loaded
 * with, the audio file under analysis, the per-frame feature tables, the
 * self-similarity matrix and the working copy that structure detection
 * edits, the segmentation, and the flag that lets a rerun skip feature
 * extraction when no extraction setting changed.
 */
module Model {
  import opened Results
  import opened Features
  import opened Session
  import opened Extraction
  import SelfSimilarity

  /** What the model reads of an audio file: its length in samples and its sample rate. */
  datatype AudioFile = AudioFile(frameLength: int, sampleRate: real)

  /** The runtime exceptions the model's operations can end in. */
  datatype ModelError =
    | DivisionByZero        // an int division by `frameSize - overlapping` when the two are equal
    | NoAudioFile           // the audio file is null
    | NegativeSize          // a matrix of a negative amount of frames
    | FeaturesMissing       // a feature table or row the distance pass reads is null or too short
    | NoSimilarityMatrix    // the similarity matrix is null when it is copied
    | Feature(error: FeatureError)

  /** A feature table as a value: `None` for a null table. */
  function Contents(t: array?<Vector>): Option<seq<Vector>>
    reads t
  {
    if t == null then None else Some(t[..])
  }

  /** The entries of a stored table; a null table has none. */
  function Entries(table: Option<seq<Vector>>): seq<Vector>
  {
    if table.None? then [] else table.value
  }

  /** What the self-similarity construction reads: the settings, the amount of frames and the tables. */
  function InputOf(c: Config, amountOfFrames: nat, t: Tables): SelfSimilarity.Extracted
  {
    SelfSimilarity.Extracted(c.useMFCC, c.useAutoCorrelation, c.useCQT, amountOfFrames, c.mfccCoef,
                             Entries(t.mfccs), Entries(t.cqtcs), Entries(t.autoCorrelationcs))
  }

  /**
   * A complete extraction feeds the construction: when tables with room
   * for `amountOfFrames` frames receive exactly that many events, every
   * MFCC vector reaching coefficient `mfccCoef - 1`, every autocorrelation
   * vector holding its lag-0 value and all constant-Q vectors having one
   * length, the stored features are everything the distance pass reads.
   */
  lemma ExtractionMakesReady(c: Config, amountOfFrames: nat, t: Tables, frames: seq<FrameFeatures>)
    requires Allocated(t, c, amountOfFrames) && |frames| == amountOfFrames
    requires c.useMFCC ==> forall f :: 0 <= f < |frames| ==> c.mfccCoef <= |frames[f].mfcc|
    requires c.useAutoCorrelation ==> forall f :: 0 <= f < |frames| ==> 1 <= |frames[f].autoCorrelation|
    requires c.useCQT ==> forall f :: 0 <= f < |frames| ==> |frames[f].cqt| == |frames[0].cqt|
    ensures Feed(t, amountOfFrames, c, frames, 0).outcome == Pass
    ensures InputOf(c, amountOfFrames, Feed(t, amountOfFrames, c, frames, 0).tables).Ready()
  {
    FeedFills(t, amountOfFrames, c, frames, 0);
    var after := Feed(t, amountOfFrames, c, frames, 0).tables;
    forall k | Uses(c, k)
      ensures amountOfFrames <= |after.Table(k).value|
      ensures forall f :: 0 <= f < amountOfFrames ==> after.Table(k).value[f] == VectorOf(frames[f], k)
    {
    }
    assert Uses(c, Mfcc) == c.useMFCC && Uses(c, Cqt) == c.useCQT && Uses(c, AutoCorrelation) == c.useAutoCorrelation;
  }

  /** A fresh feature table with `n` frames, none of them delivered yet. */
  method NewTable(n: nat) returns (t: array<Vector>)
    ensures fresh(t) && t[..] == seq(n, _ => [])
  {
    t := new Vector[n](_ => []);
  }

  class AASModel<Segment> {
    var config: Config
    var audioFile: Option<AudioFile>
    var amountOfFrames: int
    var sampleRate: real
    var mfccs: array?<Vector>
    var cqtcs: array?<Vector>
    var autoCorrelationcs: array?<Vector>
    var similarityMatrix: array?<array<real>>
    var resultMatrix: array?<array<real>>
    var guiEnabled: bool
    var onlyStructureDetection: bool
    var segmentation: Segmentation<Segment>

    /** The three feature tables are separate arrays. */
    ghost predicate Valid()
      reads this`mfccs, this`cqtcs, this`autoCorrelationcs
    {
      && (mfccs == null || mfccs != cqtcs)
      && (mfccs == null || mfccs != autoCorrelationcs)
      && (cqtcs == null || cqtcs != autoCorrelationcs)
    }

    /** The table that holds kind `k`. */
    function Table(k: Kind): array?<Vector>
      reads this`mfccs, this`cqtcs, this`autoCorrelationcs
    {
      match k
      case Mfcc => mfccs
      case Cqt => cqtcs
      case AutoCorrelation => autoCorrelationcs
    }

    /** The contents of the three feature tables. */
    function Stored(): Tables
      reads this`mfccs, this`cqtcs, this`autoCorrelationcs, mfccs, cqtcs, autoCorrelationcs
    {
      Tables(Contents(mfccs), Contents(cqtcs), Contents(autoCorrelationcs))
    }

    /** What the self-similarity construction reads of this model. */
    function Input(): SelfSimilarity.Extracted
      reads this, mfccs, cqtcs, autoCorrelationcs
      requires amountOfFrames >= 0
    {
      InputOf(config, amountOfFrames, Stored())
    }

    /**
     * A new model reads the stored configuration; it has no audio file, no
     * features and no matrices yet, and nothing to reuse.
     */
    constructor (stored: Config)
      ensures config == stored && !onlyStructureDetection && !guiEnabled
      ensures audioFile == None && amountOfFrames == 0 && sampleRate == 0.0
      ensures mfccs == null && cqtcs == null && autoCorrelationcs == null
      ensures similarityMatrix == null && resultMatrix == null
      ensures segmentation == Cleared()
      ensures Valid()
    {
      config := Config(false, false, false, 0, 0, 0, 0, 0, 0.0, 0.0, false, false, false);
      audioFile := None;
      amountOfFrames := 0;
      sampleRate := 0.0;
      mfccs, cqtcs, autoCorrelationcs := null, null, null;
      similarityMatrix, resultMatrix := null, null;
      guiEnabled := false;
      onlyStructureDetection := false;
      segmentation := Cleared();
      new;
      var loaded := LoadConfiguration(stored);
    }

    /**
     * Reloads the settings from the stored configuration. Extracted features
     * stay reusable only if they were and no extraction setting changed.
     * With an audio file, the amount of frames is recomputed from its
     * length; that int division fails when `frameSize` equals `overlapping`,
     * after the settings and the flag are already updated.
     */
    method LoadConfiguration(stored: Config) returns (r: Outcome<ModelError>)
      modifies this`config, this`onlyStructureDetection, this`amountOfFrames
      ensures config == stored
      ensures onlyStructureDetection == KeepsReuse(old(config), stored, old(onlyStructureDetection))
      ensures audioFile.None? ==> r == Pass && amountOfFrames == old(amountOfFrames)
      ensures audioFile.Some? && stored.frameSize == stored.overlapping ==>
        r == Fail(DivisionByZero) && amountOfFrames == old(amountOfFrames)
      ensures audioFile.Some? && stored.frameSize != stored.overlapping ==>
        r == Pass && amountOfFrames == FramesOfLength(audioFile.value.frameLength, stored.frameSize, stored.overlapping)
    {
      var reuse := KeepsReuse(config, stored, onlyStructureDetection);
      config := stored;
      onlyStructureDetection := reuse;
      r := Pass;
      if audioFile.Some? {
        if config.frameSize - config.overlapping == 0 {
          return Fail(DivisionByZero);
        }
        amountOfFrames := FramesOfLength(audioFile.value.frameLength, config.frameSize, config.overlapping);
      }
    }

    /** A calculation starts from an empty segmentation. */
    method OnCalculationStarted()
      modifies this`segmentation
      ensures segmentation == Cleared()
    {
      segmentation := Cleared();
    }

    /** After a calculation the extracted features may be reused. */
    method OnCalculationEnd()
      modifies this`onlyStructureDetection
      ensures onlyStructureDetection
    {
      onlyStructureDetection := true;
    }

    /**
     * The effect of switching to the current audio file, `r` being how it
     * ended: nothing can be reused and the similarity matrix is dropped;
     * then the amount of frames and the sample rate are read from the file
     * and the segmentation is cleared — unless there is no file, or
     * `frameSize` equals `overlapping`, where the int division fails.
     */
    twostate predicate AudioFileChanged(new r: Outcome<ModelError>)
      reads this
    {
      && !onlyStructureDetection && similarityMatrix == null
      && (audioFile.None? ==>
            r == Fail(NoAudioFile)
            && amountOfFrames == old(amountOfFrames) && sampleRate == old(sampleRate) && segmentation == old(segmentation))
      && (audioFile.Some? && config.frameSize == config.overlapping ==>
            r == Fail(DivisionByZero)
            && amountOfFrames == old(amountOfFrames) && sampleRate == old(sampleRate) && segmentation == old(segmentation))
      && (audioFile.Some? && config.frameSize != config.overlapping ==>
            r == Pass
            && amountOfFrames == FramesOfLength(audioFile.value.frameLength, config.frameSize, config.overlapping)
            && sampleRate == audioFile.value.sampleRate && segmentation == Cleared())
    }

    method OnAudioFileChange() returns (r: Outcome<ModelError>)
      modifies this`onlyStructureDetection, this`similarityMatrix, this`amountOfFrames, this`sampleRate, this`segmentation
      ensures AudioFileChanged(r)
    {
      onlyStructureDetection := false;
      similarityMatrix := null;
      if audioFile.None? {
        return Fail(NoAudioFile);
      }
      if config.frameSize - config.overlapping == 0 {
        return Fail(DivisionByZero);
      }
      amountOfFrames := FramesOfLength(audioFile.value.frameLength, config.frameSize, config.overlapping);
      sampleRate := audioFile.value.sampleRate;
      segmentation := Cleared();
      r := Pass;
    }

    /**
     * Switches to a newly transcoded audio file (`None` when transcoding
     * failed). With the GUI the transcoding task hands over whatever it got
     * and the switch follows; without it a failed transcoding changes
     * nothing.
     */
    method SetNewAudioFile(transcoded: Option<AudioFile>) returns (r: Outcome<ModelError>)
      modifies this`audioFile, this`onlyStructureDetection, this`similarityMatrix, this`amountOfFrames,
               this`sampleRate, this`segmentation
      ensures guiEnabled || transcoded.Some? ==> audioFile == transcoded && AudioFileChanged(r)
      ensures !guiEnabled && transcoded.None? ==> r == Pass && unchanged(this)
    {
      if guiEnabled || transcoded.Some? {
        audioFile := transcoded;
        r := OnAudioFileChange();
      } else {
        r := Pass;
      }
    }

    /** Stores `features` at `frameNr` of table `t`; a null table or one too short fails. */
    static method StoreFrame(t: array?<Vector>, frameNr: int, features: Vector) returns (r: Outcome<ModelError>)
      requires 0 <= frameNr
      modifies t
      ensures t == null ==> r == Fail(Feature(TableUnavailable))
      ensures t != null && frameNr < t.Length ==> r == Pass && t[..] == old(t[..])[frameNr := features]
      ensures t != null && frameNr >= t.Length ==> r == Fail(Feature(TableUnavailable)) && t[..] == old(t[..])
    {
      if t == null || frameNr >= t.Length {
        return Fail(Feature(TableUnavailable));
      }
      t[frameNr] := features;
      r := Pass;
    }

    /**
     * Stores one frame's features in the table `featureOrigin` selects,
     * exactly as `Put` describes: the frame range first, then the origin,
     * then the table itself.
     */
    method AddFeaturesToFrame(frameNr: int, featureOrigin: int, features: Vector) returns (r: Outcome<ModelError>)
      requires Valid()
      modifies mfccs, cqtcs, autoCorrelationcs
      ensures var put := Put(old(Stored()), amountOfFrames, frameNr, featureOrigin, features);
        && (put.Success? ==> r == Pass && Stored() == put.value)
        && (put.Failure? ==> r == Fail(Feature(put.error)) && Stored() == old(Stored()))
    {
      if frameNr < 0 || frameNr >= amountOfFrames {
        return Fail(Feature(FrameOutOfRange));
      }
      if featureOrigin == FEATURE_ORIGIN_MFCC {
        r := StoreFrame(mfccs, frameNr, features);
      } else if featureOrigin == FEATURE_ORIGIN_CQT {
        r := StoreFrame(cqtcs, frameNr, features);
      } else if featureOrigin == FEATURE_ORIGIN_AUTOCORRELATIE {
        r := StoreFrame(autoCorrelationcs, frameNr, features);
      } else {
        r := Fail(Feature(UnknownOrigin));
      }
    }

    /**
     * The table `featureOrigin` selects — the array itself, not a copy —
     * exactly when `Lookup` finds it: a known origin whose table exists and
     * holds a frame.
     */
    method GetFeatures(featureOrigin: int) returns (r: Result<array<Vector>, ModelError>)
      ensures var lookup := Lookup(Stored(), featureOrigin);
        && (r.Success? <==> lookup.Success?)
        && (r.Success? ==> r.value == Table(KindOf(featureOrigin).value) && r.value[..] == lookup.value)
        && (r.Failure? ==> r.error == Feature(lookup.error))
    {
      var kind := KindOf(featureOrigin);
      if kind.None? {
        return Failure(Feature(UnknownOrigin));
      }
      var t := Table(kind.value);
      if t != null && t.Length > 0 {
        r := Success(t);
      } else {
        r := Failure(Feature(NoFeatures));
      }
    }

    /**
     * Unless the extracted features are reused, derives the amount of
     * frames from the audio's duration and gives every extracted kind a
     * fresh, empty table of that many frames; a kind not extracted keeps
     * its table. A negative amount of frames fails at the first table
     * allocated, before any table changes. Returns whether extraction runs.
     */
    method StartExtraction(durationInFrames: nat) returns (extracting: bool, r: Outcome<ModelError>)
      requires Valid()
      modifies this`amountOfFrames, this`mfccs, this`cqtcs, this`autoCorrelationcs
      ensures Valid()
      ensures extracting == !onlyStructureDetection
      ensures !extracting ==> r == Pass && amountOfFrames == old(amountOfFrames)
      ensures extracting ==> amountOfFrames == FrameCount(durationInFrames, config.frameSize, config.overlapping)
      ensures r == if extracting && amountOfFrames < 0 && UsesAny(config) then Fail(NegativeSize) else Pass
      ensures r.Pass? && extracting && config.useMFCC ==>
        mfccs != null && fresh(mfccs) && mfccs[..] == seq(amountOfFrames, _ => [])
      ensures r.Pass? && extracting && config.useAutoCorrelation ==>
        autoCorrelationcs != null && fresh(autoCorrelationcs) && autoCorrelationcs[..] == seq(amountOfFrames, _ => [])
      ensures r.Pass? && extracting && config.useCQT ==>
        cqtcs != null && fresh(cqtcs) && cqtcs[..] == seq(amountOfFrames, _ => [])
      ensures r.Fail? || !extracting || !config.useMFCC ==> mfccs == old(mfccs)
      ensures r.Fail? || !extracting || !config.useAutoCorrelation ==> autoCorrelationcs == old(autoCorrelationcs)
      ensures r.Fail? || !extracting || !config.useCQT ==> cqtcs == old(cqtcs)
      ensures r.Pass? && extracting ==> Allocated(Stored(), config, amountOfFrames)
    {
      extracting, r := !onlyStructureDetection, Pass;
      if !extracting {
        return;
      }
      amountOfFrames := FrameCount(durationInFrames, config.frameSize, config.overlapping);
      if amountOfFrames < 0 {
        if UsesAny(config) {
          r := Fail(NegativeSize);
        }
        return;
      }
      if config.useMFCC {
        mfccs := NewTable(amountOfFrames);
      }
      if config.useAutoCorrelation {
        autoCorrelationcs := NewTable(amountOfFrames);
      }
      if config.useCQT {
        cqtcs := NewTable(amountOfFrames);
      }
    }

    /**
     * Runs the extractors' callback over `frames`: event `count` has its
     * enabled kinds' vectors stored at frame `count`, up to the first store
     * that fails — exactly as `Feed` describes.
     */
    method ExtractFrames(frames: seq<FrameFeatures>) returns (r: Outcome<ModelError>)
      requires Valid()
      modifies mfccs, cqtcs, autoCorrelationcs
      ensures var fed := Feed(old(Stored()), amountOfFrames, config, frames, 0);
        && Stored() == fed.tables
        && r == if fed.outcome.Pass? then Pass else Fail(Feature(fed.outcome.error))
    {
      ghost var goal := Feed(Stored(), amountOfFrames, config, frames, 0);
      var count := 0;
      while count < |frames|
        invariant count <= |frames|
        invariant Feed(Stored(), amountOfFrames, config, frames, count) == goal
      {
        ghost var before := Stored();
        var f := frames[count];
        r := Pass;
        if config.useMFCC {
          r := AddFeaturesToFrame(count, FEATURE_ORIGIN_MFCC, f.mfcc);
        }
        if r.Pass? && config.useAutoCorrelation {
          r := AddFeaturesToFrame(count, FEATURE_ORIGIN_AUTOCORRELATIE, f.autoCorrelation);
        }
        if r.Pass? && config.useCQT {
          r := AddFeaturesToFrame(count, FEATURE_ORIGIN_CQT, f.cqt);
        }
        assert FeedFrame(before, amountOfFrames, config, count, f).tables == Stored();
        if r.Fail? {
          return;
        }
        count := count + 1;
      }
      r := Pass;
    }

    /**
     * Builds the self-similarity matrix from the stored features. A negative
     * amount of frames leaves no matrix; features the distance pass cannot
     * read leave the freshly allocated matrix of zeros; otherwise every
     * entry is the blended similarity of its pair of frames.
     */
    method ConstructSelfSimilarityMatrix(sqrt: real -> real) returns (r: Outcome<ModelError>)
      requires SelfSimilarity.SqrtLaws(sqrt)
      modifies this`similarityMatrix
      ensures amountOfFrames < 0 ==> r == Fail(NegativeSize) && similarityMatrix == null
      ensures amountOfFrames >= 0 ==>
        && similarityMatrix != null && fresh(similarityMatrix) && fresh(SelfSimilarity.Rows(similarityMatrix))
        && SelfSimilarity.Triangle(similarityMatrix, amountOfFrames)
      ensures amountOfFrames >= 0 ==> (r.Pass? <==> Input().Ready())
      ensures r.Pass? ==> similarityMatrix != null && SelfSimilarity.Blended(similarityMatrix, Input(), sqrt)
      ensures amountOfFrames >= 0 && r.Fail? ==>
        && r == Fail(FeaturesMissing) && similarityMatrix != null
        && forall i, j {:trigger similarityMatrix[i][j]} :: 0 <= j <= i < amountOfFrames ==> similarityMatrix[i][j] == 0.0
    {
      similarityMatrix := null;
      if amountOfFrames < 0 {
        return Fail(NegativeSize);
      }
      var e := Input();
      if !e.Ready() {
        similarityMatrix := SelfSimilarity.NewTriangle(amountOfFrames);
        return Fail(FeaturesMissing);
      }
      similarityMatrix := SelfSimilarity.Construct(e, sqrt);
      r := Pass;
    }

    /**
     * The working copy structure detection edits: as many rows as the
     * similarity matrix, each a fresh array with the same entries. A null
     * similarity matrix fails and leaves the old copy.
     */
    method CopyResultMatrix() returns (r: Outcome<ModelError>)
      modifies this`resultMatrix
      ensures similarityMatrix == null ==> r == Fail(NoSimilarityMatrix) && resultMatrix == old(resultMatrix)
      ensures similarityMatrix != null ==>
        && r == Pass && resultMatrix != null && fresh(resultMatrix)
        && resultMatrix.Length == similarityMatrix.Length
        && (forall i :: 0 <= i < resultMatrix.Length ==>
              fresh(resultMatrix[i]) && resultMatrix[i][..] == similarityMatrix[i][..])
        && (forall i, i' :: 0 <= i < i' < resultMatrix.Length ==> resultMatrix[i] != resultMatrix[i'])
    {
      if similarityMatrix == null {
        return Fail(NoSimilarityMatrix);
      }
      resultMatrix := SelfSimilarity.CopyMatrix(similarityMatrix);
      r := Pass;
    }

    /**
     * The end of a calculation: the working copy is made, the levels about
     * to be detected are cleared, and the result says whether structure
     * detection runs at all. Without a similarity matrix the copy fails
     * before anything is cleared.
     */
    method FinishCalculation() returns (r: Result<bool, ModelError>)
      modifies this`resultMatrix, this`segmentation
      ensures similarityMatrix == null ==>
        r == Failure(NoSimilarityMatrix) && resultMatrix == old(resultMatrix) && segmentation == old(segmentation)
      ensures similarityMatrix != null ==>
        && r == Success(RunsDetection(config))
        && resultMatrix != null && fresh(resultMatrix) && resultMatrix.Length == similarityMatrix.Length
        && (forall i :: 0 <= i < resultMatrix.Length ==>
              fresh(resultMatrix[i]) && resultMatrix[i][..] == similarityMatrix[i][..])
        && segmentation == ClearForRun(config, old(segmentation))
    {
      var copied := CopyResultMatrix();
      if copied.Fail? {
        return Failure(copied.error);
      }
      segmentation := ClearForRun(config, segmentation);
      r := Success(RunsDetection(config));
    }
  }
}
