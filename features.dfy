/**
 * The per-frame feature store of the analysis model: three tables (MFCC,
 * constant-Q, autocorrelation), each holding one feature vector per frame,
 * addressed by an integer feature origin.
 *
 * This module states the store on values; the class `Model.AASModel` keeps
 * the tables in arrays and is proved against `Put` and `Lookup`.
 */
module Features {
  import opened Results

  /** One frame's feature vector as an extractor delivers it. */
  type Vector = seq<real>

  /** The integer feature origins callers pass in. */
  const FEATURE_ORIGIN_MFCC: int := 0
  const FEATURE_ORIGIN_CQT: int := 1
  const FEATURE_ORIGIN_AUTOCORRELATIE: int := 2

  datatype Kind = Mfcc | Cqt | AutoCorrelation

  /** The constant that selects kind `k`. */
  function Origin(k: Kind): (origin: int)
    ensures KindOf(origin) == Some(k)
  {
    match k
    case Mfcc => FEATURE_ORIGIN_MFCC
    case Cqt => FEATURE_ORIGIN_CQT
    case AutoCorrelation => FEATURE_ORIGIN_AUTOCORRELATIE
  }

  /** The kind an integer origin selects; only the three constants select one. */
  function KindOf(origin: int): (k: Option<Kind>)
    ensures k.Some? <==> origin in {FEATURE_ORIGIN_MFCC, FEATURE_ORIGIN_CQT, FEATURE_ORIGIN_AUTOCORRELATIE}
  {
    if origin == FEATURE_ORIGIN_MFCC then Some(Mfcc)
    else if origin == FEATURE_ORIGIN_CQT then Some(Cqt)
    else if origin == FEATURE_ORIGIN_AUTOCORRELATIE then Some(AutoCorrelation)
    else None
  }

  datatype FeatureError =
    | FrameOutOfRange   // frame number negative or not below the amount of frames
    | UnknownOrigin     // origin is none of the three constants
    | TableUnavailable  // the kind's table is null or not longer than the frame number (a JVM runtime exception)
    | NoFeatures        // the kind's table is null or empty when it is read

  /** The contents of the three tables; `None` stands for a null table. */
  datatype Tables = Tables(mfccs: Option<seq<Vector>>, cqtcs: Option<seq<Vector>>, autoCorrelationcs: Option<seq<Vector>>)
  {
    function Table(k: Kind): Option<seq<Vector>>
    {
      match k
      case Mfcc => mfccs
      case Cqt => cqtcs
      case AutoCorrelation => autoCorrelationcs
    }

    /** These tables with kind `k`'s table replaced by `s`. */
    function With(k: Kind, s: seq<Vector>): (r: Tables)
      ensures r.Table(k) == Some(s)
      ensures forall other: Kind :: other != k ==> r.Table(other) == Table(other)
    {
      match k
      case Mfcc => this.(mfccs := Some(s))
      case Cqt => this.(cqtcs := Some(s))
      case AutoCorrelation => this.(autoCorrelationcs := Some(s))
    }
  }

  /**
   * Storing `features` as frame `frameNr` of the table `origin` selects.
   * The frame range is checked first, against `amountOfFrames` (not against
   * the table's length); then the origin; then the table itself must exist
   * and reach that frame.
   */
  function Put(t: Tables, amountOfFrames: int, frameNr: int, origin: int, features: Vector): (r: Result<Tables, FeatureError>)
    ensures frameNr < 0 || frameNr >= amountOfFrames ==> r == Failure(FrameOutOfRange)
    ensures 0 <= frameNr < amountOfFrames && KindOf(origin).None? ==> r == Failure(UnknownOrigin)
    ensures r.Success? <==>
      && 0 <= frameNr < amountOfFrames
      && KindOf(origin).Some?
      && t.Table(KindOf(origin).value).Some?
      && frameNr < |t.Table(KindOf(origin).value).value|
    ensures r.Failure? && 0 <= frameNr < amountOfFrames && KindOf(origin).Some? ==> r.error == TableUnavailable
    ensures r.Success? ==>
      var k := KindOf(origin).value;
      && r.value.Table(k) == Some(t.Table(k).value[frameNr := features])
      && forall other: Kind :: other != k ==> r.value.Table(other) == t.Table(other)
  {
    if frameNr < 0 || frameNr >= amountOfFrames then Failure(FrameOutOfRange)
    else match KindOf(origin)
      case None => Failure(UnknownOrigin)
      case Some(k) =>
        match t.Table(k)
        case None => Failure(TableUnavailable)
        case Some(s) =>
          if frameNr < |s| then Success(t.With(k, s[frameNr := features])) else Failure(TableUnavailable)
  }

  /** Reading the whole table `origin` selects: it must exist and hold at least one frame. */
  function Lookup(t: Tables, origin: int): (r: Result<seq<Vector>, FeatureError>)
    ensures KindOf(origin).None? ==> r == Failure(UnknownOrigin)
    ensures r.Success? <==>
      && KindOf(origin).Some?
      && t.Table(KindOf(origin).value).Some?
      && |t.Table(KindOf(origin).value).value| > 0
    ensures r.Success? ==> Some(r.value) == t.Table(KindOf(origin).value)
    ensures r.Failure? && KindOf(origin).Some? ==> r.error == NoFeatures
  {
    match KindOf(origin)
    case None => Failure(UnknownOrigin)
    case Some(k) =>
      match t.Table(k)
      case None => Failure(NoFeatures)
      case Some(s) => if |s| > 0 then Success(s) else Failure(NoFeatures)
  }

  /**
   * A stored vector can be read back at its frame, and the tables of every
   * other origin read exactly as before.
   */
  lemma PutThenLookup(t: Tables, amountOfFrames: int, frameNr: int, origin: int, features: Vector)
    requires Put(t, amountOfFrames, frameNr, origin, features).Success?
    ensures var after := Put(t, amountOfFrames, frameNr, origin, features).value;
      && Lookup(after, origin).Success?
      && 0 <= frameNr < |Lookup(after, origin).value|
      && Lookup(after, origin).value[frameNr] == features
      && (forall f :: 0 <= f < |Lookup(after, origin).value| && f != frameNr ==>
            Lookup(after, origin).value[f] == t.Table(KindOf(origin).value).value[f])
      && (forall o :: KindOf(o) != KindOf(origin) ==> Lookup(after, o) == Lookup(t, o))
  {
    var k := KindOf(origin).value;
    var after := Put(t, amountOfFrames, frameNr, origin, features).value;
    forall o | KindOf(o) != KindOf(origin)
      ensures Lookup(after, o) == Lookup(t, o)
    {
      if KindOf(o).Some? {
        assert after.Table(KindOf(o).value) == t.Table(KindOf(o).value);
      }
    }
  }
}
