/**
 * Feature extraction as the analysis model drives it: for every audio
 * event, each enabled extractor delivers one vector, and the model stores
 * those vectors at the event's frame number — MFCC first, then
 * autocorrelation, then constant-Q. A failing store ends the run; what was
 * stored before it stays.
 */
module Extraction {
  import opened Results
  import opened Features
  import opened Session

  /** The vectors the three extractors deliver for one audio event. */
  datatype FrameFeatures = FrameFeatures(mfcc: Vector, autoCorrelation: Vector, cqt: Vector)

  /** Whether configuration `c` extracts kind `k`. */
  predicate Uses(c: Config, k: Kind)
  {
    match k
    case Mfcc => c.useMFCC
    case Cqt => c.useCQT
    case AutoCorrelation => c.useAutoCorrelation
  }

  /** Whether configuration `c` extracts any kind at all. */
  predicate UsesAny(c: Config)
  {
    c.useMFCC || c.useAutoCorrelation || c.useCQT
  }

  function VectorOf(f: FrameFeatures, k: Kind): Vector
  {
    match k
    case Mfcc => f.mfcc
    case Cqt => f.cqt
    case AutoCorrelation => f.autoCorrelation
  }

  /** The tables after a run of stores, and how the run ended. */
  datatype Fed = Fed(tables: Tables, outcome: Outcome<FeatureError>)

  /** `after` has the same tables as `before`, each as long as before: a store only overwrites a slot. */
  predicate SameShape(before: Tables, after: Tables)
  {
    forall k ::
      && after.Table(k).Some? == before.Table(k).Some?
      && (before.Table(k).Some? ==> |after.Table(k).value| == |before.Table(k).value|)
  }

  /**
   * Stores event `count`'s vector of kind `k`, if `c` extracts that kind. A
   * kind not extracted stores nothing and cannot fail, and a failed store
   * changes nothing.
   */
  function PutKind(t: Tables, amountOfFrames: int, c: Config, count: int, f: FrameFeatures, k: Kind): (r: Fed)
    ensures !Uses(c, k) ==> r == Fed(t, Pass)
    ensures r.outcome.Fail? ==> r.tables == t
  {
    if !Uses(c, k) then Fed(t, Pass)
    else match Put(t, amountOfFrames, count, Origin(k), VectorOf(f, k))
      case Success(after) => Fed(after, Pass)
      case Failure(e) => Fed(t, Fail(e))
  }

  /**
   * One audio event: the MFCC, autocorrelation and constant-Q stores in
   * turn, up to the first failure. With no kind extracted it stores nothing
   * and cannot fail.
   */
  function FeedFrame(t: Tables, amountOfFrames: int, c: Config, count: int, f: FrameFeatures): (r: Fed)
    ensures !UsesAny(c) ==> r == Fed(t, Pass)
  {
    var m := PutKind(t, amountOfFrames, c, count, f, Mfcc);
    if m.outcome.Fail? then m
    else
      var a := PutKind(m.tables, amountOfFrames, c, count, f, AutoCorrelation);
      if a.outcome.Fail? then a
      else PutKind(a.tables, amountOfFrames, c, count, f, Cqt)
  }

  /**
   * Events `count ..` of `frames`, event `f` stored at frame `f`, up to the
   * first failure. Only a store can fail, so a run that extracts nothing
   * succeeds.
   */
  function Feed(t: Tables, amountOfFrames: int, c: Config, frames: seq<FrameFeatures>, count: nat): (r: Fed)
    requires count <= |frames|
    ensures r.outcome.Fail? ==> UsesAny(c)
    decreases |frames| - count
  {
    if count == |frames| then Fed(t, Pass)
    else
      var s := FeedFrame(t, amountOfFrames, c, count, frames[count]);
      if s.outcome.Fail? then s else Feed(s.tables, amountOfFrames, c, frames, count + 1)
  }

  /**
   * One store changes at most its own kind's table, and only by
   * overwriting one slot.
   */
  lemma PutKindKeepsShape(t: Tables, amountOfFrames: int, c: Config, count: int, f: FrameFeatures, k: Kind)
    ensures var r := PutKind(t, amountOfFrames, c, count, f, k);
      && (forall other: Kind :: other != k ==> r.tables.Table(other) == t.Table(other))
      && SameShape(t, r.tables)
  {
  }

  /** One event creates, drops or resizes no table, and touches no table of a kind `c` does not extract. */
  lemma FeedFrameKeepsShape(t: Tables, amountOfFrames: int, c: Config, count: int, f: FrameFeatures)
    ensures var r := FeedFrame(t, amountOfFrames, c, count, f);
      && (forall k :: !Uses(c, k) ==> r.tables.Table(k) == t.Table(k))
      && SameShape(t, r.tables)
  {
    var m := PutKind(t, amountOfFrames, c, count, f, Mfcc);
    PutKindKeepsShape(t, amountOfFrames, c, count, f, Mfcc);
    var a := PutKind(m.tables, amountOfFrames, c, count, f, AutoCorrelation);
    PutKindKeepsShape(m.tables, amountOfFrames, c, count, f, AutoCorrelation);
    PutKindKeepsShape(a.tables, amountOfFrames, c, count, f, Cqt);
  }

  /**
   * Whatever the events, feeding creates, drops or resizes no table, and
   * never touches the tables of kinds `c` does not extract.
   */
  lemma {:induction false} FeedKeepsShape(t: Tables, amountOfFrames: int, c: Config, frames: seq<FrameFeatures>, count: nat)
    requires count <= |frames|
    ensures forall k :: !Uses(c, k) ==> Feed(t, amountOfFrames, c, frames, count).tables.Table(k) == t.Table(k)
    ensures SameShape(t, Feed(t, amountOfFrames, c, frames, count).tables)
    decreases |frames| - count
  {
    if count < |frames| {
      var s := FeedFrame(t, amountOfFrames, c, count, frames[count]);
      FeedFrameKeepsShape(t, amountOfFrames, c, count, frames[count]);
      if s.outcome.Pass? {
        FeedKeepsShape(s.tables, amountOfFrames, c, frames, count + 1);
      }
    }
  }

  /** Every table `c` extracts exists and has room for `amountOfFrames` frames. */
  predicate Allocated(t: Tables, c: Config, amountOfFrames: int)
  {
    forall k :: Uses(c, k) ==> t.Table(k).Some? && amountOfFrames <= |t.Table(k).value|
  }

  /**
   * `after` is `before` with the vectors of events `from .. |frames|-1`
   * stored at their frames in every table `c` extracts; every other entry,
   * and every table `c` does not extract, is as it was.
   */
  ghost predicate Stores(before: Tables, after: Tables, c: Config, frames: seq<FrameFeatures>, from: nat)
  {
    forall k ::
      if Uses(c, k) then
        && before.Table(k).Some? && after.Table(k).Some?
        && |after.Table(k).value| == |before.Table(k).value|
        && forall f :: 0 <= f < |before.Table(k).value| ==>
             after.Table(k).value[f] == if from <= f < |frames| then VectorOf(frames[f], k) else before.Table(k).value[f]
      else after.Table(k) == before.Table(k)
  }

  /** An event whose frame fits is stored in every extracted table, and nowhere else. */
  lemma FeedFrameStores(t: Tables, amountOfFrames: int, c: Config, count: int, f: FrameFeatures)
    requires 0 <= count < amountOfFrames && Allocated(t, c, amountOfFrames)
    ensures FeedFrame(t, amountOfFrames, c, count, f).outcome == Pass
    ensures var after := FeedFrame(t, amountOfFrames, c, count, f).tables;
      forall k :: after.Table(k) == if Uses(c, k) then Some(t.Table(k).value[count := VectorOf(f, k)]) else t.Table(k)
  {
    var m := PutKind(t, amountOfFrames, c, count, f, Mfcc);
    assert m.outcome == Pass;
    var a := PutKind(m.tables, amountOfFrames, c, count, f, AutoCorrelation);
    assert a.outcome == Pass;
    var q := PutKind(a.tables, amountOfFrames, c, count, f, Cqt);
    assert q.outcome == Pass;
    forall k
      ensures q.tables.Table(k) == if Uses(c, k) then Some(t.Table(k).value[count := VectorOf(f, k)]) else t.Table(k)
    {
    }
  }

  /** An event whose frame is past the end fails at the first extracted kind, and stores nothing. */
  lemma FeedFrameOutOfRange(t: Tables, amountOfFrames: int, c: Config, count: int, f: FrameFeatures)
    requires count >= amountOfFrames && UsesAny(c)
    ensures FeedFrame(t, amountOfFrames, c, count, f) == Fed(t, Fail(FrameOutOfRange))
  {
  }

  /**
   * When every event fits, feeding succeeds and stores each event's
   * vectors at its frame in every extracted table, leaving the rest as it
   * was.
   */
  lemma {:induction false} FeedFills(t: Tables, amountOfFrames: int, c: Config, frames: seq<FrameFeatures>, count: nat)
    requires count <= |frames| <= amountOfFrames && Allocated(t, c, amountOfFrames)
    ensures Feed(t, amountOfFrames, c, frames, count).outcome == Pass
    ensures Stores(t, Feed(t, amountOfFrames, c, frames, count).tables, c, frames, count)
    decreases |frames| - count
  {
    if count < |frames| {
      var s := FeedFrame(t, amountOfFrames, c, count, frames[count]);
      FeedFrameStores(t, amountOfFrames, c, count, frames[count]);
      assert Allocated(s.tables, c, amountOfFrames);
      FeedFills(s.tables, amountOfFrames, c, frames, count + 1);
      StoresStep(t, s.tables, Feed(s.tables, amountOfFrames, c, frames, count + 1).tables, c, frames, count);
    }
  }

  /** Storing event `count` and then events `count + 1 ..` is storing events `count ..`. */
  lemma StoresStep(t: Tables, s: Tables, after: Tables, c: Config, frames: seq<FrameFeatures>, count: nat)
    requires count < |frames| && Allocated(t, c, count + 1)
    requires forall k :: s.Table(k) == if Uses(c, k) then Some(t.Table(k).value[count := VectorOf(frames[count], k)]) else t.Table(k)
    requires Stores(s, after, c, frames, count + 1)
    ensures Stores(t, after, c, frames, count)
  {
    forall k | Uses(c, k)
      ensures forall f :: 0 <= f < |t.Table(k).value| ==>
        after.Table(k).value[f] == if count <= f < |frames| then VectorOf(frames[f], k) else t.Table(k).value[f]
    {
      assert s.Table(k).value == t.Table(k).value[count := VectorOf(frames[count], k)];
    }
  }

  /**
   * With more events than frames, feeding fails with `FrameOutOfRange` at
   * the first event past the end — unless no kind is extracted, when
   * nothing is stored and nothing fails — after storing every event that
   * fits.
   */
  lemma {:induction false} FeedOverflows(t: Tables, amountOfFrames: int, c: Config, frames: seq<FrameFeatures>, count: nat)
    requires count <= amountOfFrames < |frames| && Allocated(t, c, amountOfFrames)
    ensures Feed(t, amountOfFrames, c, frames, count).outcome == if UsesAny(c) then Fail(FrameOutOfRange) else Pass
    ensures Stores(t, Feed(t, amountOfFrames, c, frames, count).tables, c, frames[..amountOfFrames], count)
    decreases |frames| - count
  {
    var s := FeedFrame(t, amountOfFrames, c, count, frames[count]);
    if count < amountOfFrames {
      FeedFrameStores(t, amountOfFrames, c, count, frames[count]);
      assert Allocated(s.tables, c, amountOfFrames);
      FeedOverflows(s.tables, amountOfFrames, c, frames, count + 1);
      StoresStep(t, s.tables, Feed(s.tables, amountOfFrames, c, frames, count + 1).tables, c, frames[..amountOfFrames], count);
    } else if UsesAny(c) {
      FeedFrameOutOfRange(t, amountOfFrames, c, count, frames[count]);
    } else {
      NothingExtracted(t, amountOfFrames, c, frames, count);
    }
  }

  /** Without an extracted kind, feeding stores nothing and never fails. */
  lemma {:induction false} NothingExtracted(t: Tables, amountOfFrames: int, c: Config, frames: seq<FrameFeatures>, count: nat)
    requires count <= |frames| && !UsesAny(c)
    ensures Feed(t, amountOfFrames, c, frames, count) == Fed(t, Pass)
    decreases |frames| - count
  {
    if count < |frames| {
      NothingExtracted(t, amountOfFrames, c, frames, count + 1);
    }
  }
}
