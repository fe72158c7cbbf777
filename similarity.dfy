/**
 * The self-similarity matrix builder. For every enabled feature kind it
 * computes a distance for each frame pair `(i, j)` with `j <= i`, keeps a
 * running minimum and maximum over all pairs, and then blends the kinds'
 * min-max normalised distances into one score per pair:
 * `MAX_SCALE_VALUE - sum of (d - min) / (max - min) * (MAX_SCALE_VALUE / factor)`
 * where `factor` is the number of enabled kinds.
 *
 * Floats are modelled as reals. The square root is a parameter: all the
 * properties below need of it is that it is non-negative on non-negative
 * arguments and zero at zero.
 */
module SelfSimilarity {
  import opened Features

  /** The top of the similarity scale; a pair of identical frames scores this. */
  const MAX_SCALE_VALUE: real := 1000.0

  /**
   * `Float.MIN_VALUE`, 2^-149, the smallest positive float: the initial
   * running maximum. Being positive, it keeps every maximum above the
   * minimum, so normalisation never divides by zero.
   */
  const FLOAT_MIN_VALUE: real := 1.0 / 713623846352979940529142984724747568191373312.0

  /** `Float.MAX_VALUE`: the initial running minimum. */
  const FLOAT_MAX_VALUE: real := 340282346638528859811704183484516925440.0

  /** What the builder relies on about the square root it is given. */
  ghost predicate SqrtLaws(sqrt: real -> real)
  {
    && sqrt(0.0) == 0.0
    && forall x: real :: 0.0 <= x ==> 0.0 <= sqrt(x)
  }

  function Abs(x: real): real
  {
    if x < 0.0 then -x else x
  }

  /** The builder's inputs: which kinds are enabled, the amount of frames, and the feature tables. */
  datatype Extracted = Extracted(
    useMFCC: bool,
    useAutoCorrelation: bool,
    useCQT: bool,
    size: nat,
    mfccCoef: int,
    mfccs: seq<Vector>,
    cqtcs: seq<Vector>,
    autoCorrelationcs: seq<Vector>)
  {
    predicate Enabled(k: Kind)
    {
      match k
      case Mfcc => useMFCC
      case Cqt => useCQT
      case AutoCorrelation => useAutoCorrelation
    }

    /** The number of enabled kinds, each of which gets an equal share of the scale. */
    function Factor(): (n: nat)
      ensures n <= 3
      ensures n == 0 <==> !useMFCC && !useAutoCorrelation && !useCQT
    {
      (if useMFCC then 1 else 0) + (if useAutoCorrelation then 1 else 0) + (if useCQT then 1 else 0)
    }

    /**
     * Every vector the distance pass reads exists: MFCC rows reach
     * coefficient `mfccCoef - 1` (with `mfccCoef` at most 1 the pass reads
     * no MFCC row at all, so the table may be missing), each constant-Q row
     * `i` with a coefficient past the first is no longer than any earlier
     * row `j` it is compared with, and every autocorrelation row has its
     * lag-0 value.
     */
    predicate Ready()
    {
      && (useMFCC && mfccCoef > 1 ==>
            && size <= |mfccs|
            && forall i :: 0 <= i < size ==> mfccCoef <= |mfccs[i]|)
      && (useCQT ==>
            && size <= |cqtcs|
            && forall i, j :: 0 <= j <= i < size ==> |cqtcs[i]| <= 1 || |cqtcs[i]| <= |cqtcs[j]|)
      && (useAutoCorrelation ==>
            && size <= |autoCorrelationcs|
            && forall i :: 0 <= i < size ==> 1 <= |autoCorrelationcs[i]|)
    }
  }

  /** The sum of squared differences of coefficients `1 .. n-1`; coefficient 0 is skipped. */
  function SquaredGap(a: Vector, b: Vector, n: int): (r: real)
    requires n <= 1 || (n <= |a| && n <= |b|)
    ensures 0.0 <= r
    ensures a == b ==> r == 0.0
    decreases n
  {
    if n <= 1 then 0.0
    else SquaredGap(a, b, n - 1) + (a[n - 1] - b[n - 1]) * (a[n - 1] - b[n - 1])
  }

  /** Coefficient 0 never contributes to the squared gap. */
  lemma {:induction false} SquaredGapSkipsCoefficientZero(a: Vector, b: Vector, n: int, x: real)
    requires |a| > 0
    requires n <= 1 || (n <= |a| && n <= |b|)
    ensures SquaredGap(a[0 := x], b, n) == SquaredGap(a, b, n)
    decreases n
  {
    if n > 1 {
      SquaredGapSkipsCoefficientZero(a, b, n - 1, x);
    }
  }

  /** The Euclidean distance over coefficients `1 .. n-1`. */
  function Euclidean(a: Vector, b: Vector, n: int, sqrt: real -> real): (r: real)
    requires SqrtLaws(sqrt)
    requires n <= 1 || (n <= |a| && n <= |b|)
    ensures 0.0 <= r
    ensures a == b ==> r == 0.0
  {
    sqrt(SquaredGap(a, b, n))
  }

  /**
   * The Euclidean distance of rows `i` and `j` of table `t` over
   * coefficients `1 .. n-1`. With `n` at most 1 the sum is empty and no row
   * is read: the distance is the root of 0.
   */
  function RowDistance(t: seq<Vector>, i: int, j: int, n: int, sqrt: real -> real): (r: real)
    requires SqrtLaws(sqrt)
    requires n <= 1 || (0 <= i < |t| && 0 <= j < |t| && n <= |t[i]| && n <= |t[j]|)
    ensures 0.0 <= r
    ensures i == j ==> r == 0.0
    ensures n <= 1 ==> r == 0.0
    ensures n > 1 ==> r == Euclidean(t[i], t[j], n, sqrt)
  {
    if n <= 1 then sqrt(0.0) else Euclidean(t[i], t[j], n, sqrt)
  }

  /** The autocorrelation distance: the root of the absolute difference of the lag-0 values. */
  function LagZeroDistance(a: Vector, b: Vector, sqrt: real -> real): (r: real)
    requires SqrtLaws(sqrt)
    requires 1 <= |a| && 1 <= |b|
    ensures 0.0 <= r
    ensures a[0] == b[0] ==> r == 0.0
  {
    sqrt(Abs(a[0] - b[0]))
  }

  /** The distance of kind `k` between frames `i` and `j`. */
  function Distance(e: Extracted, k: Kind, i: int, j: int, sqrt: real -> real): (r: real)
    requires e.Ready() && e.Enabled(k) && SqrtLaws(sqrt)
    requires 0 <= j <= i < e.size
    ensures 0.0 <= r
    ensures i == j ==> r == 0.0
  {
    match k
    case Mfcc => RowDistance(e.mfccs, i, j, e.mfccCoef, sqrt)
    case Cqt => RowDistance(e.cqtcs, i, j, |e.cqtcs[i]|, sqrt)
    case AutoCorrelation => LagZeroDistance(e.autoCorrelationcs[i], e.autoCorrelationcs[j], sqrt)
  }

  /** Row `i` of a lower-triangular matrix has `i + 1` entries. */
  predicate IsTriangle(m: seq<seq<real>>, size: nat)
  {
    |m| == size && forall i :: 0 <= i < size ==> |m[i]| == i + 1
  }

  /** The lower-triangular matrix of kind `k`'s distances. */
  function Distances(e: Extracted, k: Kind, sqrt: real -> real): (d: seq<seq<real>>)
    requires e.Ready() && e.Enabled(k) && SqrtLaws(sqrt)
    ensures IsTriangle(d, e.size)
  {
    seq(e.size, i requires 0 <= i < e.size =>
      seq(i + 1, j requires 0 <= j <= i => Distance(e, k, i, j, sqrt)))
  }

  /** The rows of a matrix laid end to end, in the order the distance pass visits them. */
  function Flatten(m: seq<seq<real>>): seq<real>
  {
    if m == [] then [] else Flatten(m[..|m| - 1]) + m[|m| - 1]
  }

  /** The running maximum of `s` as the distance pass keeps it, starting from `init`. */
  function Largest(init: real, s: seq<real>): real
  {
    if s == [] then init
    else if s[|s| - 1] > Largest(init, s[..|s| - 1]) then s[|s| - 1]
    else Largest(init, s[..|s| - 1])
  }

  /** The running maximum bounds the start value and every element, and is one of them. */
  lemma {:induction false} LargestBounds(init: real, s: seq<real>)
    ensures init <= Largest(init, s)
    ensures forall x :: x in s ==> x <= Largest(init, s)
    ensures Largest(init, s) == init || Largest(init, s) in s
    decreases |s|
  {
    if s != [] {
      LargestBounds(init, s[..|s| - 1]);
      assert s == s[..|s| - 1] + [s[|s| - 1]];
    }
  }

  /** The running minimum of `s` as the distance pass keeps it, starting from `init`. */
  function Smallest(init: real, s: seq<real>): real
  {
    if s == [] then init
    else if s[|s| - 1] < Smallest(init, s[..|s| - 1]) then s[|s| - 1]
    else Smallest(init, s[..|s| - 1])
  }

  /** The running minimum is bounded by the start value and every element, and is one of them. */
  lemma {:induction false} SmallestBounds(init: real, s: seq<real>)
    ensures Smallest(init, s) <= init
    ensures forall x :: x in s ==> Smallest(init, s) <= x
    ensures Smallest(init, s) == init || Smallest(init, s) in s
    decreases |s|
  {
    if s != [] {
      SmallestBounds(init, s[..|s| - 1]);
      assert s == s[..|s| - 1] + [s[|s| - 1]];
    }
  }

  /** The minimum the distance pass ends with for kind `k`. */
  function Lowest(e: Extracted, k: Kind, sqrt: real -> real): real
    requires e.Ready() && e.Enabled(k) && SqrtLaws(sqrt)
  {
    Smallest(FLOAT_MAX_VALUE, Flatten(Distances(e, k, sqrt)))
  }

  /** The maximum the distance pass ends with for kind `k`. */
  function Highest(e: Extracted, k: Kind, sqrt: real -> real): real
    requires e.Ready() && e.Enabled(k) && SqrtLaws(sqrt)
  {
    Largest(FLOAT_MIN_VALUE, Flatten(Distances(e, k, sqrt)))
  }

  /** Every entry of the matrix occurs in its flattening. */
  lemma {:induction false} InFlatten(m: seq<seq<real>>, i: int, j: int)
    requires 0 <= i < |m| && 0 <= j < |m[i]|
    ensures m[i][j] in Flatten(m)
    decreases |m|
  {
    if i < |m| - 1 {
      InFlatten(m[..|m| - 1], i, j);
    }
  }

  /** Every element of the flattening is an entry of the matrix, so a bound on all entries bounds it. */
  lemma {:induction false} FlattenBelow(m: seq<seq<real>>, lo: real)
    requires forall i, j :: 0 <= i < |m| && 0 <= j < |m[i]| ==> lo <= m[i][j]
    ensures forall x :: x in Flatten(m) ==> lo <= x
    decreases |m|
  {
    if m != [] {
      FlattenBelow(m[..|m| - 1], lo);
    }
  }

  /**
   * After the distance pass, kind `k`'s minimum and maximum bracket every
   * distance; the minimum is exactly 0 (the distance of a frame to itself)
   * and the maximum is at least `FLOAT_MIN_VALUE`, so it lies strictly above
   * the minimum.
   */
  lemma Bracket(e: Extracted, k: Kind, i: int, j: int, sqrt: real -> real)
    requires e.Ready() && e.Enabled(k) && SqrtLaws(sqrt)
    requires 0 <= j <= i < e.size
    ensures Lowest(e, k, sqrt) <= Distance(e, k, i, j, sqrt) <= Highest(e, k, sqrt)
    ensures Lowest(e, k, sqrt) == 0.0
    ensures FLOAT_MIN_VALUE <= Highest(e, k, sqrt)
  {
    var d := Distances(e, k, sqrt);
    LargestBounds(FLOAT_MIN_VALUE, Flatten(d));
    SmallestBounds(FLOAT_MAX_VALUE, Flatten(d));
    InFlatten(d, i, j);
    InFlatten(d, 0, 0);
    FlattenBelow(d, 0.0);
  }

  /** The min-max normalised value of `d`, scaled to `[0, c]`. */
  function Normalised(d: real, lo: real, hi: real, c: real): (r: real)
    requires lo <= d <= hi && lo < hi && 0.0 <= c
    ensures 0.0 <= r <= c
    ensures d == lo ==> r == 0.0
    ensures d == hi ==> r == c
  {
    var w := hi - lo;
    var t := (d - lo) / w;
    assert t * w == d - lo;
    assert 0.0 <= t <= 1.0;
    assert t * c <= 1.0 * c;
    t * c
  }

  /** The amount kind `k` subtracts from the score of pair `(i, j)`. */
  function Share(e: Extracted, k: Kind, i: int, j: int, sqrt: real -> real): (r: real)
    requires e.Ready() && SqrtLaws(sqrt)
    requires 0 <= j <= i < e.size
    ensures !e.Enabled(k) ==> r == 0.0
    ensures e.Enabled(k) ==> 0.0 <= r <= MAX_SCALE_VALUE / e.Factor() as real
    ensures i == j ==> r == 0.0
  {
    if !e.Enabled(k) then 0.0
    else
      Bracket(e, k, i, j, sqrt);
      Normalised(Distance(e, k, i, j, sqrt), Lowest(e, k, sqrt), Highest(e, k, sqrt), MAX_SCALE_VALUE / e.Factor() as real)
  }

  /**
   * The blended similarity of frames `i` and `j`: the scale minus each
   * enabled kind's share. It always lies in `[0, MAX_SCALE_VALUE]`, and a
   * frame compared with itself scores exactly `MAX_SCALE_VALUE`.
   */
  function Similarity(e: Extracted, i: int, j: int, sqrt: real -> real): (r: real)
    requires e.Ready() && SqrtLaws(sqrt)
    requires 0 <= j <= i < e.size
    ensures 0.0 <= r <= MAX_SCALE_VALUE
    ensures i == j ==> r == MAX_SCALE_VALUE
  {
    var m, a, c := Share(e, Mfcc, i, j, sqrt), Share(e, AutoCorrelation, i, j, sqrt), Share(e, Cqt, i, j, sqrt);
    assert m + a + c <= MAX_SCALE_VALUE by {
      var f := e.Factor();
      if f == 1 {
      } else if f == 2 {
      } else if f == 3 {
      }
    }
    MAX_SCALE_VALUE - m - a - c
  }

  /**
   * A pair whose distances are all 0 scores the full scale: each enabled
   * kind's distance is then the minimum, so its share is 0, whatever the
   * vectors themselves are (they may differ at coefficient 0, past
   * `mfccCoef`, or at lags other than 0).
   */
  lemma ZeroDistancesAreFullySimilar(e: Extracted, sqrt: real -> real, i: int, j: int)
    requires e.Ready() && SqrtLaws(sqrt)
    requires 0 <= j <= i < e.size
    requires forall k: Kind | e.Enabled(k) :: Distance(e, k, i, j, sqrt) == 0.0
    ensures Similarity(e, i, j, sqrt) == MAX_SCALE_VALUE
  {
    forall k: Kind | e.Enabled(k)
      ensures Share(e, k, i, j, sqrt) == 0.0
    {
      Bracket(e, k, i, j, sqrt);
    }
  }

  /**
   * Silent or constant input: when every enabled kind delivers the same
   * vector for every frame it reads, all distances are 0 and every entry of
   * the matrix is `MAX_SCALE_VALUE` (the maximum stays at
   * `FLOAT_MIN_VALUE`, so nothing is divided by zero).
   */
  lemma ConstantInputIsFullySimilar(e: Extracted, sqrt: real -> real, i: int, j: int)
    requires e.Ready() && SqrtLaws(sqrt)
    requires 0 <= j <= i < e.size
    requires e.useMFCC ==> forall f :: 0 <= f < e.size && f < |e.mfccs| ==> e.mfccs[f] == e.mfccs[0]
    requires e.useCQT ==> forall f :: 0 <= f < e.size ==> e.cqtcs[f] == e.cqtcs[0]
    requires e.useAutoCorrelation ==> forall f :: 0 <= f < e.size ==> e.autoCorrelationcs[f] == e.autoCorrelationcs[0]
    ensures Similarity(e, i, j, sqrt) == MAX_SCALE_VALUE
  {
    forall k: Kind | e.Enabled(k)
      ensures Distance(e, k, i, j, sqrt) == 0.0
    {
    }
    ZeroDistancesAreFullySimilar(e, sqrt, i, j);
  }

  // ---------------------------------------------------------------------
  // The imperative builder: arrays of rows, as the analysis model keeps them.
  // ---------------------------------------------------------------------

  /** The row objects of a matrix. */
  ghost function Rows(m: array?<array<real>>): set<array<real>>
    reads m
  {
    if m == null then {} else set i | 0 <= i < m.Length :: m[i]
  }

  /** `m` is lower-triangular with `size` rows, each row its own array. */
  ghost predicate Triangle(m: array<array<real>>, size: nat)
    reads m
  {
    && m.Length == size
    && (forall i :: 0 <= i < size ==> m[i].Length == i + 1)
    && (forall i, i' :: 0 <= i < i' < size ==> m[i] != m[i'])
  }

  /**
   * `rows` are the row objects of a lower-triangular matrix shaped like `d`:
   * row `r` has `r + 1` entries, no two rows share an object, and every row
   * is among the objects `R`.
   */
  ghost predicate Shaped(rows: seq<array<real>>, R: set<array<real>>, d: seq<seq<real>>)
  {
    && IsTriangle(d, |d|) && |rows| == |d|
    && (forall r :: 0 <= r < |rows| ==> rows[r].Length == r + 1 && rows[r] in R)
    && (forall r, r' :: 0 <= r < r' < |rows| ==> rows[r] != rows[r'])
  }

  /** `(i, j)` is a position of a row-by-row pass over a triangle of `n` rows; `(n, 0)` is the end. */
  predicate InPass(n: int, i: int, j: int)
  {
    0 <= i <= n && 0 <= j && (i < n ==> j <= i + 1) && (i == n ==> j == 0)
  }

  /** The entries of `rows` equal those of `d` on rows before `i` and on row `i` before column `j`. */
  ghost predicate Holds(rows: seq<array<real>>, R: set<array<real>>, d: seq<seq<real>>, i: int, j: int)
    reads R
    requires Shaped(rows, R, d) && InPass(|d|, i, j)
  {
    && (forall r, c {:trigger rows[r][c]} :: 0 <= c <= r < i ==> rows[r][c] == d[r][c])
    && (forall c {:trigger rows[i][c]} :: 0 <= c < j ==> rows[i][c] == d[i][c])
  }

  /** Allocates a lower-triangular matrix with `size` fresh rows of zeros. */
  method NewTriangle(size: nat) returns (m: array<array<real>>)
    ensures fresh(m) && Triangle(m, size)
    ensures forall i :: 0 <= i < size ==> fresh(m[i])
    ensures fresh(Rows(m))
    ensures forall r, c {:trigger m[r][c]} :: 0 <= c <= r < size ==> m[r][c] == 0.0
  {
    var placeholder := new real[0];
    m := new array<real>[size](_ => placeholder);
    for i := 0 to size
      invariant forall r :: 0 <= r < i ==> fresh(m[r]) && m[r].Length == r + 1
      invariant forall r, r' :: 0 <= r < r' < i ==> m[r] != m[r']
      invariant forall r, c {:trigger m[r][c]} :: 0 <= c <= r < i ==> m[r][c] == 0.0
    {
      m[i] := new real[i + 1](_ => 0.0);
    }
  }

  /**
   * The Euclidean distance of rows `i` and `j` of table `t` over
   * coefficients `1 .. n-1`, summed coefficient by coefficient; the rows are
   * read only inside the loop.
   */
  method EuclideanDistance(t: seq<Vector>, i: int, j: int, n: int, sqrt: real -> real) returns (average: real)
    requires SqrtLaws(sqrt)
    requires n <= 1 || (0 <= i < |t| && 0 <= j < |t| && n <= |t[i]| && n <= |t[j]|)
    ensures average == RowDistance(t, i, j, n, sqrt)
  {
    average := 0.0;
    var k := 1;
    while k < n
      invariant 1 <= k && (if n <= 1 then k == 1 else k <= n)
      invariant n <= 1 ==> average == 0.0
      invariant n > 1 ==> average == SquaredGap(t[i], t[j], k)
    {
      average := average + (t[i][k] - t[j][k]) * (t[i][k] - t[j][k]);
      k := k + 1;
    }
    average := sqrt(average);
  }

  /** How the running maximum moves when one more value is seen. */
  lemma LargestStep(init: real, s: seq<real>, x: real)
    ensures Largest(init, s + [x]) == if x > Largest(init, s) then x else Largest(init, s)
  {
    assert (s + [x])[..|s|] == s;
  }

  /** How the running minimum moves when one more value is seen. */
  lemma SmallestStep(init: real, s: seq<real>, x: real)
    ensures Smallest(init, s + [x]) == if x < Smallest(init, s) then x else Smallest(init, s)
  {
    assert (s + [x])[..|s|] == s;
  }

  /** The distances the pass has seen once it reaches entry `(i, j)`, in the order it saw them. */
  function Seen(d: seq<seq<real>>, i: int, j: int): seq<real>
    requires IsTriangle(d, |d|) && InPass(|d|, i, j)
  {
    if i == |d| then Flatten(d) else Flatten(d[..i]) + d[i][..j]
  }

  /**
   * The running minimum once the pass reaches `(i, j)`: it starts at
   * `FLOAT_MAX_VALUE` and drops to each entry it is greater than.
   */
  function PassMin(d: seq<seq<real>>, i: int, j: int): real
    requires IsTriangle(d, |d|) && InPass(|d|, i, j)
    decreases i, j
  {
    if j > 0 then (var lo := PassMin(d, i, j - 1); if lo > d[i][j - 1] then d[i][j - 1] else lo)
    else if i > 0 then PassMin(d, i - 1, i)
    else FLOAT_MAX_VALUE
  }

  /**
   * The running maximum once the pass reaches `(i, j)`: it starts at
   * `FLOAT_MIN_VALUE` and rises to each entry greater than it.
   */
  function PassMax(d: seq<seq<real>>, i: int, j: int): real
    requires IsTriangle(d, |d|) && InPass(|d|, i, j)
    decreases i, j
  {
    if j > 0 then (var hi := PassMax(d, i, j - 1); if d[i][j - 1] > hi then d[i][j - 1] else hi)
    else if i > 0 then PassMax(d, i - 1, i)
    else FLOAT_MIN_VALUE
  }

  /** Having seen all of row `i` is the same as starting row `i + 1`. */
  lemma SeenRow(d: seq<seq<real>>, i: int)
    requires IsTriangle(d, |d|) && 0 <= i < |d|
    ensures Seen(d, i + 1, 0) == Seen(d, i, i + 1)
  {
    assert d[..i + 1][..i] == d[..i];
    assert d[i][..i + 1] == d[i];
    if i + 1 == |d| {
      assert d[..i + 1] == d;
    }
  }

  /**
   * The running extremes the pass keeps, entry by entry, are the minimum and
   * maximum folds over everything it has seen.
   */
  lemma {:induction false} PassFolds(d: seq<seq<real>>, i: int, j: int)
    requires IsTriangle(d, |d|) && InPass(|d|, i, j)
    ensures PassMin(d, i, j) == Smallest(FLOAT_MAX_VALUE, Seen(d, i, j))
    ensures PassMax(d, i, j) == Largest(FLOAT_MIN_VALUE, Seen(d, i, j))
    decreases i, j
  {
    if j > 0 {
      PassFolds(d, i, j - 1);
      Advance(d, i, j - 1, PassMin(d, i, j - 1), PassMax(d, i, j - 1));
    } else if i > 0 {
      PassFolds(d, i - 1, i);
      SeenRow(d, i - 1);
    } else {
      assert Seen(d, 0, 0) == [];
    }
  }

  /**
   * The state of one kind during the distance pass at entry `(i, j)`: the
   * matrix holds every distance seen so far, and `lo` and `hi` are the
   * running minimum and maximum of them.
   */
  ghost predicate Visited(rows: seq<array<real>>, R: set<array<real>>, d: seq<seq<real>>, i: int, j: int, lo: real, hi: real)
    reads R
    requires Shaped(rows, R, d) && InPass(|d|, i, j)
  {
    && Holds(rows, R, d, i, j)
    && lo == PassMin(d, i, j)
    && hi == PassMax(d, i, j)
  }

  /** Seeing entry `(i, j)` moves the folds as the pass's comparisons move the running extremes. */
  lemma Advance(d: seq<seq<real>>, i: int, j: int, lo: real, hi: real)
    requires IsTriangle(d, |d|) && 0 <= j <= i < |d|
    requires lo == Smallest(FLOAT_MAX_VALUE, Seen(d, i, j)) && hi == Largest(FLOAT_MIN_VALUE, Seen(d, i, j))
    ensures Smallest(FLOAT_MAX_VALUE, Seen(d, i, j + 1)) == if lo > d[i][j] then d[i][j] else lo
    ensures Largest(FLOAT_MIN_VALUE, Seen(d, i, j + 1)) == if d[i][j] > hi then d[i][j] else hi
  {
    assert d[i][..j + 1] == d[i][..j] + [d[i][j]];
    assert Seen(d, i, j + 1) == Seen(d, i, j) + [d[i][j]];
    LargestStep(FLOAT_MIN_VALUE, Seen(d, i, j), d[i][j]);
    SmallestStep(FLOAT_MAX_VALUE, Seen(d, i, j), d[i][j]);
  }

  /** A kind's state at the end of row `i` is its state at the start of row `i + 1`. */
  lemma RowComplete(on: bool, rows: seq<array<real>>, R: set<array<real>>, d: seq<seq<real>>, i: int, lo: real, hi: real)
    requires on ==> Shaped(rows, R, d) && 0 <= i < |d| && Visited(rows, R, d, i, i + 1, lo, hi)
    ensures on ==> Visited(rows, R, d, i + 1, 0, lo, hi)
  {
  }

  /**
   * One kind's step of the distance pass: store distance `x` at `(i, j)`
   * and fold it into the running maximum and minimum.
   */
  method Record(m: array<array<real>>, ghost rows: seq<array<real>>, ghost R: set<array<real>>, ghost d: seq<seq<real>>,
                i: int, j: int, x: real, lo: real, hi: real)
    returns (min: real, max: real)
    requires Shaped(rows, R, d) && 0 <= j <= i < |d|
    requires Visited(rows, R, d, i, j, lo, hi)
    requires i < m.Length && m[i] == rows[i] && x == d[i][j]
    modifies m[i]
    ensures Visited(rows, R, d, i, j + 1, min, max)
  {
    m[i][j] := x;
    max, min := hi, lo;
    if x > max {
      max := x;
    }
    if min > x {
      min := x;
    }
  }

  /**
   * Kind `k`'s step of the distance pass at entry `(i, j)`: when the kind
   * is enabled, its distance is stored in its matrix and folded into its
   * extremes; otherwise nothing happens. Only the kind's own rows `R`
   * change.
   */
  method Step(e: Extracted, k: Kind, sqrt: real -> real,
              m: array?<array<real>>, ghost rows: seq<array<real>>, ghost R: set<array<real>>, ghost d: seq<seq<real>>,
              i: int, j: int, lo: real, hi: real)
    returns (min: real, max: real)
    requires e.Ready() && SqrtLaws(sqrt) && 0 <= j <= i < e.size
    requires e.Enabled(k) ==>
      && Shaped(rows, R, d) && i < |d| && d[i][j] == Distance(e, k, i, j, sqrt)
      && m != null && i < m.Length && m[i] == rows[i]
      && Visited(rows, R, d, i, j, lo, hi)
    modifies R
    ensures e.Enabled(k) ==> Visited(rows, R, d, i, j + 1, min, max)
  {
    min, max := lo, hi;
    if e.Enabled(k) {
      var distance;
      match k {
        case Mfcc =>
          distance := EuclideanDistance(e.mfccs, i, j, e.mfccCoef, sqrt);
        case Cqt =>
          distance := EuclideanDistance(e.cqtcs, i, j, |e.cqtcs[i]|, sqrt);
        case AutoCorrelation =>
          distance := sqrt(Abs(e.autoCorrelationcs[i][0] - e.autoCorrelationcs[j][0]));
      }
      min, max := Record(m, rows, R, d, i, j, distance, lo, hi);
    }
  }

  /**
   * The distance pass's work on pair `(i, j)`: each kind's step, in the
   * order MFCC, constant-Q, autocorrelation. `rowsM`, `rowsA` and `rowsC`
   * are the row objects of the three matrices, and `RM`, `RA` and `RC` sets
   * that hold them.
   */
  method VisitPair(e: Extracted, sqrt: real -> real,
                   mfcSimilarityMatrix: array?<array<real>>, ghost rowsM: seq<array<real>>, ghost RM: set<array<real>>, ghost dM: seq<seq<real>>,
                   acSimilarityMatrix: array?<array<real>>, ghost rowsA: seq<array<real>>, ghost RA: set<array<real>>, ghost dA: seq<seq<real>>,
                   cqtSimilarityMatrix: array?<array<real>>, ghost rowsC: seq<array<real>>, ghost RC: set<array<real>>, ghost dC: seq<seq<real>>,
                   i: int, j: int,
                   minMFCC: real, maxMFCC: real, minAC: real, maxAC: real, minCQT: real, maxCQT: real)
    returns (minMFCC': real, maxMFCC': real, minAC': real, maxAC': real, minCQT': real, maxCQT': real)
    requires e.Ready() && SqrtLaws(sqrt) && 0 <= j <= i < e.size
    requires e.useMFCC ==>
      && Shaped(rowsM, RM, dM) && i < |dM| && dM[i][j] == Distance(e, Mfcc, i, j, sqrt)
      && mfcSimilarityMatrix != null && i < mfcSimilarityMatrix.Length && mfcSimilarityMatrix[i] == rowsM[i]
      && Visited(rowsM, RM, dM, i, j, minMFCC, maxMFCC)
    requires e.useAutoCorrelation ==>
      && Shaped(rowsA, RA, dA) && i < |dA| && dA[i][j] == Distance(e, AutoCorrelation, i, j, sqrt)
      && acSimilarityMatrix != null && i < acSimilarityMatrix.Length && acSimilarityMatrix[i] == rowsA[i]
      && Visited(rowsA, RA, dA, i, j, minAC, maxAC)
    requires e.useCQT ==>
      && Shaped(rowsC, RC, dC) && i < |dC| && dC[i][j] == Distance(e, Cqt, i, j, sqrt)
      && cqtSimilarityMatrix != null && i < cqtSimilarityMatrix.Length && cqtSimilarityMatrix[i] == rowsC[i]
      && Visited(rowsC, RC, dC, i, j, minCQT, maxCQT)
    requires RM !! RA && RM !! RC && RA !! RC
    modifies RM, RA, RC
    ensures e.useMFCC ==> Visited(rowsM, RM, dM, i, j + 1, minMFCC', maxMFCC')
    ensures e.useAutoCorrelation ==> Visited(rowsA, RA, dA, i, j + 1, minAC', maxAC')
    ensures e.useCQT ==> Visited(rowsC, RC, dC, i, j + 1, minCQT', maxCQT')
  {
    minMFCC', maxMFCC' := Step(e, Mfcc, sqrt, mfcSimilarityMatrix, rowsM, RM, dM, i, j, minMFCC, maxMFCC);
    minCQT', maxCQT' := Step(e, Cqt, sqrt, cqtSimilarityMatrix, rowsC, RC, dC, i, j, minCQT, maxCQT);
    minAC', maxAC' := Step(e, AutoCorrelation, sqrt, acSimilarityMatrix, rowsA, RA, dA, i, j, minAC, maxAC);
  }

  /**
   * The distance pass: for every pair `j <= i`, each enabled kind's distance
   * is stored in that kind's matrix and folded into its running minimum
   * (starting at `FLOAT_MAX_VALUE`) and maximum (starting at
   * `FLOAT_MIN_VALUE`). Disabled kinds have no matrix.
   */
  method DistancePass(e: Extracted, sqrt: real -> real,
                      mfcSimilarityMatrix: array?<array<real>>,
                      acSimilarityMatrix: array?<array<real>>,
                      cqtSimilarityMatrix: array?<array<real>>)
    returns (minMFCC: real, maxMFCC: real, minAC: real, maxAC: real, minCQT: real, maxCQT: real)
    requires e.Ready() && SqrtLaws(sqrt)
    requires e.useMFCC ==> mfcSimilarityMatrix != null && Triangle(mfcSimilarityMatrix, e.size)
    requires e.useAutoCorrelation ==> acSimilarityMatrix != null && Triangle(acSimilarityMatrix, e.size)
    requires e.useCQT ==> cqtSimilarityMatrix != null && Triangle(cqtSimilarityMatrix, e.size)
    requires Rows(mfcSimilarityMatrix) !! Rows(acSimilarityMatrix)
    requires Rows(mfcSimilarityMatrix) !! Rows(cqtSimilarityMatrix)
    requires Rows(acSimilarityMatrix) !! Rows(cqtSimilarityMatrix)
    modifies Rows(mfcSimilarityMatrix), Rows(acSimilarityMatrix), Rows(cqtSimilarityMatrix)
    ensures e.useMFCC ==> Filled(mfcSimilarityMatrix, e, Mfcc, sqrt)
    ensures e.useMFCC ==> minMFCC == Lowest(e, Mfcc, sqrt) && maxMFCC == Highest(e, Mfcc, sqrt)
    ensures e.useAutoCorrelation ==> Filled(acSimilarityMatrix, e, AutoCorrelation, sqrt)
    ensures e.useAutoCorrelation ==> minAC == Lowest(e, AutoCorrelation, sqrt) && maxAC == Highest(e, AutoCorrelation, sqrt)
    ensures e.useCQT ==> Filled(cqtSimilarityMatrix, e, Cqt, sqrt)
    ensures e.useCQT ==> minCQT == Lowest(e, Cqt, sqrt) && maxCQT == Highest(e, Cqt, sqrt)
  {
    maxMFCC, minMFCC := FLOAT_MIN_VALUE, FLOAT_MAX_VALUE;
    maxAC, minAC := FLOAT_MIN_VALUE, FLOAT_MAX_VALUE;
    maxCQT, minCQT := FLOAT_MIN_VALUE, FLOAT_MAX_VALUE;
    ghost var rowsM, RM, dM, rowsA, RA, dA, rowsC, RC, dC :=
      TrackAll(e, sqrt, mfcSimilarityMatrix, acSimilarityMatrix, cqtSimilarityMatrix);
    minMFCC, maxMFCC, minAC, maxAC, minCQT, maxCQT :=
      DistanceLoop(e, sqrt, mfcSimilarityMatrix, rowsM, RM, dM, acSimilarityMatrix, rowsA, RA, dA,
                   cqtSimilarityMatrix, rowsC, RC, dC, minMFCC, maxMFCC, minAC, maxAC, minCQT, maxCQT);
    FinishAll(e, sqrt, mfcSimilarityMatrix, rowsM, RM, dM, acSimilarityMatrix, rowsA, RA, dA,
              cqtSimilarityMatrix, rowsC, RC, dC, minMFCC, maxMFCC, minAC, maxAC, minCQT, maxCQT);
  }

  /** The rows of the distance pass, `0` to `size - 1`, in order. */
  method DistanceLoop(e: Extracted, sqrt: real -> real,
                      mfcSimilarityMatrix: array?<array<real>>, ghost rowsM: seq<array<real>>, ghost RM: set<array<real>>, ghost dM: seq<seq<real>>,
                      acSimilarityMatrix: array?<array<real>>, ghost rowsA: seq<array<real>>, ghost RA: set<array<real>>, ghost dA: seq<seq<real>>,
                      cqtSimilarityMatrix: array?<array<real>>, ghost rowsC: seq<array<real>>, ghost RC: set<array<real>>, ghost dC: seq<seq<real>>,
                      minMFCC: real, maxMFCC: real, minAC: real, maxAC: real, minCQT: real, maxCQT: real)
    returns (minMFCC': real, maxMFCC': real, minAC': real, maxAC': real, minCQT': real, maxCQT': real)
    requires e.Ready() && SqrtLaws(sqrt)
    requires e.useMFCC ==>
      && Shaped(rowsM, RM, dM) && AllDue(dM, e, Mfcc, sqrt)
      && mfcSimilarityMatrix != null && mfcSimilarityMatrix[..] == rowsM
      && Visited(rowsM, RM, dM, 0, 0, minMFCC, maxMFCC)
    requires e.useAutoCorrelation ==>
      && Shaped(rowsA, RA, dA) && AllDue(dA, e, AutoCorrelation, sqrt)
      && acSimilarityMatrix != null && acSimilarityMatrix[..] == rowsA
      && Visited(rowsA, RA, dA, 0, 0, minAC, maxAC)
    requires e.useCQT ==>
      && Shaped(rowsC, RC, dC) && AllDue(dC, e, Cqt, sqrt)
      && cqtSimilarityMatrix != null && cqtSimilarityMatrix[..] == rowsC
      && Visited(rowsC, RC, dC, 0, 0, minCQT, maxCQT)
    requires RM !! RA && RM !! RC && RA !! RC
    modifies RM, RA, RC
    ensures e.useMFCC ==> Visited(rowsM, RM, dM, e.size, 0, minMFCC', maxMFCC')
    ensures e.useAutoCorrelation ==> Visited(rowsA, RA, dA, e.size, 0, minAC', maxAC')
    ensures e.useCQT ==> Visited(rowsC, RC, dC, e.size, 0, minCQT', maxCQT')
  {
    minMFCC', maxMFCC', minAC', maxAC', minCQT', maxCQT' := minMFCC, maxMFCC, minAC, maxAC, minCQT, maxCQT;
    var size := e.size;
    var i := 0;
    while i < size
      invariant 0 <= i <= size
      invariant e.useMFCC ==> mfcSimilarityMatrix[..] == rowsM && Visited(rowsM, RM, dM, i, 0, minMFCC', maxMFCC')
      invariant e.useAutoCorrelation ==> acSimilarityMatrix[..] == rowsA && Visited(rowsA, RA, dA, i, 0, minAC', maxAC')
      invariant e.useCQT ==> cqtSimilarityMatrix[..] == rowsC && Visited(rowsC, RC, dC, i, 0, minCQT', maxCQT')
    {
      minMFCC', maxMFCC', minAC', maxAC', minCQT', maxCQT' :=
        DistanceRow(e, sqrt, mfcSimilarityMatrix, rowsM, RM, dM, acSimilarityMatrix, rowsA, RA, dA,
                    cqtSimilarityMatrix, rowsC, RC, dC, i, minMFCC', maxMFCC', minAC', maxAC', minCQT', maxCQT');
      RowComplete(e.useMFCC, rowsM, RM, dM, i, minMFCC', maxMFCC');
      RowComplete(e.useAutoCorrelation, rowsA, RA, dA, i, minAC', maxAC');
      RowComplete(e.useCQT, rowsC, RC, dC, i, minCQT', maxCQT');
      i := i + 1;
    }
  }

  /** Row `i` of the distance pass: the pairs `(i, 0)` to `(i, i)`, in order. */
  method DistanceRow(e: Extracted, sqrt: real -> real,
                     mfcSimilarityMatrix: array?<array<real>>, ghost rowsM: seq<array<real>>, ghost RM: set<array<real>>, ghost dM: seq<seq<real>>,
                     acSimilarityMatrix: array?<array<real>>, ghost rowsA: seq<array<real>>, ghost RA: set<array<real>>, ghost dA: seq<seq<real>>,
                     cqtSimilarityMatrix: array?<array<real>>, ghost rowsC: seq<array<real>>, ghost RC: set<array<real>>, ghost dC: seq<seq<real>>,
                     i: int,
                     minMFCC: real, maxMFCC: real, minAC: real, maxAC: real, minCQT: real, maxCQT: real)
    returns (minMFCC': real, maxMFCC': real, minAC': real, maxAC': real, minCQT': real, maxCQT': real)
    requires e.Ready() && SqrtLaws(sqrt) && 0 <= i < e.size
    requires e.useMFCC ==>
      && Shaped(rowsM, RM, dM) && |dM| == e.size && RowDue(dM, e, Mfcc, sqrt, i)
      && mfcSimilarityMatrix != null && mfcSimilarityMatrix[..] == rowsM
      && Visited(rowsM, RM, dM, i, 0, minMFCC, maxMFCC)
    requires e.useAutoCorrelation ==>
      && Shaped(rowsA, RA, dA) && |dA| == e.size && RowDue(dA, e, AutoCorrelation, sqrt, i)
      && acSimilarityMatrix != null && acSimilarityMatrix[..] == rowsA
      && Visited(rowsA, RA, dA, i, 0, minAC, maxAC)
    requires e.useCQT ==>
      && Shaped(rowsC, RC, dC) && |dC| == e.size && RowDue(dC, e, Cqt, sqrt, i)
      && cqtSimilarityMatrix != null && cqtSimilarityMatrix[..] == rowsC
      && Visited(rowsC, RC, dC, i, 0, minCQT, maxCQT)
    requires RM !! RA && RM !! RC && RA !! RC
    modifies RM, RA, RC
    ensures e.useMFCC ==> Visited(rowsM, RM, dM, i, i + 1, minMFCC', maxMFCC')
    ensures e.useAutoCorrelation ==> Visited(rowsA, RA, dA, i, i + 1, minAC', maxAC')
    ensures e.useCQT ==> Visited(rowsC, RC, dC, i, i + 1, minCQT', maxCQT')
  {
    minMFCC', maxMFCC', minAC', maxAC', minCQT', maxCQT' := minMFCC, maxMFCC, minAC, maxAC, minCQT, maxCQT;
    var j := 0;
    while j <= i
      invariant 0 <= j <= i + 1
      invariant e.useMFCC ==> Visited(rowsM, RM, dM, i, j, minMFCC', maxMFCC')
      invariant e.useAutoCorrelation ==> Visited(rowsA, RA, dA, i, j, minAC', maxAC')
      invariant e.useCQT ==> Visited(rowsC, RC, dC, i, j, minCQT', maxCQT')
    {
      minMFCC', maxMFCC', minAC', maxAC', minCQT', maxCQT' :=
        VisitPair(e, sqrt, mfcSimilarityMatrix, rowsM, RM, dM, acSimilarityMatrix, rowsA, RA, dA,
                  cqtSimilarityMatrix, rowsC, RC, dC, i, j, minMFCC', maxMFCC', minAC', maxAC', minCQT', maxCQT');
      j := j + 1;
    }
  }

  /** Row `i` of `d` holds kind `k`'s distances from frame `i` to frames `0` to `i`. */
  ghost predicate RowDue(d: seq<seq<real>>, e: Extracted, k: Kind, sqrt: real -> real, i: int)
    requires e.Ready() && e.Enabled(k) && SqrtLaws(sqrt)
    requires IsTriangle(d, e.size) && 0 <= i < e.size
  {
    forall c :: 0 <= c <= i ==> d[i][c] == Distance(e, k, i, c, sqrt)
  }

  /** `d` holds kind `k`'s distances for every pair `j <= i`. */
  ghost predicate AllDue(d: seq<seq<real>>, e: Extracted, k: Kind, sqrt: real -> real)
    requires e.Ready() && e.Enabled(k) && SqrtLaws(sqrt)
  {
    IsTriangle(d, e.size) && forall i :: 0 <= i < e.size ==> RowDue(d, e, k, sqrt, i)
  }

  /** Every entry of `m` is kind `k`'s distance for its pair. */
  ghost predicate Filled(m: array?<array<real>>, e: Extracted, k: Kind, sqrt: real -> real)
    reads m, Rows(m)
    requires e.Ready() && e.Enabled(k) && SqrtLaws(sqrt)
  {
    && m != null && Triangle(m, e.size)
    && forall r, c {:trigger m[r][c]} :: 0 <= c <= r < e.size ==> m[r][c] == Distance(e, k, r, c, sqrt)
  }

  /** The bookkeeping the distance pass starts kind `k` with: the matrix's rows, their set, and the distances due. */
  ghost method Track(e: Extracted, k: Kind, sqrt: real -> real, m: array?<array<real>>)
    returns (rows: seq<array<real>>, R: set<array<real>>, d: seq<seq<real>>)
    requires e.Ready() && SqrtLaws(sqrt)
    requires e.Enabled(k) ==> m != null && Triangle(m, e.size)
    ensures R == Rows(m)
    ensures e.Enabled(k) ==>
      && m != null && m[..] == rows && AllDue(d, e, k, sqrt) && Shaped(rows, R, d)
      && Visited(rows, R, d, 0, 0, FLOAT_MAX_VALUE, FLOAT_MIN_VALUE)
  {
    R := Rows(m);
    if e.Enabled(k) {
      rows, d := m[..], Distances(e, k, sqrt);
      assert forall r :: 0 <= r < |rows| ==> rows[r] == m[r];
    } else {
      rows, d := [], [];
    }
  }

  /** The end of the distance pass for kind `k`: the matrix is filled and the extremes are the fold over all distances. */
  lemma Finish(m: array?<array<real>>, e: Extracted, k: Kind, sqrt: real -> real,
               rows: seq<array<real>>, R: set<array<real>>, d: seq<seq<real>>, lo: real, hi: real)
    requires e.Ready() && SqrtLaws(sqrt)
    requires e.Enabled(k) ==>
      && m != null && Triangle(m, e.size) && m[..] == rows && R == Rows(m) && AllDue(d, e, k, sqrt)
      && Shaped(rows, R, d) && Visited(rows, R, d, e.size, 0, lo, hi)
    ensures e.Enabled(k) ==> Filled(m, e, k, sqrt)
    ensures e.Enabled(k) ==> lo == Lowest(e, k, sqrt) && hi == Highest(e, k, sqrt)
  {
    if e.Enabled(k) {
      forall r, c | 0 <= c <= r < e.size
        ensures m[r][c] == Distance(e, k, r, c, sqrt)
      {
        assert m[r] == rows[r];
        assert rows[r][c] == d[r][c];
        assert RowDue(d, e, k, sqrt, r);
      }
      var full := Distances(e, k, sqrt);
      forall r | 0 <= r < e.size
        ensures d[r] == full[r]
      {
        assert RowDue(d, e, k, sqrt, r);
      }
      assert d == full;
      PassFolds(d, e.size, 0);
    }
  }

  /** `Track` for the three kinds at once. */
  ghost method TrackAll(e: Extracted, sqrt: real -> real,
                        mfcSimilarityMatrix: array?<array<real>>,
                        acSimilarityMatrix: array?<array<real>>,
                        cqtSimilarityMatrix: array?<array<real>>)
    returns (rowsM: seq<array<real>>, RM: set<array<real>>, dM: seq<seq<real>>,
             rowsA: seq<array<real>>, RA: set<array<real>>, dA: seq<seq<real>>,
             rowsC: seq<array<real>>, RC: set<array<real>>, dC: seq<seq<real>>)
    requires e.Ready() && SqrtLaws(sqrt)
    requires e.useMFCC ==> mfcSimilarityMatrix != null && Triangle(mfcSimilarityMatrix, e.size)
    requires e.useAutoCorrelation ==> acSimilarityMatrix != null && Triangle(acSimilarityMatrix, e.size)
    requires e.useCQT ==> cqtSimilarityMatrix != null && Triangle(cqtSimilarityMatrix, e.size)
    ensures RM == Rows(mfcSimilarityMatrix) && RA == Rows(acSimilarityMatrix) && RC == Rows(cqtSimilarityMatrix)
    ensures e.useMFCC ==>
      && mfcSimilarityMatrix != null && mfcSimilarityMatrix[..] == rowsM && AllDue(dM, e, Mfcc, sqrt)
      && Shaped(rowsM, RM, dM) && Visited(rowsM, RM, dM, 0, 0, FLOAT_MAX_VALUE, FLOAT_MIN_VALUE)
    ensures e.useAutoCorrelation ==>
      && acSimilarityMatrix != null && acSimilarityMatrix[..] == rowsA && AllDue(dA, e, AutoCorrelation, sqrt)
      && Shaped(rowsA, RA, dA) && Visited(rowsA, RA, dA, 0, 0, FLOAT_MAX_VALUE, FLOAT_MIN_VALUE)
    ensures e.useCQT ==>
      && cqtSimilarityMatrix != null && cqtSimilarityMatrix[..] == rowsC && AllDue(dC, e, Cqt, sqrt)
      && Shaped(rowsC, RC, dC) && Visited(rowsC, RC, dC, 0, 0, FLOAT_MAX_VALUE, FLOAT_MIN_VALUE)
  {
    rowsM, RM, dM := Track(e, Mfcc, sqrt, mfcSimilarityMatrix);
    rowsA, RA, dA := Track(e, AutoCorrelation, sqrt, acSimilarityMatrix);
    rowsC, RC, dC := Track(e, Cqt, sqrt, cqtSimilarityMatrix);
  }

  /** `Finish` for the three kinds at once. */
  lemma FinishAll(e: Extracted, sqrt: real -> real,
                  mfcSimilarityMatrix: array?<array<real>>, rowsM: seq<array<real>>, RM: set<array<real>>, dM: seq<seq<real>>,
                  acSimilarityMatrix: array?<array<real>>, rowsA: seq<array<real>>, RA: set<array<real>>, dA: seq<seq<real>>,
                  cqtSimilarityMatrix: array?<array<real>>, rowsC: seq<array<real>>, RC: set<array<real>>, dC: seq<seq<real>>,
                  minMFCC: real, maxMFCC: real, minAC: real, maxAC: real, minCQT: real, maxCQT: real)
    requires e.Ready() && SqrtLaws(sqrt)
    requires e.useMFCC ==>
      && mfcSimilarityMatrix != null && Triangle(mfcSimilarityMatrix, e.size) && mfcSimilarityMatrix[..] == rowsM
      && RM == Rows(mfcSimilarityMatrix) && AllDue(dM, e, Mfcc, sqrt)
      && Shaped(rowsM, RM, dM) && Visited(rowsM, RM, dM, e.size, 0, minMFCC, maxMFCC)
    requires e.useAutoCorrelation ==>
      && acSimilarityMatrix != null && Triangle(acSimilarityMatrix, e.size) && acSimilarityMatrix[..] == rowsA
      && RA == Rows(acSimilarityMatrix) && AllDue(dA, e, AutoCorrelation, sqrt)
      && Shaped(rowsA, RA, dA) && Visited(rowsA, RA, dA, e.size, 0, minAC, maxAC)
    requires e.useCQT ==>
      && cqtSimilarityMatrix != null && Triangle(cqtSimilarityMatrix, e.size) && cqtSimilarityMatrix[..] == rowsC
      && RC == Rows(cqtSimilarityMatrix) && AllDue(dC, e, Cqt, sqrt)
      && Shaped(rowsC, RC, dC) && Visited(rowsC, RC, dC, e.size, 0, minCQT, maxCQT)
    ensures e.useMFCC ==> Filled(mfcSimilarityMatrix, e, Mfcc, sqrt)
    ensures e.useMFCC ==> minMFCC == Lowest(e, Mfcc, sqrt) && maxMFCC == Highest(e, Mfcc, sqrt)
    ensures e.useAutoCorrelation ==> Filled(acSimilarityMatrix, e, AutoCorrelation, sqrt)
    ensures e.useAutoCorrelation ==> minAC == Lowest(e, AutoCorrelation, sqrt) && maxAC == Highest(e, AutoCorrelation, sqrt)
    ensures e.useCQT ==> Filled(cqtSimilarityMatrix, e, Cqt, sqrt)
    ensures e.useCQT ==> minCQT == Lowest(e, Cqt, sqrt) && maxCQT == Highest(e, Cqt, sqrt)
  {
    Finish(mfcSimilarityMatrix, e, Mfcc, sqrt, rowsM, RM, dM, minMFCC, maxMFCC);
    Finish(acSimilarityMatrix, e, AutoCorrelation, sqrt, rowsA, RA, dA, minAC, maxAC);
    Finish(cqtSimilarityMatrix, e, Cqt, sqrt, rowsC, RC, dC, minCQT, maxCQT);
  }

  /**
   * Kind `k`'s share of pair `(i, j)` in the form the blend pass computes it:
   * the distance less the minimum, over the spread, times `coeficient`; the
   * spread is positive.
   */
  lemma ShareTerm(e: Extracted, k: Kind, i: int, j: int, sqrt: real -> real, x: real, lo: real, hi: real, coeficient: real)
    requires e.Ready() && e.Enabled(k) && SqrtLaws(sqrt) && 0 <= j <= i < e.size
    requires x == Distance(e, k, i, j, sqrt) && lo == Lowest(e, k, sqrt) && hi == Highest(e, k, sqrt)
    requires coeficient == MAX_SCALE_VALUE / e.Factor() as real
    ensures lo <= x <= hi && lo < hi && 0.0 <= coeficient
    ensures Share(e, k, i, j, sqrt) == Normalised(x, lo, hi, coeficient)
  {
    Bracket(e, k, i, j, sqrt);
  }

  /**
   * The blend pass's work on entry `(i, j)`: the entry starts at
   * `MAX_SCALE_VALUE` and each enabled kind subtracts its min-max normalised
   * distance times `coeficient`, in the order MFCC, autocorrelation,
   * constant-Q.
   */
  method BlendEntry(e: Extracted, sqrt: real -> real, similarityMatrix: array<array<real>>,
                    mfcSimilarityMatrix: array?<array<real>>, acSimilarityMatrix: array?<array<real>>,
                    cqtSimilarityMatrix: array?<array<real>>, i: int, j: int,
                    minMFCC: real, maxMFCC: real, minAC: real, maxAC: real, minCQT: real, maxCQT: real, coeficient: real)
    requires e.Ready() && SqrtLaws(sqrt) && 0 <= j <= i < e.size
    requires i < similarityMatrix.Length && j < similarityMatrix[i].Length
    requires e.useMFCC ==>
      && mfcSimilarityMatrix != null && i < mfcSimilarityMatrix.Length && mfcSimilarityMatrix[i] != similarityMatrix[i]
      && j < mfcSimilarityMatrix[i].Length && mfcSimilarityMatrix[i][j] == Distance(e, Mfcc, i, j, sqrt)
      && minMFCC == Lowest(e, Mfcc, sqrt) && maxMFCC == Highest(e, Mfcc, sqrt)
    requires e.useAutoCorrelation ==>
      && acSimilarityMatrix != null && i < acSimilarityMatrix.Length && acSimilarityMatrix[i] != similarityMatrix[i]
      && j < acSimilarityMatrix[i].Length && acSimilarityMatrix[i][j] == Distance(e, AutoCorrelation, i, j, sqrt)
      && minAC == Lowest(e, AutoCorrelation, sqrt) && maxAC == Highest(e, AutoCorrelation, sqrt)
    requires e.useCQT ==>
      && cqtSimilarityMatrix != null && i < cqtSimilarityMatrix.Length && cqtSimilarityMatrix[i] != similarityMatrix[i]
      && j < cqtSimilarityMatrix[i].Length && cqtSimilarityMatrix[i][j] == Distance(e, Cqt, i, j, sqrt)
      && minCQT == Lowest(e, Cqt, sqrt) && maxCQT == Highest(e, Cqt, sqrt)
    requires e.Factor() > 0 ==> coeficient == MAX_SCALE_VALUE / e.Factor() as real
    modifies similarityMatrix[i]
    ensures similarityMatrix[i][j] == Similarity(e, i, j, sqrt)
    ensures forall c :: 0 <= c < similarityMatrix[i].Length && c != j ==> similarityMatrix[i][c] == old(similarityMatrix[i][c])
  {
    similarityMatrix[i][j] := MAX_SCALE_VALUE;
    if e.useMFCC {
      ShareTerm(e, Mfcc, i, j, sqrt, mfcSimilarityMatrix[i][j], minMFCC, maxMFCC, coeficient);
      similarityMatrix[i][j] := similarityMatrix[i][j] - Normalised(mfcSimilarityMatrix[i][j], minMFCC, maxMFCC, coeficient);
    }
    if e.useAutoCorrelation {
      ShareTerm(e, AutoCorrelation, i, j, sqrt, acSimilarityMatrix[i][j], minAC, maxAC, coeficient);
      similarityMatrix[i][j] := similarityMatrix[i][j] - Normalised(acSimilarityMatrix[i][j], minAC, maxAC, coeficient);
    }
    if e.useCQT {
      ShareTerm(e, Cqt, i, j, sqrt, cqtSimilarityMatrix[i][j], minCQT, maxCQT, coeficient);
      similarityMatrix[i][j] := similarityMatrix[i][j] - Normalised(cqtSimilarityMatrix[i][j], minCQT, maxCQT, coeficient);
    }
  }

  /** Row `i` of `d` holds the blended similarities of frame `i` with frames `0` to `i`. */
  ghost predicate SimRowDue(d: seq<seq<real>>, e: Extracted, sqrt: real -> real, i: int)
    requires e.Ready() && SqrtLaws(sqrt)
    requires IsTriangle(d, e.size) && 0 <= i < e.size
  {
    forall c :: 0 <= c <= i ==> d[i][c] == Similarity(e, i, c, sqrt)
  }

  /** `d` holds the blended similarity of every pair `j <= i`. */
  ghost predicate SimDue(d: seq<seq<real>>, e: Extracted, sqrt: real -> real)
    requires e.Ready() && SqrtLaws(sqrt)
  {
    IsTriangle(d, e.size) && forall i :: 0 <= i < e.size ==> SimRowDue(d, e, sqrt, i)
  }

  /** Having filled all of row `i` is the same as starting row `i + 1`. */
  lemma HoldsRow(rows: seq<array<real>>, R: set<array<real>>, d: seq<seq<real>>, i: int)
    requires Shaped(rows, R, d) && 0 <= i < |d| && Holds(rows, R, d, i, i + 1)
    ensures Holds(rows, R, d, i + 1, 0)
  {
  }

  /** Row `i` of the blend pass: the pairs `(i, 0)` to `(i, i)`, in order. */
  method BlendRow(e: Extracted, sqrt: real -> real,
                  similarityMatrix: array<array<real>>, ghost rowsS: seq<array<real>>, ghost RS: set<array<real>>, ghost dS: seq<seq<real>>,
                  mfcSimilarityMatrix: array?<array<real>>, ghost RM: set<array<real>>,
                  acSimilarityMatrix: array?<array<real>>, ghost RA: set<array<real>>,
                  cqtSimilarityMatrix: array?<array<real>>, ghost RC: set<array<real>>,
                  i: int, minMFCC: real, maxMFCC: real, minAC: real, maxAC: real, minCQT: real, maxCQT: real, coeficient: real)
    requires e.Ready() && SqrtLaws(sqrt) && 0 <= i < e.size
    requires Shaped(rowsS, RS, dS) && |dS| == e.size && SimRowDue(dS, e, sqrt, i)
    requires similarityMatrix[..] == rowsS && Holds(rowsS, RS, dS, i, 0)
    requires e.useMFCC ==>
      && mfcSimilarityMatrix != null && i < mfcSimilarityMatrix.Length && mfcSimilarityMatrix[i] in RM
      && DistanceRowIn(mfcSimilarityMatrix[i], e, Mfcc, sqrt, i)
      && minMFCC == Lowest(e, Mfcc, sqrt) && maxMFCC == Highest(e, Mfcc, sqrt)
    requires e.useAutoCorrelation ==>
      && acSimilarityMatrix != null && i < acSimilarityMatrix.Length && acSimilarityMatrix[i] in RA
      && DistanceRowIn(acSimilarityMatrix[i], e, AutoCorrelation, sqrt, i)
      && minAC == Lowest(e, AutoCorrelation, sqrt) && maxAC == Highest(e, AutoCorrelation, sqrt)
    requires e.useCQT ==>
      && cqtSimilarityMatrix != null && i < cqtSimilarityMatrix.Length && cqtSimilarityMatrix[i] in RC
      && DistanceRowIn(cqtSimilarityMatrix[i], e, Cqt, sqrt, i)
      && minCQT == Lowest(e, Cqt, sqrt) && maxCQT == Highest(e, Cqt, sqrt)
    requires RS !! RM && RS !! RA && RS !! RC
    requires e.Factor() > 0 ==> coeficient == MAX_SCALE_VALUE / e.Factor() as real
    modifies RS
    ensures Holds(rowsS, RS, dS, i, i + 1)
  {
    var j := 0;
    while j <= i
      invariant 0 <= j <= i + 1
      invariant Holds(rowsS, RS, dS, i, j)
    {
      BlendEntry(e, sqrt, similarityMatrix, mfcSimilarityMatrix, acSimilarityMatrix, cqtSimilarityMatrix, i, j,
                 minMFCC, maxMFCC, minAC, maxAC, minCQT, maxCQT, coeficient);
      j := j + 1;
    }
  }

  /** `row` holds kind `k`'s distances from frame `i` to frames `0` to `i`. */
  ghost predicate DistanceRowIn(row: array<real>, e: Extracted, k: Kind, sqrt: real -> real, i: int)
    reads row
    requires e.Ready() && e.Enabled(k) && SqrtLaws(sqrt) && 0 <= i < e.size
  {
    row.Length == i + 1 && forall c :: 0 <= c <= i ==> row[c] == Distance(e, k, i, c, sqrt)
  }

  /** The rows of the blend pass, `0` to `size - 1`, in order. */
  method BlendLoop(e: Extracted, sqrt: real -> real,
                   similarityMatrix: array<array<real>>, ghost rowsS: seq<array<real>>, ghost RS: set<array<real>>, ghost dS: seq<seq<real>>,
                   mfcSimilarityMatrix: array?<array<real>>, ghost rowsM: seq<array<real>>, ghost RM: set<array<real>>, ghost dM: seq<seq<real>>,
                   acSimilarityMatrix: array?<array<real>>, ghost rowsA: seq<array<real>>, ghost RA: set<array<real>>, ghost dA: seq<seq<real>>,
                   cqtSimilarityMatrix: array?<array<real>>, ghost rowsC: seq<array<real>>, ghost RC: set<array<real>>, ghost dC: seq<seq<real>>,
                   minMFCC: real, maxMFCC: real, minAC: real, maxAC: real, minCQT: real, maxCQT: real, coeficient: real)
    requires e.Ready() && SqrtLaws(sqrt)
    requires Shaped(rowsS, RS, dS) && SimDue(dS, e, sqrt) && similarityMatrix[..] == rowsS
    requires e.useMFCC ==>
      && Shaped(rowsM, RM, dM) && AllDue(dM, e, Mfcc, sqrt)
      && mfcSimilarityMatrix != null && mfcSimilarityMatrix[..] == rowsM && Holds(rowsM, RM, dM, e.size, 0)
      && minMFCC == Lowest(e, Mfcc, sqrt) && maxMFCC == Highest(e, Mfcc, sqrt)
    requires e.useAutoCorrelation ==>
      && Shaped(rowsA, RA, dA) && AllDue(dA, e, AutoCorrelation, sqrt)
      && acSimilarityMatrix != null && acSimilarityMatrix[..] == rowsA && Holds(rowsA, RA, dA, e.size, 0)
      && minAC == Lowest(e, AutoCorrelation, sqrt) && maxAC == Highest(e, AutoCorrelation, sqrt)
    requires e.useCQT ==>
      && Shaped(rowsC, RC, dC) && AllDue(dC, e, Cqt, sqrt)
      && cqtSimilarityMatrix != null && cqtSimilarityMatrix[..] == rowsC && Holds(rowsC, RC, dC, e.size, 0)
      && minCQT == Lowest(e, Cqt, sqrt) && maxCQT == Highest(e, Cqt, sqrt)
    requires RS !! RM && RS !! RA && RS !! RC
    requires e.Factor() > 0 ==> coeficient == MAX_SCALE_VALUE / e.Factor() as real
    modifies RS
    ensures Holds(rowsS, RS, dS, e.size, 0)
  {
    var size := e.size;
    var i := 0;
    while i < size
      invariant 0 <= i <= size
      invariant Holds(rowsS, RS, dS, i, 0)
      invariant e.useMFCC ==> Holds(rowsM, RM, dM, e.size, 0)
      invariant e.useAutoCorrelation ==> Holds(rowsA, RA, dA, e.size, 0)
      invariant e.useCQT ==> Holds(rowsC, RC, dC, e.size, 0)
    {
      ReadRows(e, sqrt, mfcSimilarityMatrix, rowsM, RM, dM, acSimilarityMatrix, rowsA, RA, dA,
               cqtSimilarityMatrix, rowsC, RC, dC, i);
      BlendRow(e, sqrt, similarityMatrix, rowsS, RS, dS, mfcSimilarityMatrix, RM,
               acSimilarityMatrix, RA, cqtSimilarityMatrix, RC,
               i, minMFCC, maxMFCC, minAC, maxAC, minCQT, maxCQT, coeficient);
      HoldsRow(rowsS, RS, dS, i);
      i := i + 1;
    }
  }

  /** Row `i` of a filled distance matrix of kind `k`, as the blend pass reads it. */
  lemma ReadRow(e: Extracted, k: Kind, sqrt: real -> real, m: array?<array<real>>,
                rows: seq<array<real>>, R: set<array<real>>, d: seq<seq<real>>, i: int)
    requires e.Ready() && SqrtLaws(sqrt) && 0 <= i < e.size
    requires e.Enabled(k) ==>
      && Shaped(rows, R, d) && AllDue(d, e, k, sqrt)
      && m != null && m[..] == rows && Holds(rows, R, d, e.size, 0)
    ensures e.Enabled(k) ==> m != null && i < m.Length && m[i] in R && DistanceRowIn(m[i], e, k, sqrt, i)
  {
    if e.Enabled(k) {
      assert m[i] == rows[i];
      assert RowDue(d, e, k, sqrt, i);
    }
  }

  /** The bookkeeping the blend pass reads a filled distance matrix of kind `k` through. */
  ghost method Snapshot(e: Extracted, k: Kind, sqrt: real -> real, m: array?<array<real>>)
    returns (rows: seq<array<real>>, R: set<array<real>>, d: seq<seq<real>>)
    requires e.Ready() && SqrtLaws(sqrt)
    requires e.Enabled(k) ==> Filled(m, e, k, sqrt)
    ensures R == Rows(m)
    ensures e.Enabled(k) ==>
      && m != null && m[..] == rows && AllDue(d, e, k, sqrt) && Shaped(rows, R, d)
      && Holds(rows, R, d, e.size, 0)
  {
    R := Rows(m);
    if e.Enabled(k) {
      rows, d := m[..], Distances(e, k, sqrt);
      assert forall r :: 0 <= r < |rows| ==> rows[r] == m[r];
    } else {
      rows, d := [], [];
    }
  }

  /** `ReadRow` for the three kinds at once. */
  lemma ReadRows(e: Extracted, sqrt: real -> real,
                 mfcSimilarityMatrix: array?<array<real>>, rowsM: seq<array<real>>, RM: set<array<real>>, dM: seq<seq<real>>,
                 acSimilarityMatrix: array?<array<real>>, rowsA: seq<array<real>>, RA: set<array<real>>, dA: seq<seq<real>>,
                 cqtSimilarityMatrix: array?<array<real>>, rowsC: seq<array<real>>, RC: set<array<real>>, dC: seq<seq<real>>,
                 i: int)
    requires e.Ready() && SqrtLaws(sqrt) && 0 <= i < e.size
    requires e.useMFCC ==>
      && Shaped(rowsM, RM, dM) && AllDue(dM, e, Mfcc, sqrt)
      && mfcSimilarityMatrix != null && mfcSimilarityMatrix[..] == rowsM && Holds(rowsM, RM, dM, e.size, 0)
    requires e.useAutoCorrelation ==>
      && Shaped(rowsA, RA, dA) && AllDue(dA, e, AutoCorrelation, sqrt)
      && acSimilarityMatrix != null && acSimilarityMatrix[..] == rowsA && Holds(rowsA, RA, dA, e.size, 0)
    requires e.useCQT ==>
      && Shaped(rowsC, RC, dC) && AllDue(dC, e, Cqt, sqrt)
      && cqtSimilarityMatrix != null && cqtSimilarityMatrix[..] == rowsC && Holds(rowsC, RC, dC, e.size, 0)
    ensures e.useMFCC ==>
      && mfcSimilarityMatrix != null && i < mfcSimilarityMatrix.Length && mfcSimilarityMatrix[i] in RM
      && DistanceRowIn(mfcSimilarityMatrix[i], e, Mfcc, sqrt, i)
    ensures e.useAutoCorrelation ==>
      && acSimilarityMatrix != null && i < acSimilarityMatrix.Length && acSimilarityMatrix[i] in RA
      && DistanceRowIn(acSimilarityMatrix[i], e, AutoCorrelation, sqrt, i)
    ensures e.useCQT ==>
      && cqtSimilarityMatrix != null && i < cqtSimilarityMatrix.Length && cqtSimilarityMatrix[i] in RC
      && DistanceRowIn(cqtSimilarityMatrix[i], e, Cqt, sqrt, i)
  {
    ReadRow(e, Mfcc, sqrt, mfcSimilarityMatrix, rowsM, RM, dM, i);
    ReadRow(e, AutoCorrelation, sqrt, acSimilarityMatrix, rowsA, RA, dA, i);
    ReadRow(e, Cqt, sqrt, cqtSimilarityMatrix, rowsC, RC, dC, i);
  }

  /** `Snapshot` for the three kinds at once. */
  ghost method SnapshotAll(e: Extracted, sqrt: real -> real,
                           mfcSimilarityMatrix: array?<array<real>>,
                           acSimilarityMatrix: array?<array<real>>,
                           cqtSimilarityMatrix: array?<array<real>>)
    returns (rowsM: seq<array<real>>, RM: set<array<real>>, dM: seq<seq<real>>,
             rowsA: seq<array<real>>, RA: set<array<real>>, dA: seq<seq<real>>,
             rowsC: seq<array<real>>, RC: set<array<real>>, dC: seq<seq<real>>)
    requires e.Ready() && SqrtLaws(sqrt)
    requires e.useMFCC ==> Filled(mfcSimilarityMatrix, e, Mfcc, sqrt)
    requires e.useAutoCorrelation ==> Filled(acSimilarityMatrix, e, AutoCorrelation, sqrt)
    requires e.useCQT ==> Filled(cqtSimilarityMatrix, e, Cqt, sqrt)
    ensures RM == Rows(mfcSimilarityMatrix) && RA == Rows(acSimilarityMatrix) && RC == Rows(cqtSimilarityMatrix)
    ensures e.useMFCC ==>
      && mfcSimilarityMatrix != null && mfcSimilarityMatrix[..] == rowsM && AllDue(dM, e, Mfcc, sqrt)
      && Shaped(rowsM, RM, dM) && Holds(rowsM, RM, dM, e.size, 0)
    ensures e.useAutoCorrelation ==>
      && acSimilarityMatrix != null && acSimilarityMatrix[..] == rowsA && AllDue(dA, e, AutoCorrelation, sqrt)
      && Shaped(rowsA, RA, dA) && Holds(rowsA, RA, dA, e.size, 0)
    ensures e.useCQT ==>
      && cqtSimilarityMatrix != null && cqtSimilarityMatrix[..] == rowsC && AllDue(dC, e, Cqt, sqrt)
      && Shaped(rowsC, RC, dC) && Holds(rowsC, RC, dC, e.size, 0)
  {
    rowsM, RM, dM := Snapshot(e, Mfcc, sqrt, mfcSimilarityMatrix);
    rowsA, RA, dA := Snapshot(e, AutoCorrelation, sqrt, acSimilarityMatrix);
    rowsC, RC, dC := Snapshot(e, Cqt, sqrt, cqtSimilarityMatrix);
  }

  /** The bookkeeping the blend pass fills the similarity matrix through. */
  ghost method TrackBlend(e: Extracted, sqrt: real -> real, similarityMatrix: array<array<real>>)
    returns (rows: seq<array<real>>, R: set<array<real>>, d: seq<seq<real>>)
    requires e.Ready() && SqrtLaws(sqrt)
    requires Triangle(similarityMatrix, e.size)
    ensures R == Rows(similarityMatrix) && similarityMatrix[..] == rows
    ensures Shaped(rows, R, d) && SimDue(d, e, sqrt)
  {
    R := Rows(similarityMatrix);
    rows := similarityMatrix[..];
    d := seq(e.size, i requires 0 <= i < e.size => seq(i + 1, j requires 0 <= j <= i => Similarity(e, i, j, sqrt)));
    assert forall r :: 0 <= r < |rows| ==> rows[r] == similarityMatrix[r];
  }

  /** The end of the blend pass: the matrix holds every blended similarity. */
  lemma Conclude(e: Extracted, sqrt: real -> real, similarityMatrix: array<array<real>>,
                 rows: seq<array<real>>, R: set<array<real>>, d: seq<seq<real>>)
    requires e.Ready() && SqrtLaws(sqrt)
    requires Triangle(similarityMatrix, e.size) && similarityMatrix[..] == rows
    requires Shaped(rows, R, d) && SimDue(d, e, sqrt) && Holds(rows, R, d, e.size, 0)
    ensures Blended(similarityMatrix, e, sqrt)
  {
    forall r, c | 0 <= c <= r < e.size
      ensures similarityMatrix[r][c] == Similarity(e, r, c, sqrt)
    {
      assert similarityMatrix[r] == rows[r];
      assert rows[r][c] == d[r][c];
      assert SimRowDue(d, e, sqrt, r);
    }
  }

  /** Every entry of `similarityMatrix` is the blended similarity of its pair. */
  ghost predicate Blended(similarityMatrix: array<array<real>>, e: Extracted, sqrt: real -> real)
    reads similarityMatrix, Rows(similarityMatrix)
    requires e.Ready() && SqrtLaws(sqrt)
  {
    && Triangle(similarityMatrix, e.size)
    && forall r, c {:trigger similarityMatrix[r][c]} :: 0 <= c <= r < e.size ==> similarityMatrix[r][c] == Similarity(e, r, c, sqrt)
  }

  /**
   * The blend pass: every entry of the similarity matrix becomes the blend
   * of the enabled kinds' normalised distances, row by row.
   */
  method BlendPass(e: Extracted, sqrt: real -> real, similarityMatrix: array<array<real>>,
                   mfcSimilarityMatrix: array?<array<real>>, acSimilarityMatrix: array?<array<real>>,
                   cqtSimilarityMatrix: array?<array<real>>,
                   minMFCC: real, maxMFCC: real, minAC: real, maxAC: real, minCQT: real, maxCQT: real, coeficient: real)
    requires e.Ready() && SqrtLaws(sqrt)
    requires e.useMFCC ==>
      Filled(mfcSimilarityMatrix, e, Mfcc, sqrt) && minMFCC == Lowest(e, Mfcc, sqrt) && maxMFCC == Highest(e, Mfcc, sqrt)
    requires e.useAutoCorrelation ==>
      Filled(acSimilarityMatrix, e, AutoCorrelation, sqrt) && minAC == Lowest(e, AutoCorrelation, sqrt) && maxAC == Highest(e, AutoCorrelation, sqrt)
    requires e.useCQT ==>
      Filled(cqtSimilarityMatrix, e, Cqt, sqrt) && minCQT == Lowest(e, Cqt, sqrt) && maxCQT == Highest(e, Cqt, sqrt)
    requires Triangle(similarityMatrix, e.size)
    requires Rows(similarityMatrix) !! Rows(mfcSimilarityMatrix)
    requires Rows(similarityMatrix) !! Rows(acSimilarityMatrix)
    requires Rows(similarityMatrix) !! Rows(cqtSimilarityMatrix)
    requires e.Factor() > 0 ==> coeficient == MAX_SCALE_VALUE / e.Factor() as real
    modifies Rows(similarityMatrix)
    ensures Blended(similarityMatrix, e, sqrt)
  {
    ghost var rowsS, RS, dS := TrackBlend(e, sqrt, similarityMatrix);
    ghost var rowsM, RM, dM, rowsA, RA, dA, rowsC, RC, dC :=
      SnapshotAll(e, sqrt, mfcSimilarityMatrix, acSimilarityMatrix, cqtSimilarityMatrix);
    BlendLoop(e, sqrt, similarityMatrix, rowsS, RS, dS, mfcSimilarityMatrix, rowsM, RM, dM,
              acSimilarityMatrix, rowsA, RA, dA, cqtSimilarityMatrix, rowsC, RC, dC,
              minMFCC, maxMFCC, minAC, maxAC, minCQT, maxCQT, coeficient);
    Conclude(e, sqrt, similarityMatrix, rowsS, RS, dS);
  }

  /** A distance matrix for a kind: a fresh triangle when the kind is enabled, none otherwise. */
  method MaybeTriangle(enabled: bool, size: nat) returns (m: array?<array<real>>)
    ensures enabled ==> m != null && fresh(m) && Triangle(m, size)
    ensures !enabled ==> m == null
    ensures fresh(Rows(m))
  {
    m := null;
    if enabled {
      m := NewTriangle(size);
    }
  }

  /**
   * The matrices of one construction, allocated in order: a distance
   * matrix for each enabled kind (none for a disabled one), then the
   * similarity matrix. Each is a fresh triangle of `e.size` rows, so no two
   * share a row.
   */
  method Allocate(e: Extracted)
    returns (mfcSimilarityMatrix: array?<array<real>>, acSimilarityMatrix: array?<array<real>>,
             cqtSimilarityMatrix: array?<array<real>>, similarityMatrix: array<array<real>>)
    ensures e.useMFCC ==> mfcSimilarityMatrix != null && Triangle(mfcSimilarityMatrix, e.size)
    ensures e.useAutoCorrelation ==> acSimilarityMatrix != null && Triangle(acSimilarityMatrix, e.size)
    ensures e.useCQT ==> cqtSimilarityMatrix != null && Triangle(cqtSimilarityMatrix, e.size)
    ensures Triangle(similarityMatrix, e.size)
    ensures fresh(similarityMatrix) && fresh(Rows(similarityMatrix))
    ensures fresh(Rows(mfcSimilarityMatrix)) && fresh(Rows(acSimilarityMatrix)) && fresh(Rows(cqtSimilarityMatrix))
    ensures Rows(mfcSimilarityMatrix) !! Rows(acSimilarityMatrix)
    ensures Rows(mfcSimilarityMatrix) !! Rows(cqtSimilarityMatrix)
    ensures Rows(acSimilarityMatrix) !! Rows(cqtSimilarityMatrix)
    ensures Rows(similarityMatrix) !! Rows(mfcSimilarityMatrix)
    ensures Rows(similarityMatrix) !! Rows(acSimilarityMatrix)
    ensures Rows(similarityMatrix) !! Rows(cqtSimilarityMatrix)
  {
    mfcSimilarityMatrix := MaybeTriangle(e.useMFCC, e.size);
    acSimilarityMatrix := MaybeTriangle(e.useAutoCorrelation, e.size);
    cqtSimilarityMatrix := MaybeTriangle(e.useCQT, e.size);
    similarityMatrix := NewTriangle(e.size);
  }

  /**
   * Each enabled kind's share of the scale: `MAX_SCALE_VALUE` over the
   * number of enabled kinds. With no kind enabled the quotient is never
   * used (a float division would give infinity there), and 0 stands in.
   */
  method Coefficient(e: Extracted) returns (coeficient: real)
    ensures e.Factor() > 0 ==> coeficient == MAX_SCALE_VALUE / e.Factor() as real
    ensures e.Factor() == 0 ==> coeficient == 0.0
  {
    var factor := 0.0;
    if e.useMFCC {
      factor := factor + 1.0;
    }
    if e.useAutoCorrelation {
      factor := factor + 1.0;
    }
    if e.useCQT {
      factor := factor + 1.0;
    }
    coeficient := if factor > 0.0 then MAX_SCALE_VALUE / factor else 0.0;
  }

  /**
   * The self-similarity matrix of the extracted features: the distance
   * matrices of the enabled kinds and the similarity matrix are allocated
   * as triangles, the distance pass fills the former and finds each kind's
   * extremes, and the blend pass fills the latter.
   */
  method Construct(e: Extracted, sqrt: real -> real) returns (similarityMatrix: array<array<real>>)
    requires e.Ready() && SqrtLaws(sqrt)
    ensures fresh(similarityMatrix) && fresh(Rows(similarityMatrix))
    ensures Blended(similarityMatrix, e, sqrt)
  {
    var mfcSimilarityMatrix, acSimilarityMatrix, cqtSimilarityMatrix;
    mfcSimilarityMatrix, acSimilarityMatrix, cqtSimilarityMatrix, similarityMatrix := Allocate(e);
    var minMFCC, maxMFCC, minAC, maxAC, minCQT, maxCQT :=
      DistancePass(e, sqrt, mfcSimilarityMatrix, acSimilarityMatrix, cqtSimilarityMatrix);
    var coeficient := Coefficient(e);
    BlendPass(e, sqrt, similarityMatrix, mfcSimilarityMatrix, acSimilarityMatrix, cqtSimilarityMatrix,
              minMFCC, maxMFCC, minAC, maxAC, minCQT, maxCQT, coeficient);
  }

  /** A fresh copy of one row, as `System.arraycopy` fills it. */
  method CopyRow(source: array<real>) returns (row: array<real>)
    ensures fresh(row) && row[..] == source[..]
  {
    row := new real[source.Length];
    for k := 0 to source.Length
      invariant row[..k] == source[..k]
    {
      row[k] := source[k];
    }
  }

  /**
   * A row-by-row copy of `source`: as many rows, each a fresh array with the
   * same entries, so the copy shares no row with the original.
   */
  method CopyMatrix(source: array<array<real>>) returns (copy: array<array<real>>)
    ensures fresh(copy) && copy.Length == source.Length
    ensures forall i :: 0 <= i < copy.Length ==> fresh(copy[i]) && copy[i][..] == source[i][..]
    ensures forall i, i' :: 0 <= i < i' < copy.Length ==> copy[i] != copy[i']
  {
    var placeholder := new real[0];
    copy := new array<real>[source.Length](_ => placeholder);
    for i := 0 to source.Length
      invariant forall r :: 0 <= r < i ==> fresh(copy[r]) && copy[r][..] == source[r][..]
      invariant forall r, r' :: 0 <= r < r' < i ==> copy[r] != copy[r']
    {
      copy[i] := CopyRow(source[i]);
    }
  }
}
