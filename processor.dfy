/**
 * `ImageProcessor` of src/emoji/processor.py: the crop into a grid (its
 * geometry lives in GridCut) and the grid-size heuristic `suggest_grid_sizes`.
 *
 * The heuristic computes, for each target emoji count, a number of rows from
 * the square root of `target / aspect`, a number of columns from
 * `target / rows`, floors both at 2, and when the grid's aspect strays more
 * than 0.4 from the image's it recomputes the columns from the aspect. The
 * three floating-point steps are left to a `FloatOracle`; the integer
 * rounding of `target / rows` is exact and modelled as Python's `round`.
 */
module Processor {
  import opened Results
  import opened GridCut

  /** The emoji counts the heuristic aims for, in the order it tries them. */
  const TargetCounts: seq<int> := [21, 36, 56, 72]

  /**
   * The floating-point steps of `suggest_grid_sizes`, as functions of the
   * image size:
   *  - `sqrtRows(w, h, t)` is `round((t / (w / h)) ** 0.5)`;
   *  - `deviates(w, h, c, r)` is `abs(c / r - w / h) > 0.4`;
   *  - `aspectCols(w, h, r)` is `round((w / h) * r)`.
   */
  datatype FloatOracle = FloatOracle(
    sqrtRows: (nat, nat, int) -> int,
    deviates: (nat, nat, int, int) -> bool,
    aspectCols: (nat, nat, int) -> int)

  /**
   * Python's `round(a / b)` for ints, `b > 0`: the nearest integer, ties to
   * the even one. For the small operands here the float quotient is exact
   * enough that the rounding of the real quotient is what Python computes.
   */
  function RoundDiv(a: int, b: int): (r: int)
    requires b > 0
    ensures 2 * (a - r * b) <= b && 2 * (r * b - a) <= b
    ensures 2 * (a - r * b) == b || 2 * (r * b - a) == b ==> r % 2 == 0
  {
    var q, rem := a / b, a % b;
    if 2 * rem > b then q + 1
    else if 2 * rem < b then q
    else if q % 2 == 0 then q else q + 1
  }

  /** The grid proposed for one target count. */
  function Candidate(width: nat, height: nat, target: int, ops: FloatOracle): (g: Grid)
    ensures g.cols >= 2 && g.rows >= 2
    ensures g.rows == Max(2, ops.sqrtRows(width, height, target))
  {
    var rows := Max(2, ops.sqrtRows(width, height, target));
    var cols := Max(2, RoundDiv(target, rows));
    if ops.deviates(width, height, cols, rows) then Grid(Max(2, ops.aspectCols(width, height, rows)), rows)
    else Grid(cols, rows)
  }

  /** One candidate per target, in the order of the targets. */
  function CandidatesFor(width: nat, height: nat, targets: seq<int>, ops: FloatOracle): (gs: seq<Grid>)
    ensures |gs| == |targets|
    ensures forall k :: 0 <= k < |targets| ==> gs[k] == Candidate(width, height, targets[k], ops)
    decreases |targets|
  {
    if |targets| == 0 then []
    else CandidatesFor(width, height, targets[..|targets| - 1], ops) + [Candidate(width, height, targets[|targets| - 1], ops)]
  }

  function Candidates(width: nat, height: nat, ops: FloatOracle): seq<Grid> {
    CandidatesFor(width, height, TargetCounts, ops)
  }

  /** The elements of `s`, keeping each one where it first occurs. */
  function Dedup<T(==)>(s: seq<T>): seq<T>
    decreases |s|
  {
    if |s| == 0 then []
    else
      var d := Dedup(s[..|s| - 1]);
      if s[|s| - 1] in s[..|s| - 1] then d else d + [s[|s| - 1]]
  }

  /** The index of the first occurrence of `x` in `s`. */
  function FirstIndex<T(==)>(s: seq<T>, x: T): (i: nat)
    requires x in s
    ensures i < |s| && s[i] == x && x !in s[..i]
    decreases |s|
  {
    if s[0] == x then 0 else 1 + FirstIndex(s[1..], x)
  }

  predicate Distinct<T(==)>(s: seq<T>) {
    forall i, j :: 0 <= i < j < |s| ==> s[i] != s[j]
  }

  /** What `suggest_grid_sizes` returns: the de-duplicated candidates, cut to five. */
  function Suggestions(width: nat, height: nat, ops: FloatOracle): seq<Grid> {
    var unique := Dedup(Candidates(width, height, ops));
    unique[..Min(5, |unique|)]
  }

  lemma {:induction false} DedupElements<T>(s: seq<T>)
    ensures forall x :: x in Dedup(s) <==> x in s
    decreases |s|
  {
    if |s| > 0 {
      var init := s[..|s| - 1];
      DedupElements(init);
      assert s == init + [s[|s| - 1]];
    }
  }

  lemma {:induction false} DedupDistinct<T>(s: seq<T>)
    ensures Distinct(Dedup(s))
    decreases |s|
  {
    if |s| > 0 {
      DedupDistinct(s[..|s| - 1]);
      DedupElements(s[..|s| - 1]);
    }
  }

  lemma {:induction false} DedupLength<T>(s: seq<T>)
    ensures |Dedup(s)| <= |s|
    ensures |s| > 0 ==> |Dedup(s)| > 0
    decreases |s|
  {
    if |s| > 0 {
      DedupLength(s[..|s| - 1]);
      if s[|s| - 1] in s[..|s| - 1] {
        assert |s[..|s| - 1]| > 0;
      }
    }
  }

  lemma DedupMember<T>(s: seq<T>, i: nat)
    requires i < |Dedup(s)|
    ensures Dedup(s)[i] in s
  {
    DedupElements(s);
    var x := Dedup(s)[i];
    assert x in Dedup(s);
  }

  lemma InPrefix<T>(s: seq<T>, k: nat, n: nat)
    requires k < |s| && n <= |s|
    ensures k < n ==> s[k] in s[..n]
  {
    if k < n {
      assert s[..n][k] == s[k];
    }
  }

  /** An occurrence with none before it is the first one. */
  lemma FirstIndexUnique<T>(s: seq<T>, x: T, j: nat)
    requires j < |s| && s[j] == x && x !in s[..j]
    ensures FirstIndex(s, x) == j
  {
    var k := FirstIndex(s, x);
    InPrefix(s, k, j);
    InPrefix(s, j, k);
  }

  lemma FirstIndexPrefix<T>(s: seq<T>, x: T, n: nat)
    requires n <= |s| && x in s[..n]
    ensures x in s && FirstIndex(s[..n], x) == FirstIndex(s, x)
  {
    var i := FirstIndex(s[..n], x);
    assert s[..n][..i] == s[..i];
    FirstIndexUnique(s, x, i);
  }

  /** First-seen order: earlier results first occur earlier in the input. */
  lemma {:induction false} DedupKeepsOrder<T>(s: seq<T>, i: nat, j: nat)
    requires i < j < |Dedup(s)|
    ensures Dedup(s)[i] in s && Dedup(s)[j] in s
    ensures FirstIndex(s, Dedup(s)[i]) < FirstIndex(s, Dedup(s)[j])
    decreases |s|
  {
    var init, last := s[..|s| - 1], s[|s| - 1];
    var d := Dedup(init);
    DedupElements(init);
    DedupElements(s);
    assert s[..|init|] == init;
    if j < |d| {
      DedupKeepsOrder(init, i, j);
      FirstIndexPrefix(s, d[i], |init|);
      FirstIndexPrefix(s, d[j], |init|);
    } else {
      assert Dedup(s) == d + [last] && last !in init;
      DedupMember(init, i);
      FirstIndexPrefix(s, d[i], |init|);
      FirstIndexUnique(s, last, |init|);
    }
  }

  /**
   * The suggestion list, whatever the oracle: between one and four grids (so
   * `[:5]` never cuts), both sides at least 2, no duplicates, every candidate
   * present.
   */
  lemma SuggestionsShape(width: nat, height: nat, ops: FloatOracle)
    ensures Suggestions(width, height, ops) == Dedup(Candidates(width, height, ops))
    ensures 1 <= |Suggestions(width, height, ops)| <= |TargetCounts|
    ensures Distinct(Suggestions(width, height, ops))
    ensures forall g :: g in Suggestions(width, height, ops) <==> g in Candidates(width, height, ops)
    ensures forall g :: g in Suggestions(width, height, ops) ==> g.cols >= 2 && g.rows >= 2
  {
    var cs := Candidates(width, height, ops);
    DedupLength(cs);
    DedupDistinct(cs);
    DedupElements(cs);
  }

  class ImageProcessor {
    const emojiSize: int

    constructor(emojiSize: int := 100)
      ensures this.emojiSize == emojiSize
    {
      this.emojiSize := emojiSize;
    }

    /**
     * `crop_to_grid`: the paths of the tiles, row-major, each tile resampled
     * to `emojiSize` pixels; a zero side raises.
     */
    method CropToGrid(outputFolder: string, width: nat, height: nat, gridSize: Grid, padding: int)
      returns (r: Result<seq<string>, DivisionError>)
      ensures r.Failure? <==> gridSize.cols == 0 || gridSize.rows == 0
      ensures r.Success? ==> r.value == Paths(Tiles(Cut(outputFolder, width, height, gridSize, padding, emojiSize)))
    {
      var tiles := CutGrid(Cut(outputFolder, width, height, gridSize, padding, emojiSize));
      if tiles.Failure? {
        return Failure(tiles.error);
      }
      r := Success(Paths(tiles.value));
    }

    /**
     * `suggest_grid_sizes`: the candidate loop, then the de-duplicating loop
     * over a `seen` set, then `[:5]`. A zero width or height raises at the
     * aspect division (width zero: at `target / aspect`).
     */
    method SuggestGridSizes(width: nat, height: nat, ops: FloatOracle) returns (r: Result<seq<Grid>, DivisionError>)
      ensures r.Failure? <==> width == 0 || height == 0
      ensures r.Success? ==> r.value == Suggestions(width, height, ops)
      ensures r.Success? ==> 1 <= |r.value| <= 4 && Distinct(r.value)
      ensures r.Success? ==> forall k :: 0 <= k < 4 ==> Candidate(width, height, TargetCounts[k], ops) in r.value
    {
      if width == 0 || height == 0 {
        return Failure(ZeroDivision);
      }
      var gridSizes: seq<Grid> := [];
      var i := 0;
      while i < |TargetCounts|
        invariant 0 <= i <= |TargetCounts|
        invariant gridSizes == CandidatesFor(width, height, TargetCounts[..i], ops)
      {
        var target := TargetCounts[i];
        var rows := ops.sqrtRows(width, height, target);
        rows := Max(2, rows);
        var cols := RoundDiv(target, rows);
        cols := Max(2, cols);
        if ops.deviates(width, height, cols, rows) {
          cols := ops.aspectCols(width, height, rows);
          cols := Max(2, cols);
        }
        assert Grid(cols, rows) == Candidate(width, height, target, ops);
        assert TargetCounts[..i + 1][..i] == TargetCounts[..i];
        gridSizes := gridSizes + [Grid(cols, rows)];
        i := i + 1;
      }
      assert TargetCounts[..i] == TargetCounts;
      var seen: set<Grid> := {};
      var uniqueSizes: seq<Grid> := [];
      var j := 0;
      while j < |gridSizes|
        invariant 0 <= j <= |gridSizes|
        invariant uniqueSizes == Dedup(gridSizes[..j])
        invariant forall g :: g in seen <==> g in gridSizes[..j]
      {
        var size := gridSizes[j];
        assert gridSizes[..j + 1] == gridSizes[..j] + [size];
        assert gridSizes[..j + 1][..j] == gridSizes[..j];
        if size !in seen {
          seen := seen + {size};
          uniqueSizes := uniqueSizes + [size];
        }
        j := j + 1;
      }
      assert gridSizes[..j] == gridSizes;
      r := Success(uniqueSizes[..Min(5, |uniqueSizes|)]);
      assert r.value == Suggestions(width, height, ops);
      SuggestionsShape(width, height, ops);
    }
  }
}
