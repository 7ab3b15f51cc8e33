/**
 * The module-level helpers of image_processor.py, used by the older bot.py:
 * `crop_image_to_emojis`, the same grid cut as `ImageProcessor.crop_to_grid`
 * with a fixed tile size of 100 pixels, and `suggest_grid_size`, a fixed
 * table of four grids chosen by comparing the aspect ratio with 1.3 and 0.7.
 */
module LegacyImageProcessor {
  import opened Results
  import opened GridCut
  import Processor

  /** The tile side `crop_image_to_emojis` resamples every cell to. */
  const EmojiSize: int := 100

  const WideGrids: seq<Grid> := [Grid(4, 3), Grid(3, 2), Grid(4, 4), Grid(3, 3)]
  const TallGrids: seq<Grid> := [Grid(3, 4), Grid(2, 3), Grid(3, 3), Grid(4, 4)]
  const SquareGrids: seq<Grid> := [Grid(3, 3), Grid(4, 4), Grid(2, 2), Grid(5, 5)]

  /** `crop_image_to_emojis`: the tile paths, row-major; a zero side raises. */
  method CropImageToEmojis(outputFolder: string, width: nat, height: nat, gridSize: Grid, padding: int)
    returns (r: Result<seq<string>, DivisionError>)
    ensures r.Failure? <==> gridSize.cols == 0 || gridSize.rows == 0
    ensures r.Success? ==> r.value == Paths(Tiles(Cut(outputFolder, width, height, gridSize, padding, EmojiSize)))
  {
    var tiles := CutGrid(Cut(outputFolder, width, height, gridSize, padding, EmojiSize));
    if tiles.Failure? {
      return Failure(tiles.error);
    }
    r := Success(Paths(tiles.value));
  }

  /**
   * `suggest_grid_size`: the aspect ratio `width / height` is compared, as an
   * exact rational, with 1.3 and then with 0.7; a zero height raises. The
   * ensures state the same choice with integers only.
   */
  function SuggestGridSize(width: nat, height: nat): (r: Result<seq<Grid>, DivisionError>)
    ensures r.Failure? <==> height == 0
    ensures r.Success? && 10 * width > 13 * height ==> r.value == WideGrids
    ensures r.Success? && 10 * width < 7 * height ==> r.value == TallGrids
    ensures r.Success? && 7 * height <= 10 * width <= 13 * height ==> r.value == SquareGrids
  {
    if height == 0 then Failure(ZeroDivision)
    else
      var aspect := (width as real) / (height as real);
      AspectThresholds(width, height);
      if aspect > 1.3 then Success(WideGrids)
      else if aspect < 0.7 then Success(TallGrids)
      else Success(SquareGrids)
  }

  /** Comparing `width / height` with 1.3 and 0.7 is comparing `10 * width` with `13 * height` and `7 * height`. */
  lemma AspectThresholds(width: nat, height: nat)
    requires height > 0
    ensures (width as real) / (height as real) > 1.3 <==> 10 * width > 13 * height
    ensures (width as real) / (height as real) < 0.7 <==> 10 * width < 7 * height
  {
    var w, h := width as real, height as real;
    QuotientCompare(w, h, 1.3);
    QuotientCompare(w, h, 0.7);
  }

  /** For `h > 0`, `w / h` lies above (below) `t` exactly when `w` lies above (below) `t * h`. */
  lemma QuotientCompare(w: real, h: real, t: real)
    requires h > 0.0
    ensures w / h > t <==> w > t * h
    ensures w / h < t <==> w < t * h
  {
    var d := w / h - t;
    assert d * h == w - t * h;
    if d > 0.0 {
      assert d * h > 0.0;
    } else if d < 0.0 {
      assert (-d) * h > 0.0;
    }
  }

  /** Whatever the image, four distinct grids, each with both sides at least 2. */
  lemma SuggestionsAreFourGrids(width: nat, height: nat)
    requires height > 0
    ensures var r := SuggestGridSize(width, height).value;
      |r| == 4 && Processor.Distinct(r) && forall g :: g in r ==> g.cols >= 2 && g.rows >= 2
  {
  }

  /**
   * Orientation: a wide image gets grids with at least as many columns as
   * rows, a tall one at most as many, and a near-square one square grids.
   */
  lemma SuggestionsFollowOrientation(width: nat, height: nat, g: Grid)
    requires height > 0 && g in SuggestGridSize(width, height).value
    ensures 10 * width > 13 * height ==> g.cols >= g.rows
    ensures 10 * width < 7 * height ==> g.cols <= g.rows
    ensures 7 * height <= 10 * width <= 13 * height ==> g.cols == g.rows
  {
  }

  /** Only the aspect ratio matters: scaling the image does not change the suggestions. */
  lemma SuggestionsScaleFree(width: nat, height: nat, k: nat)
    requires height > 0 && k > 0
    ensures SuggestGridSize(k * width, k * height) == SuggestGridSize(width, height)
  {
    var kw, kh := k * width, k * height;
    assert kh > 0 by {
      MulMonotone(k, 0, height);
    }
    assert 10 * kw > 13 * kh <==> 10 * width > 13 * height by {
      assert 10 * kw == k * (10 * width) && 13 * kh == k * (13 * height);
      MulMonotone(k, 13 * height, 10 * width);
    }
    assert 10 * kw < 7 * kh <==> 10 * width < 7 * height by {
      assert 10 * kw == k * (10 * width) && 7 * kh == k * (7 * height);
      MulMonotone(k, 10 * width, 7 * height);
    }
    SameComparisonsSameSuggestions(kw, kh, width, height);
  }

  /** Two images that compare alike with both thresholds get the same suggestions. */
  lemma SameComparisonsSameSuggestions(w1: nat, h1: nat, w2: nat, h2: nat)
    requires h1 > 0 && h2 > 0
    requires 10 * w1 > 13 * h1 <==> 10 * w2 > 13 * h2
    requires 10 * w1 < 7 * h1 <==> 10 * w2 < 7 * h2
    ensures SuggestGridSize(w1, h1) == SuggestGridSize(w2, h2)
  {
  }

  lemma MulMonotone(k: int, a: int, b: int)
    requires k > 0
    ensures a < b <==> k * a < k * b
  {
    if a < b {
      assert k * b - k * a == k * (b - a);
    } else {
      assert k * a - k * b == k * (a - b);
    }
  }
}
