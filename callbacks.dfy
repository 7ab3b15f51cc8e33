/**
 * The callback data carried by the inline buttons and how the handlers read
 * it back: a grid button carries `grid_{cols}x{rows}` and a padding button
 * `padding_{n}`; the handlers delete every `grid_` (`padding_`) from the data,
 * split the rest at `x` and convert the pieces with `int`.
 */
module Callbacks {
  import opened Results
  import opened Text
  import opened GridCut

  const GridPrefix: string := "grid_"
  const PaddingPrefix: string := "padding_"

  /** `f"grid_{cols}x{rows}"`. */
  function GridCallback(g: Grid): string {
    GridPrefix + IntToString(g.cols) + "x" + IntToString(g.rows)
  }

  /** `f"padding_{n}"`. */
  function PaddingCallback(n: int): string {
    PaddingPrefix + IntToString(n)
  }

  /**
   * `cols, rows = map(int, data.replace("grid_", "").split("x"))`: anything
   * but exactly two pieces fails the unpacking, and a piece that is not an
   * integer fails `int`; both raise, which is `None` here.
   */
  function ParseGridCallback(data: string): (r: Option<Grid>)
    ensures Occurrences(RemoveAll(data, GridPrefix), 'x') != 1 ==> r.None?
  {
    var parts := Split(RemoveAll(data, GridPrefix), 'x');
    SplitLength(RemoveAll(data, GridPrefix), 'x');
    if |parts| != 2 then None
    else match (ParseInt(parts[0]), ParseInt(parts[1]))
      case (Some(cols), Some(rows)) => Some(Grid(cols, rows))
      case _ => None
  }

  /** `int(data.replace("padding_", ""))`. */
  function ParsePaddingCallback(data: string): Option<int> {
    ParseInt(RemoveAll(data, PaddingPrefix))
  }

  /** `sep.join(parts)`. */
  function Join(parts: seq<string>, sep: char): string
    requires |parts| >= 1
    decreases |parts|
  {
    if |parts| == 1 then parts[0] else parts[0] + [sep] + Join(parts[1..], sep)
  }

  /** The pieces of a split joined back with the separator give the input. */
  lemma {:induction false} SplitJoin(s: string, sep: char)
    ensures Join(Split(s, sep), sep) == s
    decreases |s|
  {
    if |s| > 0 {
      var rest := Split(s[1..], sep);
      SplitJoin(s[1..], sep);
      assert [s[0]] + s[1..] == s;
      if s[0] == sep {
        assert Split(s, sep) == [""] + rest;
        assert ([""] + rest)[1..] == rest;
        assert Join([""] + rest, sep) == [sep] + Join(rest, sep);
      } else {
        var parts := [[s[0]] + rest[0]] + rest[1..];
        assert Split(s, sep) == parts;
        if |rest| == 1 {
          assert Join(parts, sep) == [s[0]] + rest[0];
        } else {
          assert parts[1..] == rest[1..];
          assert Join(rest, sep) == rest[0] + [sep] + Join(rest[1..], sep);
          assert Join(parts, sep) == [s[0]] + rest[0] + [sep] + Join(rest[1..], sep);
        }
      }
    }
  }

  /** The pieces of a split never hold the separator. */
  lemma {:induction false} SplitPiecesLackSeparator(s: string, sep: char)
    ensures forall k :: 0 <= k < |Split(s, sep)| ==> sep !in Split(s, sep)[k]
    decreases |s|
  {
    if |s| > 0 {
      var rest := Split(s[1..], sep);
      SplitPiecesLackSeparator(s[1..], sep);
      if s[0] != sep {
        var parts := [[s[0]] + rest[0]] + rest[1..];
        assert Split(s, sep) == parts;
        forall k | 0 <= k < |parts|
          ensures sep !in parts[k]
        {
          if k == 0 {
            assert sep !in rest[0];
          } else {
            assert parts[k] == rest[k];
          }
        }
      }
    }
  }

  /** Encoding a grid and decoding it the way the handlers do gives the grid back, for every pair of ints. */
  lemma GridCallbackRoundTrip(g: Grid)
    ensures ParseGridCallback(GridCallback(g)) == Some(g)
  {
    var a, b := IntToString(g.cols), IntToString(g.rows);
    var body := a + ['x'] + b;
    assert GridCallback(g) == GridPrefix + body;
    RemoveAllPrefix(GridPrefix, body);
    NumeralLacks(a, 'g');
    NumeralLacks(b, 'g');
    NumeralLacks(a, 'x');
    NumeralLacks(b, 'x');
    assert 'g' !in body;
    RemoveAllAbsent(body, GridPrefix);
    SplitAround(a, b, 'x');
    ParseIntOfIntToString(g.cols);
    ParseIntOfIntToString(g.rows);
  }

  /** The same for padding levels. */
  lemma PaddingCallbackRoundTrip(n: int)
    ensures ParsePaddingCallback(PaddingCallback(n)) == Some(n)
  {
    var a := IntToString(n);
    RemoveAllPrefix(PaddingPrefix, a);
    NumeralLacks(a, 'p');
    RemoveAllAbsent(a, PaddingPrefix);
    ParseIntOfIntToString(n);
  }

  /**
   * What the grid parser accepts: after deleting every `grid_`, exactly one
   * `x` with an integer on each side.
   */
  lemma ParseGridCallbackAccepts(data: string, g: Grid)
    ensures ParseGridCallback(data) == Some(g) <==>
      exists a: string, b: string | RemoveAll(data, GridPrefix) == a + ['x'] + b ::
        'x' !in a && 'x' !in b && ParseInt(a) == Some(g.cols) && ParseInt(b) == Some(g.rows)
  {
    var body := RemoveAll(data, GridPrefix);
    var parts := Split(body, 'x');
    if ParseGridCallback(data) == Some(g) {
      SplitJoin(body, 'x');
      SplitPiecesLackSeparator(body, 'x');
      assert |parts| == 2;
      assert parts[1..] == [parts[1]];
      assert body == parts[0] + ['x'] + parts[1];
      assert 'x' !in parts[0] && 'x' !in parts[1];
    }
    if exists a: string, b: string | body == a + ['x'] + b ::
        'x' !in a && 'x' !in b && ParseInt(a) == Some(g.cols) && ParseInt(b) == Some(g.rows) {
      var a: string, b: string :| body == a + ['x'] + b &&
        'x' !in a && 'x' !in b && ParseInt(a) == Some(g.cols) && ParseInt(b) == Some(g.rows);
      SplitAround(a, b, 'x');
    }
  }
}
