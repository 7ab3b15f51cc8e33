/**
 * `KeyboardBuilder` of src/bot/keyboards.py: the inline keyboard offering
 * the suggested grids, one button per row, and the fixed five-row keyboard
 * of padding levels.
 */
module Keyboards {
  import opened Results
  import opened Text
  import opened GridCut
  import opened Callbacks

  /** An inline button: the text shown and the data sent back when it is pressed. */
  datatype Button = Button(text: string, callbackData: string)

  /** An inline keyboard: rows of buttons, top to bottom. */
  type Keyboard = seq<seq<Button>>

  /** The word after the emoji count on a grid button. */
  const EmojiWord: string := "эмодзи"

  /** `f"{cols}x{rows} ({cols * rows} {word})"`. */
  function GridLabel(g: Grid, word: string): string {
    IntToString(g.cols) + "x" + IntToString(g.rows) + " (" + IntToString(g.cols * g.rows) + " " + word + ")"
  }

  /** One single-button row per grid, labelled with `word` after the count. */
  function GridKeyboard(gridSizes: seq<Grid>, word: string): (keyboard: Keyboard)
    ensures |keyboard| == |gridSizes|
  {
    seq(|gridSizes|, i requires 0 <= i < |gridSizes| => [Button(GridLabel(gridSizes[i], word), GridCallback(gridSizes[i]))])
  }

  /** Every button of a grid keyboard, pressed, makes the handler store exactly the grid it shows. */
  lemma GridKeyboardRoundTrip(gridSizes: seq<Grid>, word: string, i: nat)
    requires i < |gridSizes|
    ensures |GridKeyboard(gridSizes, word)[i]| == 1
    ensures ParseGridCallback(GridKeyboard(gridSizes, word)[i][0].callbackData) == Some(gridSizes[i])
  {
    GridCallbackRoundTrip(gridSizes[i]);
  }

  /**
   * `build_grid_selection`: one single-button row per grid, in the order
   * given, each labelled with the grid and carrying a callback that the
   * grid handler parses back to that very grid.
   */
  method BuildGridSelection(gridSizes: seq<Grid>) returns (keyboard: Keyboard)
    ensures keyboard == GridKeyboard(gridSizes, EmojiWord)
    ensures |keyboard| == |gridSizes|
    ensures forall i :: 0 <= i < |gridSizes| ==>
      keyboard[i] == [Button(GridLabel(gridSizes[i], EmojiWord), GridCallback(gridSizes[i]))]
    ensures forall i :: 0 <= i < |gridSizes| ==> ParseGridCallback(keyboard[i][0].callbackData) == Some(gridSizes[i])
  {
    keyboard := [];
    for i := 0 to |gridSizes|
      invariant |keyboard| == i
      invariant forall k :: 0 <= k < i ==> keyboard[k] == [Button(GridLabel(gridSizes[k], EmojiWord), GridCallback(gridSizes[k]))]
    {
      var g := gridSizes[i];
      var text := GridLabel(g, EmojiWord);
      var callbackData := GridCallback(g);
      keyboard := keyboard + [[Button(text, callbackData)]];
    }
    forall i | 0 <= i < |gridSizes|
      ensures ParseGridCallback(keyboard[i][0].callbackData) == Some(gridSizes[i])
    {
      GridCallbackRoundTrip(gridSizes[i]);
    }
  }

  const PaddingLabels: seq<string> := [
    "1 - Минимальный",
    "2 - Маленький",
    "3 - Средний",
    "4 - Большой",
    "5 - Максимальный"]

  /** `build_padding_selection`: levels 1 to 5, one per row. */
  function BuildPaddingSelection(): (keyboard: Keyboard)
    ensures |keyboard| == 5
  {
    [[Button(PaddingLabels[0], "padding_1")],
     [Button(PaddingLabels[1], "padding_2")],
     [Button(PaddingLabels[2], "padding_3")],
     [Button(PaddingLabels[3], "padding_4")],
     [Button(PaddingLabels[4], "padding_5")]]
  }

  /**
   * Row `i` of the padding keyboard is the single button for level `i + 1`:
   * its data is `padding_{i + 1}` and the handler reads back `i + 1`.
   */
  lemma PaddingKeyboardLevels(i: nat)
    requires i < 5
    ensures var row := BuildPaddingSelection()[i];
      |row| == 1 && row[0].callbackData == PaddingCallback(i + 1) &&
      ParsePaddingCallback(row[0].callbackData) == Some(i + 1)
  {
    var n := i + 1;
    assert IntToString(n) == [DigitChar(n)];
    PaddingCallbackRoundTrip(n);
  }
}
