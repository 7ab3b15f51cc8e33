/**
 * The handlers of the older bot.py: the same photo, grid and padding
 * conversation over `user_data`, with the keyboards built inline, the legacy
 * grid table, two clock readings for the pack's name and title, and a temp
 * directory that is removed only when the pack is published.
 *
 * Two literals of bot.py are the UTF-8 bytes of the intended text read back
 * as Mac Roman: the word after the emoji count on the grid buttons and the
 * emoji every sticker stands for. `MojibakeIsMacRoman` shows this. The
 * step functions take the button word and the sticker emoji as parameters:
 * the handler methods pass the literals as bot.py writes them, and the
 * lemmas `PhotoOffersTable` and `PackFromTwoReadings` state what the
 * intended text gives.
 */
module LegacyBot {
  import opened Results
  import opened Text
  import opened GridCut
  import opened LegacyImageProcessor
  import opened Callbacks
  import opened Keyboards
  import opened Sticker
  import opened Conversation

  /** The word on the grid buttons of bot.py as it stands in the file. */
  const MangledEmojiWord: string :=
    "\U{2014}\U{00E7}\U{2013}\U{00BA}\U{2013}\U{00E6}\U{2013}\U{00A5}\U{2013}\U{2211}\U{2013}\U{220F}"

  /** The sticker emoji of bot.py as it stands in the file. */
  const AsWrittenGlyph: string := "\U{F8FF}\U{00FC}\U{00F2}\U{00C4}"

  /** The UTF-8 encoding of one code point. */
  function Utf8(c: char): (bytes: seq<nat>)
    ensures 1 <= |bytes| <= 4
  {
    var n := c as int;
    if n < 0x80 then [n]
    else if n < 0x800 then [0xC0 + n / 0x40, 0x80 + n % 0x40]
    else if n < 0x1_0000 then [0xE0 + n / 0x1000, 0x80 + n / 0x40 % 0x40, 0x80 + n % 0x40]
    else [0xF0 + n / 0x4_0000, 0x80 + n / 0x1000 % 0x40, 0x80 + n / 0x40 % 0x40, 0x80 + n % 0x40]
  }

  function Utf8String(s: string): seq<nat> {
    if |s| == 0 then [] else Utf8(s[0]) + Utf8String(s[1..])
  }

  /** The Mac Roman characters of the upper half that the two literals use; ASCII reads as itself. */
  const MacRomanHigh: map<nat, char> := map[
    0x80 := '\U{00C4}', 0x8D := '\U{00E7}', 0x98 := '\U{00F2}', 0x9F := '\U{00FC}',
    0xB4 := '\U{00A5}', 0xB7 := '\U{2211}', 0xB8 := '\U{220F}', 0xBC := '\U{00BA}',
    0xBE := '\U{00E6}', 0xD0 := '\U{2013}', 0xD1 := '\U{2014}', 0xF0 := '\U{F8FF}']

  /** One byte read as Mac Roman; a byte of the upper half outside the table gives `None`. */
  function MacRomanChar(b: nat): Option<char> {
    if b < 0x80 then Some(b as char) else if b in MacRomanHigh then Some(MacRomanHigh[b]) else None
  }

  /** Bytes read as Mac Roman, one character per byte. */
  function MacRoman(bytes: seq<nat>): (r: Option<string>)
    ensures r.Some? ==> |r.value| == |bytes|
  {
    if |bytes| == 0 then Some("")
    else match (MacRomanChar(bytes[0]), MacRoman(bytes[1..]))
      case (Some(c), Some(rest)) => Some([c] + rest)
      case _ => None
  }

  /** The UTF-8 bytes of the intended word: two bytes per Cyrillic letter. */
  lemma Utf8OfEmojiWord()
    ensures Utf8String(EmojiWord) == [0xD1, 0x8D, 0xD0, 0xBC, 0xD0, 0xBE, 0xD0, 0xB4, 0xD0, 0xB7, 0xD0, 0xB8]
  {
    var e: string := EmojiWord;
    assert Utf8String(e[6..]) == [] by { assert e[6..] == ""; }
    assert Utf8String(e[5..]) == [0xD0, 0xB8] by {
      assert Utf8(e[5]) == [0xD0, 0xB8];
      assert e[5..][0] == e[5] && e[5..][1..] == e[6..];
    }
    assert Utf8String(e[4..]) == [0xD0, 0xB7, 0xD0, 0xB8] by {
      assert Utf8(e[4]) == [0xD0, 0xB7];
      assert e[4..][0] == e[4] && e[4..][1..] == e[5..];
    }
    assert Utf8String(e[3..]) == [0xD0, 0xB4, 0xD0, 0xB7, 0xD0, 0xB8] by {
      assert Utf8(e[3]) == [0xD0, 0xB4];
      assert e[3..][0] == e[3] && e[3..][1..] == e[4..];
    }
    assert Utf8String(e[2..]) == [0xD0, 0xBE, 0xD0, 0xB4, 0xD0, 0xB7, 0xD0, 0xB8] by {
      assert Utf8(e[2]) == [0xD0, 0xBE];
      assert e[2..][0] == e[2] && e[2..][1..] == e[3..];
    }
    assert Utf8String(e[1..]) == [0xD0, 0xBC, 0xD0, 0xBE, 0xD0, 0xB4, 0xD0, 0xB7, 0xD0, 0xB8] by {
      assert Utf8(e[1]) == [0xD0, 0xBC];
      assert e[1..][0] == e[1] && e[1..][1..] == e[2..];
    }
    assert Utf8String(e[0..]) == [0xD1, 0x8D, 0xD0, 0xBC, 0xD0, 0xBE, 0xD0, 0xB4, 0xD0, 0xB7, 0xD0, 0xB8] by {
      assert Utf8(e[0]) == [0xD1, 0x8D];
      assert e[0..][0] == e[0] && e[0..][1..] == e[1..];
    }
    assert e[0..] == e;
  }

  /** The UTF-8 bytes of U+1F600: four bytes. */
  lemma Utf8OfGlyph()
    ensures Utf8String(Glyph) == [0xF0, 0x9F, 0x98, 0x80]
  {
    assert Utf8(Glyph[0]) == [0xF0, 0x9F, 0x98, 0x80];
    assert Glyph[1..] == "";
  }

  /** Bytes each of which reads as the character at the same place read as that text. */
  lemma {:induction false} MacRomanEach(bytes: seq<nat>, text: string)
    requires |bytes| == |text| && forall i :: 0 <= i < |bytes| ==> MacRomanChar(bytes[i]) == Some(text[i])
    ensures MacRoman(bytes) == Some(text)
    decreases |bytes|
  {
    if |bytes| > 0 {
      MacRomanEach(bytes[1..], text[1..]);
      assert [text[0]] + text[1..] == text;
    }
  }

  /** The word's bytes read as Mac Roman are the label word of bot.py. */
  lemma MacRomanOfWordBytes()
    ensures MacRoman([0xD1, 0x8D, 0xD0, 0xBC, 0xD0, 0xBE, 0xD0, 0xB4, 0xD0, 0xB7, 0xD0, 0xB8]) == Some(MangledEmojiWord)
  {
    var bytes: seq<nat> := [0xD1, 0x8D, 0xD0, 0xBC, 0xD0, 0xBE, 0xD0, 0xB4, 0xD0, 0xB7, 0xD0, 0xB8];
    assert MacRomanChar(bytes[0]) == Some(MangledEmojiWord[0]);
    assert MacRomanChar(bytes[1]) == Some(MangledEmojiWord[1]);
    assert MacRomanChar(bytes[2]) == Some(MangledEmojiWord[2]);
    assert MacRomanChar(bytes[3]) == Some(MangledEmojiWord[3]);
    assert MacRomanChar(bytes[4]) == Some(MangledEmojiWord[4]);
    assert MacRomanChar(bytes[5]) == Some(MangledEmojiWord[5]);
    assert MacRomanChar(bytes[6]) == Some(MangledEmojiWord[6]);
    assert MacRomanChar(bytes[7]) == Some(MangledEmojiWord[7]);
    assert MacRomanChar(bytes[8]) == Some(MangledEmojiWord[8]);
    assert MacRomanChar(bytes[9]) == Some(MangledEmojiWord[9]);
    assert MacRomanChar(bytes[10]) == Some(MangledEmojiWord[10]);
    assert MacRomanChar(bytes[11]) == Some(MangledEmojiWord[11]);
    MacRomanEach(bytes, MangledEmojiWord);
  }

  /** The emoji's bytes read as Mac Roman are the sticker emoji of bot.py. */
  lemma MacRomanOfGlyphBytes()
    ensures MacRoman([0xF0, 0x9F, 0x98, 0x80]) == Some(AsWrittenGlyph)
  {
    var bytes: seq<nat> := [0xF0, 0x9F, 0x98, 0x80];
    assert MacRomanChar(bytes[0]) == Some(AsWrittenGlyph[0]);
    assert MacRomanChar(bytes[1]) == Some(AsWrittenGlyph[1]);
    assert MacRomanChar(bytes[2]) == Some(AsWrittenGlyph[2]);
    assert MacRomanChar(bytes[3]) == Some(AsWrittenGlyph[3]);
    MacRomanEach(bytes, AsWrittenGlyph);
  }

  /**
   * Both literals are the intended text encoded as UTF-8 and decoded as Mac
   * Roman: the six-letter word became twelve characters and the single
   * code point U+1F600 became four, none of them an emoji.
   */
  lemma MojibakeIsMacRoman()
    ensures MacRoman(Utf8String(EmojiWord)) == Some(MangledEmojiWord)
    ensures MacRoman(Utf8String(Glyph)) == Some(AsWrittenGlyph)
    ensures |MangledEmojiWord| == 2 * |EmojiWord| && |AsWrittenGlyph| == 4 * |Glyph|
    ensures MangledEmojiWord != EmojiWord && AsWrittenGlyph != Glyph
  {
    Utf8OfEmojiWord();
    Utf8OfGlyph();
    MacRomanOfWordBytes();
    MacRomanOfGlyphBytes();
  }

  /** The padding button labels, `PADDING_OPTIONS["1"]` to `["5"]`, are read from the strings module. */
  const PaddingOptionKeys: seq<string> := ["1", "2", "3", "4", "5"]

  predicate HasPaddingOptions(options: map<string, string>) {
    forall k :: k in PaddingOptionKeys ==> k in options
  }

  /** The padding keyboard of bot.py: levels 1 to 5, one per row, labelled from the strings module. */
  function PaddingKeyboard(options: map<string, string>): (keyboard: Keyboard)
    requires HasPaddingOptions(options)
    ensures |keyboard| == 5
  {
    [[Button(options["1"], "padding_1")],
     [Button(options["2"], "padding_2")],
     [Button(options["3"], "padding_3")],
     [Button(options["4"], "padding_4")],
     [Button(options["5"], "padding_5")]]
  }

  /**
   * `handle_photo`: save the photo and record its paths, then offer the
   * legacy table's grids; a failed download, an unreadable image or a zero
   * height raises (a zero width is a ratio of 0 and gets the tall grids).
   * `word` follows the count on each button label.
   */
  function PhotoStep(s: Session, uid: int, download: Download, image: Option<ImageSize>, word: string): Step<PhotoOutcome> {
    var t := SavePhoto(s, uid, download);
    if download != Saved || image.None? then Step(t, [], PhotoRaised)
    else match SuggestGridSize(image.value.width, image.value.height)
      case Failure(_) => Step(t, [], PhotoRaised)
      case Success(grids) => Step(t, [], AskGrid(GridKeyboard(grids, word)))
  }

  /**
   * `handle_grid_selection`: bad data raises before anything is stored;
   * otherwise the grid is stored first, and a missing label then raises.
   */
  function GridStep(s: Session, uid: int, data: string, options: map<string, string>): Step<GridOutcome> {
    match ParseGridCallback(data)
    case None => Step(s, [], GridRaised)
    case Some(g) =>
      var t := StoreGrid(s, uid, g);
      if HasPaddingOptions(options) then Step(t, [], AskPadding(PaddingKeyboard(options))) else Step(t, [], GridRaised)
  }

  /**
   * The request bot.py sends: the name from one clock reading, the title
   * from a second one, and every sticker standing for `glyph`.
   */
  function LegacyRequest(uid: int, files: seq<string>, nameTime: int, titleTime: int, glyph: string, botUsername: string): StickerSetRequest {
    StickerSetRequest(uid, PackName(uid, nameTime, botUsername), DefaultTitle(titleTime), StickersOf(files, glyph), StickerType)
  }

  /**
   * `handle_padding_selection`: parse the level (bad data raises), check that
   * a photo and a grid are stored, then crop and publish.
   */
  function PaddingStep(s: Session, uid: int, data: string, image: Option<ImageSize>, nameTime: int, titleTime: int,
                       glyph: string, published: bool, botUsername: string): Step<PaddingOutcome>
    requires WellFormed(uid, s.UserDataOf(uid))
  {
    var ud := s.UserDataOf(uid);
    match ParsePaddingCallback(data)
    case None => Step(s, [], PaddingRaised)
    case Some(padding) =>
      if !Truthy(ud, ImagePathKey) || !Truthy(ud, GridSizeKey) then Step(s, [], ErrorProcessing)
      else PublishStep(s, uid, padding, image, nameTime, titleTime, glyph, published, botUsername)
  }

  /**
   * The `try` block past the guard: crop with 100-pixel tiles, publish, show
   * the link and remove the temp directory; a failing crop or publish shows
   * the error and leaves everything in place.
   */
  function PublishStep(s: Session, uid: int, padding: int, image: Option<ImageSize>, nameTime: int, titleTime: int,
                       glyph: string, published: bool, botUsername: string): Step<PaddingOutcome>
    requires WellFormed(uid, s.UserDataOf(uid)) && ImagePathKey in s.UserDataOf(uid) && GridSizeKey in s.UserDataOf(uid)
  {
    var tempDir := s.UserDataOf(uid)[TempDirKey].s;
    var crop := StoredCrop(s, uid, padding, image, EmojiSize);
    if crop.files.None? then Step(Session(s.userData, crop.fs), [], ErrorCreatingPack)
    else
      var files := crop.files.value;
      var request := LegacyRequest(uid, files, nameTime, titleTime, glyph, botUsername);
      var events := [Cropped(files), Sent(request)];
      if !published then Step(Session(s.userData, crop.fs), events, ErrorCreatingPack)
      else Step(Session(s.userData, RemoveTree(crop.fs, tempDir)), events + [RemovedTree(tempDir)],
                PackReady(PackLink(request.name)))
  }

  /** The button loop of `handle_photo`: one single-button row per grid, labelled with `word` after the count. */
  method BuildGridButtons(grids: seq<Grid>, word: string) returns (keyboard: Keyboard)
    ensures keyboard == GridKeyboard(grids, word)
  {
    keyboard := [];
    for i := 0 to |grids|
      invariant keyboard == GridKeyboard(grids[..i], word)
    {
      var text := GridLabel(grids[i], word);
      var callbackData := GridCallback(grids[i]);
      keyboard := keyboard + [[Button(text, callbackData)]];
    }
    assert grids[..|grids|] == grids;
  }

  /** `handle_photo`, labelling the buttons with the word as bot.py:54 writes it. */
  method HandlePhoto(ctx: BotContext, uid: int, download: Download, image: Option<ImageSize>) returns (outcome: PhotoOutcome)
    modifies ctx
    ensures ctx.State() == PhotoStep(old(ctx.State()), uid, download, image, MangledEmojiWord).session
    ensures outcome == PhotoStep(old(ctx.State()), uid, download, image, MangledEmojiWord).outcome
    ensures ctx.trace == old(ctx.trace)
  {
    if download == NoFile {
      return PhotoRaised;
    }
    var tempDir := "temp_" + IntToString(uid);
    ctx.fs := ctx.fs + {tempDir};
    if download == Interrupted {
      return PhotoRaised;
    }
    var imagePath := PathJoin(tempDir, InputFileName);
    ctx.fs := ctx.fs + {imagePath};
    var ud := if uid in ctx.userData then ctx.userData[uid] else map[];
    ud := ud[ImagePathKey := Str(imagePath)];
    ud := ud[TempDirKey := Str(tempDir)];
    ctx.userData := ctx.userData[uid := ud];
    if image.None? {
      return PhotoRaised;
    }
    var suggested := SuggestGridSize(image.value.width, image.value.height);
    if suggested.Failure? {
      return PhotoRaised;
    }
    var keyboard := BuildGridButtons(suggested.value, MangledEmojiWord);
    outcome := AskGrid(keyboard);
  }

  method HandleGridSelection(ctx: BotContext, uid: int, data: string, options: map<string, string>) returns (outcome: GridOutcome)
    modifies ctx
    ensures ctx.State() == GridStep(old(ctx.State()), uid, data, options).session
    ensures outcome == GridStep(old(ctx.State()), uid, data, options).outcome
    ensures ctx.trace == old(ctx.trace)
  {
    var grid := ParseGridCallback(data);
    if grid.None? {
      return GridRaised;
    }
    var ud := if uid in ctx.userData then ctx.userData[uid] else map[];
    ctx.userData := ctx.userData[uid := ud[GridSizeKey := GridValue(grid.value)]];
    if !HasPaddingOptions(options) {
      return GridRaised;
    }
    outcome := AskPadding(PaddingKeyboard(options));
  }

  /** `crop_image_to_emojis` on the context: make the tile directory, open the image, cut it, record the tiles. */
  method CropImage(ctx: BotContext, imagePath: string, tempDir: string, grid: Grid, padding: int, image: Option<ImageSize>)
    returns (files: Option<seq<string>>)
    modifies ctx
    ensures var crop := CropAttempt(old(ctx.fs), imagePath, tempDir, grid, padding, image, EmojiSize);
      ctx.fs == crop.fs && files == crop.files && ctx.userData == old(ctx.userData) &&
      ctx.trace == old(ctx.trace) + (if files.Some? then [Cropped(files.value)] else [])
  {
    var outputDir := PathJoin(tempDir, EmojiDirName);
    ctx.fs := ctx.fs + {tempDir, outputDir};
    if imagePath !in ctx.fs || image.None? {
      return None;
    }
    var cropped := CropImageToEmojis(outputDir, image.value.width, image.value.height, grid, padding);
    if cropped.Failure? {
      return None;
    }
    ctx.fs := ctx.fs + (set f | f in cropped.value);
    ctx.trace := ctx.trace + [Cropped(cropped.value)];
    files := Some(cropped.value);
  }

  method HandlePaddingSelection(ctx: BotContext, uid: int, data: string, image: Option<ImageSize>, nameTime: int,
                                titleTime: int, published: bool) returns (outcome: PaddingOutcome)
    requires WellFormed(uid, ctx.State().UserDataOf(uid))
    modifies ctx
    ensures var step := PaddingStep(old(ctx.State()), uid, data, image, nameTime, titleTime, AsWrittenGlyph, published,
                                    ctx.botUsername);
      ctx.State() == step.session && ctx.trace == old(ctx.trace) + step.events && outcome == step.outcome
  {
    var padding := ParsePaddingCallback(data);
    if padding.None? {
      return PaddingRaised;
    }
    var ud := if uid in ctx.userData then ctx.userData[uid] else map[];
    if !Truthy(ud, ImagePathKey) || !Truthy(ud, GridSizeKey) {
      return ErrorProcessing;
    }
    outcome := CropAndPublish(ctx, uid, padding.value, image, nameTime, titleTime, published);
  }

  /** The `try` block on the context, with the sticker emoji as bot.py:128 writes it. */
  method CropAndPublish(ctx: BotContext, uid: int, padding: int, image: Option<ImageSize>, nameTime: int,
                        titleTime: int, published: bool) returns (outcome: PaddingOutcome)
    requires var ud := ctx.State().UserDataOf(uid);
      WellFormed(uid, ud) && ImagePathKey in ud && GridSizeKey in ud
    modifies ctx
    ensures var step := PublishStep(old(ctx.State()), uid, padding, image, nameTime, titleTime, AsWrittenGlyph, published,
                                    ctx.botUsername);
      ctx.State() == step.session && ctx.trace == old(ctx.trace) + step.events && outcome == step.outcome
  {
    ghost var s0 := ctx.State();
    var ud := if uid in ctx.userData then ctx.userData[uid] else map[];
    var imagePath, tempDir, grid := ud[ImagePathKey].s, ud[TempDirKey].s, ud[GridSizeKey].grid;
    ghost var trace0 := ctx.trace;
    ghost var crop := StoredCrop(s0, uid, padding, image, EmojiSize);
    ghost var step := PublishStep(s0, uid, padding, image, nameTime, titleTime, AsWrittenGlyph, published, ctx.botUsername);
    assert tempDir == s0.UserDataOf(uid)[TempDirKey].s;
    var cropped := CropImage(ctx, imagePath, tempDir, grid, padding, image);
    assert ctx.fs == crop.fs && cropped == crop.files;
    if cropped.None? {
      assert step == Step(Session(s0.userData, crop.fs), [], ErrorCreatingPack);
      return ErrorCreatingPack;
    }
    var files := cropped.value;
    var packName := PackName(uid, nameTime, ctx.botUsername);
    var packTitle := DefaultTitle(titleTime);
    var stickers := BuildStickers(files, AsWrittenGlyph);
    var request := StickerSetRequest(uid, packName, packTitle, stickers, StickerType);
    ctx.trace := ctx.trace + [Sent(request)];
    assert ctx.trace == trace0 + [Cropped(files), Sent(request)];
    assert request == LegacyRequest(uid, files, nameTime, titleTime, AsWrittenGlyph, ctx.botUsername);
    if !published {
      assert step == Step(Session(s0.userData, crop.fs), [Cropped(files), Sent(request)], ErrorCreatingPack);
      return ErrorCreatingPack;
    }
    outcome := PackReady(PackLink(packName));
    ctx.fs := RemoveTree(ctx.fs, tempDir);
    ctx.trace := ctx.trace + [RemovedTree(tempDir)];
  }

  /**
   * After a saved photo the user's data holds `temp_{uid}` and
   * `temp_{uid}/input.jpg`, and no other user's data changes.
   */
  lemma PhotoStoresPaths(s: Session, uid: int, image: Option<ImageSize>, word: string)
    ensures var t := PhotoStep(s, uid, Saved, image, word).session;
      t.UserDataOf(uid)[TempDirKey] == Str("temp_" + IntToString(uid)) &&
      t.UserDataOf(uid)[ImagePathKey] == Str("temp_" + IntToString(uid) + "/input.jpg") &&
      (forall u :: u != uid ==> t.UserDataOf(u) == s.UserDataOf(u))
  {
    assert PhotoStep(s, uid, Saved, image, word).session == SavePhoto(s, uid, Saved);
    SavePhotoStoresPaths(s, uid);
  }

  /**
   * The photo handler answers with the four grids of the legacy table
   * exactly when the photo is saved, the image readable and its height not
   * zero, each button labelled `{cols}x{rows} ({cols * rows} эмодзи)` and
   * carrying data that parses back to its grid: the handler with the
   * intended word.
   */
  lemma PhotoOffersTable(s: Session, uid: int, download: Download, image: Option<ImageSize>)
    ensures var out := PhotoStep(s, uid, download, image, EmojiWord).outcome;
      (out.AskGrid? <==> download == Saved && image.Some? && image.value.height > 0) &&
      (out.AskGrid? ==> (|out.keyboard| == 4 &&
        forall i :: 0 <= i < 4 ==> (|out.keyboard[i]| == 1 &&
          out.keyboard[i][0].text == GridLabel(SuggestGridSize(image.value.width, image.value.height).value[i], EmojiWord) &&
          ParseGridCallback(out.keyboard[i][0].callbackData) == Some(SuggestGridSize(image.value.width, image.value.height).value[i]))))
  {
    if download == Saved && image.Some? && image.value.height > 0 {
      var gs := SuggestGridSize(image.value.width, image.value.height).value;
      forall i | 0 <= i < 4
        ensures |GridKeyboard(gs, EmojiWord)[i]| == 1 && GridKeyboard(gs, EmojiWord)[i][0].text == GridLabel(gs[i], EmojiWord) &&
          ParseGridCallback(GridKeyboard(gs, EmojiWord)[i][0].callbackData) == Some(gs[i])
      {
        GridKeyboardRoundTrip(gs, EmojiWord, i);
      }
    }
  }

  /**
   * The photo handler as written stores the same data and offers a keyboard
   * in the same cases as with the intended word, with the same button data,
   * but every label differs from the intended one.
   */
  lemma AsWrittenLabelsMangled(s: Session, uid: int, download: Download, image: Option<ImageSize>)
    ensures var asWritten := PhotoStep(s, uid, download, image, MangledEmojiWord);
      var intended := PhotoStep(s, uid, download, image, EmojiWord);
      asWritten.session == intended.session && (asWritten.outcome.AskGrid? <==> intended.outcome.AskGrid?) &&
      (asWritten.outcome.AskGrid? ==> (|asWritten.outcome.keyboard| == |intended.outcome.keyboard| == 4 &&
        forall i :: 0 <= i < 4 ==> (|asWritten.outcome.keyboard[i]| == |intended.outcome.keyboard[i]| == 1 &&
          asWritten.outcome.keyboard[i][0].callbackData == intended.outcome.keyboard[i][0].callbackData &&
          asWritten.outcome.keyboard[i][0].text != intended.outcome.keyboard[i][0].text)))
  {
    if download == Saved && image.Some? && image.value.height > 0 {
      var gs := SuggestGridSize(image.value.width, image.value.height).value;
      SuggestionsAreFourGrids(image.value.width, image.value.height);
      forall i | 0 <= i < 4
        ensures GridLabel(gs[i], MangledEmojiWord) != GridLabel(gs[i], EmojiWord)
      {
        assert |GridLabel(gs[i], MangledEmojiWord)| == |GridLabel(gs[i], EmojiWord)| + 6;
      }
    }
  }

  /**
   * A grid that parses is stored even when a padding label is then missing
   * and the handler raises; the handler offers the levels exactly when all
   * five labels are there.
   */
  lemma GridStoredBeforeLabels(s: Session, uid: int, g: Grid, options: map<string, string>)
    ensures var step := GridStep(s, uid, GridCallback(g), options);
      step.session.UserDataOf(uid) == s.UserDataOf(uid)[GridSizeKey := GridValue(g)] && step.session.fs == s.fs &&
      (step.outcome.AskPadding? <==> HasPaddingOptions(options))
  {
    GridCallbackRoundTrip(g);
  }

  /** The legacy padding keyboard's button `k` carries `padding_{k + 1}`, which parses back to level `k + 1`. */
  lemma PaddingKeyboardParses(options: map<string, string>, k: nat)
    requires HasPaddingOptions(options) && k < 5
    ensures |PaddingKeyboard(options)[k]| == 1 && ParsePaddingCallback(PaddingKeyboard(options)[k][0].callbackData) == Some(k + 1)
  {
    PaddingKeyboardLevels(k);
    assert PaddingKeyboard(options)[k][0].callbackData == BuildPaddingSelection()[k][0].callbackData;
  }

  /** A padding press that does not parse raises, and one with no photo or grid stored changes nothing. */
  lemma PaddingRejects(s: Session, uid: int, data: string, image: Option<ImageSize>, nameTime: int, titleTime: int,
                       glyph: string, published: bool, botUsername: string)
    requires WellFormed(uid, s.UserDataOf(uid))
    ensures var step := PaddingStep(s, uid, data, image, nameTime, titleTime, glyph, published, botUsername);
      (ParsePaddingCallback(data).None? ==> step == Step(s, [], PaddingRaised)) &&
      (ParsePaddingCallback(data).Some? && (ImagePathKey !in s.UserDataOf(uid) || GridSizeKey !in s.UserDataOf(uid)) ==>
        step == Step(s, [], ErrorProcessing))
  {
    GuardIsPresence(uid, s.UserDataOf(uid));
  }

  /**
   * The published pack: the link names the first clock reading, the title
   * the second, so the title carries the name's timestamp exactly when the
   * two readings agree; the stickers are one per tile, in order, each the
   * single emoji U+1F600: the handler with the intended emoji.
   */
  lemma PackFromTwoReadings(s: Session, uid: int, data: string, image: Option<ImageSize>, nameTime: int, titleTime: int,
                            botUsername: string)
    requires WellFormed(uid, s.UserDataOf(uid)) && Ready(s, uid, data)
    requires PaddingStep(s, uid, data, image, nameTime, titleTime, Glyph, true, botUsername).outcome.PackReady?
    ensures var step := PaddingStep(s, uid, data, image, nameTime, titleTime, Glyph, true, botUsername);
      |step.events| == 3 && step.events[0].Cropped? && step.events[1].Sent? &&
      var request := step.events[1].request;
      step.outcome.link == PackLink(PackName(uid, nameTime, botUsername)) && request.name == PackName(uid, nameTime, botUsername) &&
      (request.title == DefaultTitle(nameTime) <==> nameTime == titleTime) &&
      |request.stickers| == |step.events[0].files| &&
      forall i :: 0 <= i < |request.stickers| ==> request.stickers[i] == InputSticker(step.events[0].files[i], ["\U{1F600}"], Static)
  {
    GuardIsPresence(uid, s.UserDataOf(uid));
    DefaultTitleInjective(titleTime, nameTime);
  }

  /**
   * Past the guard, a published pack removes the temp directory and nothing
   * else; a failed crop or publish leaves every file where it was and the
   * temp directory in place.
   */
  lemma CleanUpOnlyOnSuccess(s: Session, uid: int, data: string, image: Option<ImageSize>, nameTime: int, titleTime: int,
                             glyph: string, published: bool, botUsername: string)
    requires WellFormed(uid, s.UserDataOf(uid)) && Ready(s, uid, data)
    ensures var step := PaddingStep(s, uid, data, image, nameTime, titleTime, glyph, published, botUsername);
      step.session.userData == s.userData &&
      (step.outcome.PackReady? || step.outcome.ErrorCreatingPack?) &&
      (step.outcome.PackReady? ==> step.session.fs == RemoveTree(s.fs, TempDir(uid))) &&
      (step.outcome.ErrorCreatingPack? ==> (s.fs <= step.session.fs && TempDir(uid) in step.session.fs &&
        forall p :: p in step.session.fs && !Within(p, TempDir(uid)) ==> p in s.fs))
  {
    GuardIsPresence(uid, s.UserDataOf(uid));
    var ud := s.UserDataOf(uid);
    CropStaysInTempDir(s.fs, uid, ud[GridSizeKey].grid, ParsePaddingCallback(data).value, image, EmojiSize);
  }

  /** Unlike the newer handler, a failed publish leaves the user's temp directory behind. */
  lemma FailedPublishLeaksTempDir(s: Session, uid: int, data: string, image: Option<ImageSize>, nameTime: int,
                                  titleTime: int, glyph: string, botUsername: string)
    requires WellFormed(uid, s.UserDataOf(uid)) && Ready(s, uid, data)
    ensures var step := PaddingStep(s, uid, data, image, nameTime, titleTime, glyph, false, botUsername);
      step.outcome == ErrorCreatingPack && TempDir(uid) in step.session.fs
  {
    CleanUpOnlyOnSuccess(s, uid, data, image, nameTime, titleTime, glyph, false, botUsername);
  }

  /**
   * The padding handler as written ends in the same state and answer as with
   * the intended emoji, but every sticker it sends stands for the mangled
   * literal, which is not the intended emoji.
   */
  lemma AsWrittenStickersMangled(s: Session, uid: int, data: string, image: Option<ImageSize>, nameTime: int,
                                 titleTime: int, published: bool, botUsername: string)
    requires WellFormed(uid, s.UserDataOf(uid))
    ensures var asWritten := PaddingStep(s, uid, data, image, nameTime, titleTime, AsWrittenGlyph, published, botUsername);
      var intended := PaddingStep(s, uid, data, image, nameTime, titleTime, Glyph, published, botUsername);
      asWritten.session == intended.session && asWritten.outcome == intended.outcome &&
      |asWritten.events| == |intended.events| &&
      (|asWritten.events| >= 2 ==> (asWritten.events[1].Sent? && intended.events[1].Sent? &&
        |asWritten.events[1].request.stickers| == |intended.events[1].request.stickers| &&
        forall i :: 0 <= i < |asWritten.events[1].request.stickers| ==>
          asWritten.events[1].request.stickers[i].emojiList == [AsWrittenGlyph] &&
          intended.events[1].request.stickers[i].emojiList == [Glyph] && AsWrittenGlyph != Glyph))
  {
    assert |AsWrittenGlyph| != |Glyph|;
  }
}
