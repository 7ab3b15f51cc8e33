/**
 * `EmojiCropperCommand` of src/bot/commands/emoji_cropper.py: the photo,
 * grid and padding handlers as a state machine over each user's
 * `user_data` and the files in the user's temp directory. Each handler is a
 * method on the bot context proved equal to a step function, and the
 * properties of the conversation are lemmas about the step functions.
 *
 * The padding handler as written calls `build_back_to_menu`, which
 * `KeyboardBuilder` does not define, on its success path and again in its
 * `except` branch; `PaddingStepAsWritten` is that behaviour and
 * `PaddingStep` the evidently intended one, which the class uses.
 */
module EmojiCropper {
  import opened Results
  import opened Text
  import opened GridCut
  import opened Processor
  import opened Callbacks
  import opened Keyboards
  import opened Sticker
  import opened Conversation

  /**
   * `handle_photo`: save the photo and record its paths, then offer the
   * suggested grids; a failed download, an unreadable image or a zero side
   * (the suggestion divides by both) makes the handler raise.
   */
  function PhotoStep(s: Session, uid: int, download: Download, image: Option<ImageSize>, ops: FloatOracle): Step<PhotoOutcome> {
    var t := SavePhoto(s, uid, download);
    if download != Saved || image.None? || image.value.width == 0 || image.value.height == 0 then Step(t, [], PhotoRaised)
    else Step(t, [], AskGrid(GridKeyboard(Suggestions(image.value.width, image.value.height, ops), EmojiWord)))
  }

  /** `handle_grid_selection`: store the parsed grid and offer the padding levels; bad data raises first. */
  function GridStep(s: Session, uid: int, data: string): Step<GridOutcome> {
    match ParseGridCallback(data)
    case None => Step(s, [], GridRaised)
    case Some(g) => Step(StoreGrid(s, uid, g), [], AskPadding(BuildPaddingSelection()))
  }

  /** The `except` branch: the error message, then `rmtree` when `temp_dir` is set and exists. */
  function AfterFailure(s: Session, fs: set<string>, tempDir: string, events: seq<Event>): Step<PaddingOutcome> {
    if |tempDir| > 0 && tempDir in fs then
      Step(Session(s.userData, RemoveTree(fs, tempDir)), events + [RemovedTree(tempDir)], ErrorCreatingPack)
    else Step(Session(s.userData, fs), events, ErrorCreatingPack)
  }

  /**
   * `handle_padding_selection` as intended: parse the level (bad data
   * raises), check that a photo and a grid are stored, then crop and publish.
   */
  function PaddingStep(s: Session, uid: int, data: string, image: Option<ImageSize>, timestamp: int, published: bool,
                       emojiSize: int, botUsername: string): Step<PaddingOutcome>
    requires WellFormed(uid, s.UserDataOf(uid))
  {
    var ud := s.UserDataOf(uid);
    match ParsePaddingCallback(data)
    case None => Step(s, [], PaddingRaised)
    case Some(padding) =>
      if !Truthy(ud, ImagePathKey) || !Truthy(ud, GridSizeKey) then Step(s, [], ErrorProcessing)
      else PublishStep(s, uid, padding, image, timestamp, published, emojiSize, botUsername)
  }

  /**
   * The `try` block past the guard: crop, publish, show the link and remove
   * the temp directory; a failing crop or publish shows the error and
   * removes the temp directory too.
   */
  function PublishStep(s: Session, uid: int, padding: int, image: Option<ImageSize>, timestamp: int, published: bool,
                       emojiSize: int, botUsername: string): Step<PaddingOutcome>
    requires WellFormed(uid, s.UserDataOf(uid)) && ImagePathKey in s.UserDataOf(uid) && GridSizeKey in s.UserDataOf(uid)
  {
    var tempDir := s.UserDataOf(uid)[TempDirKey].s;
    var crop := StoredCrop(s, uid, padding, image, emojiSize);
    if crop.files.None? then AfterFailure(s, crop.fs, tempDir, [])
    else AfterCrop(s, crop.fs, uid, tempDir, crop.files.value, timestamp, published, botUsername)
  }

  /** The rest of the `try` block once the tiles `files` are written: publish, then remove the temp directory. */
  function AfterCrop(s: Session, fs: set<string>, uid: int, tempDir: string, files: seq<string>, timestamp: int,
                     published: bool, botUsername: string): Step<PaddingOutcome> {
    var request := PackRequest(uid, files, None, timestamp, botUsername);
    var events := [Cropped(files), Sent(request)];
    if !published then AfterFailure(s, fs, tempDir, events)
    else Step(Session(s.userData, RemoveTree(fs, tempDir)), events + [RemovedTree(tempDir)],
              PackReady(PackLink(request.name)))
  }

  /**
   * `handle_padding_selection` as written: once past the guard, whatever the
   * crop and the publish do, `build_back_to_menu` raises, first in the `try`
   * block and then again in the `except` branch, before any `rmtree`.
   */
  function PaddingStepAsWritten(s: Session, uid: int, data: string, image: Option<ImageSize>, timestamp: int,
                                emojiSize: int, botUsername: string): Step<PaddingOutcome>
    requires WellFormed(uid, s.UserDataOf(uid))
  {
    var ud := s.UserDataOf(uid);
    match ParsePaddingCallback(data)
    case None => Step(s, [], PaddingRaised)
    case Some(padding) =>
      if !Truthy(ud, ImagePathKey) || !Truthy(ud, GridSizeKey) then Step(s, [], ErrorProcessing)
      else
        var crop := StoredCrop(s, uid, padding, image, emojiSize);
        if crop.files.None? then Step(Session(s.userData, crop.fs), [], PaddingRaised)
        else
          var files := crop.files.value;
          Step(Session(s.userData, crop.fs), [Cropped(files), Sent(PackRequest(uid, files, None, timestamp, botUsername))],
               PaddingRaised)
  }

  class EmojiCropperCommand {
    const processor: ImageProcessor

    /** `EmojiCropperCommand()`: a processor with the configured `EMOJI_SIZE`. */
    constructor(emojiSize: int)
      ensures processor.emojiSize == emojiSize
    {
      processor := new ImageProcessor(emojiSize);
    }

    method HandlePhoto(ctx: BotContext, uid: int, download: Download, image: Option<ImageSize>, ops: FloatOracle)
      returns (outcome: PhotoOutcome)
      modifies ctx
      ensures ctx.State() == PhotoStep(old(ctx.State()), uid, download, image, ops).session
      ensures outcome == PhotoStep(old(ctx.State()), uid, download, image, ops).outcome
      ensures ctx.trace == old(ctx.trace)
    {
      ghost var s0 := ctx.State();
      if download == NoFile {
        return PhotoRaised;
      }
      var tempDir := TempDirPrefix + IntToString(uid);
      ctx.fs := ctx.fs + {tempDir};
      if download == Interrupted {
        return PhotoRaised;
      }
      var imagePath := PathJoin(tempDir, InputFileName);
      ctx.fs := ctx.fs + {imagePath};
      var ud := if uid in ctx.userData then ctx.userData[uid] else map[];
      ud := ud[ImagePathKey := Str(imagePath)];
      ud := ud[TempDirKey := Str(tempDir)];
      ctx.userData := ctx.userData[uid := ud];
      assert ctx.State() == SavePhoto(s0, uid, Saved) by {
        assert tempDir == TempDir(uid) && imagePath == ImagePath(uid);
      }
      if image.None? {
        return PhotoRaised;
      }
      var suggested := processor.SuggestGridSizes(image.value.width, image.value.height, ops);
      if suggested.Failure? {
        return PhotoRaised;
      }
      var keyboard := BuildGridSelection(suggested.value);
      outcome := AskGrid(keyboard);
    }

    method HandleGridSelection(ctx: BotContext, uid: int, data: string) returns (outcome: GridOutcome)
      modifies ctx
      ensures ctx.State() == GridStep(old(ctx.State()), uid, data).session
      ensures outcome == GridStep(old(ctx.State()), uid, data).outcome
      ensures ctx.trace == old(ctx.trace)
    {
      var grid := ParseGridCallback(data);
      if grid.None? {
        return GridRaised;
      }
      var ud := if uid in ctx.userData then ctx.userData[uid] else map[];
      ctx.userData := ctx.userData[uid := ud[GridSizeKey := GridValue(grid.value)]];
      outcome := AskPadding(BuildPaddingSelection());
    }

    method HandlePaddingSelection(ctx: BotContext, uid: int, data: string, image: Option<ImageSize>, timestamp: int,
                                  published: bool) returns (outcome: PaddingOutcome)
      requires WellFormed(uid, ctx.State().UserDataOf(uid))
      modifies ctx
      ensures var step := PaddingStep(old(ctx.State()), uid, data, image, timestamp, published, processor.emojiSize, ctx.botUsername);
        ctx.State() == step.session && ctx.trace == old(ctx.trace) + step.events && outcome == step.outcome
    {
      var padding := ParsePaddingCallback(data);
      if padding.None? {
        return PaddingRaised;
      }
      var ud := if uid in ctx.userData then ctx.userData[uid] else map[];
      if !Truthy(ud, ImagePathKey) || !Truthy(ud, GridSizeKey) {
        return ErrorProcessing;
      }
      outcome := CropAndPublish(ctx, uid, padding.value, image, timestamp, published);
    }

    /** The `try` block on the context. */
    method CropAndPublish(ctx: BotContext, uid: int, padding: int, image: Option<ImageSize>, timestamp: int, published: bool)
      returns (outcome: PaddingOutcome)
      requires var ud := ctx.State().UserDataOf(uid);
        WellFormed(uid, ud) && ImagePathKey in ud && GridSizeKey in ud
      modifies ctx
      ensures var step := PublishStep(old(ctx.State()), uid, padding, image, timestamp, published, processor.emojiSize, ctx.botUsername);
        ctx.State() == step.session && ctx.trace == old(ctx.trace) + step.events && outcome == step.outcome
    {
      ghost var s0 := ctx.State();
      var ud := if uid in ctx.userData then ctx.userData[uid] else map[];
      var imagePath, tempDir, grid := ud[ImagePathKey].s, ud[TempDirKey].s, ud[GridSizeKey].grid;
      ghost var trace0 := ctx.trace;
      ghost var crop := StoredCrop(s0, uid, padding, image, processor.emojiSize);
      ghost var step := PublishStep(s0, uid, padding, image, timestamp, published, processor.emojiSize, ctx.botUsername);
      assert tempDir == s0.UserDataOf(uid)[TempDirKey].s;
      var cropped := Crop(ctx, imagePath, tempDir, grid, padding, image);
      assert ctx.fs == crop.fs && cropped == crop.files;
      if cropped.None? {
        assert step == AfterFailure(s0, crop.fs, tempDir, []);
        outcome := CleanUpAfterFailure(ctx, tempDir);
        return;
      }
      assert step == AfterCrop(s0, crop.fs, uid, tempDir, cropped.value, timestamp, published, ctx.botUsername);
      assert ctx.trace == trace0 + [Cropped(cropped.value)];
      outcome := Publish(ctx, uid, tempDir, cropped.value, timestamp, published);
    }

    /** Publish the tiles `files` (the last event logged is their crop) and clean up. */
    method Publish(ctx: BotContext, uid: int, tempDir: string, files: seq<string>, timestamp: int, published: bool)
      returns (outcome: PaddingOutcome)
      requires |ctx.trace| > 0 && ctx.trace[|ctx.trace| - 1] == Cropped(files)
      modifies ctx
      ensures var step := AfterCrop(old(ctx.State()), old(ctx.fs), uid, tempDir, files, timestamp, published, ctx.botUsername);
        ctx.State() == step.session && ctx.trace == old(ctx.trace[..|ctx.trace| - 1]) + step.events && outcome == step.outcome
    {
      ghost var s0, trace0 := ctx.State(), ctx.trace[..|ctx.trace| - 1];
      assert ctx.trace == trace0 + [Cropped(files)];
      var creator := new StickerPackCreator(ctx.botUsername);
      var request, link := creator.CreateEmojiPack(uid, files, None, timestamp, published);
      ctx.trace := ctx.trace + [Sent(request)];
      assert ctx.trace == trace0 + [Cropped(files), Sent(request)];
      if link.Failure? {
        outcome := CleanUpAfterFailure(ctx, tempDir);
        return;
      }
      outcome := PackReady(link.value);
      ctx.fs := RemoveTree(ctx.fs, tempDir);
      ctx.trace := ctx.trace + [RemovedTree(tempDir)];
    }

    /**
     * `crop_to_grid` on the context: make the tile directory, open the image
     * (gone or unreadable: `None`), cut it and record the tiles written.
     */
    method Crop(ctx: BotContext, imagePath: string, tempDir: string, grid: Grid, padding: int, image: Option<ImageSize>)
      returns (files: Option<seq<string>>)
      modifies ctx
      ensures var crop := CropAttempt(old(ctx.fs), imagePath, tempDir, grid, padding, image, processor.emojiSize);
        ctx.fs == crop.fs && files == crop.files && ctx.userData == old(ctx.userData) &&
        ctx.trace == old(ctx.trace) + (if files.Some? then [Cropped(files.value)] else [])
    {
      var outputDir := PathJoin(tempDir, EmojiDirName);
      ctx.fs := ctx.fs + {tempDir, outputDir};
      if imagePath !in ctx.fs || image.None? {
        return None;
      }
      var cropped := processor.CropToGrid(outputDir, image.value.width, image.value.height, grid, padding);
      if cropped.Failure? {
        return None;
      }
      ctx.fs := ctx.fs + (set f | f in cropped.value);
      ctx.trace := ctx.trace + [Cropped(cropped.value)];
      files := Some(cropped.value);
    }

    /** The `except` branch on the context. */
    method CleanUpAfterFailure(ctx: BotContext, tempDir: string) returns (outcome: PaddingOutcome)
      modifies ctx
      ensures var step := AfterFailure(old(ctx.State()), old(ctx.fs), tempDir, []);
        ctx.State() == step.session && ctx.trace == old(ctx.trace) + step.events && outcome == step.outcome
    {
      outcome := ErrorCreatingPack;
      if |tempDir| > 0 && tempDir in ctx.fs {
        ctx.fs := RemoveTree(ctx.fs, tempDir);
        ctx.trace := ctx.trace + [RemovedTree(tempDir)];
      }
    }
  }
  /**
   * After a saved photo the user's data holds `temp_{uid}` and
   * `temp_{uid}/input.jpg`; no other key and no other user changes, and both
   * paths now exist.
   */
  lemma PhotoStoresPaths(s: Session, uid: int, image: Option<ImageSize>, ops: FloatOracle)
    ensures var t := PhotoStep(s, uid, Saved, image, ops).session;
      t.UserDataOf(uid)[TempDirKey] == Str("temp_" + IntToString(uid)) &&
      t.UserDataOf(uid)[ImagePathKey] == Str("temp_" + IntToString(uid) + "/input.jpg") &&
      (forall k :: k != TempDirKey && k != ImagePathKey ==>
        (k in t.UserDataOf(uid) <==> k in s.UserDataOf(uid)) &&
        (k in s.UserDataOf(uid) ==> t.UserDataOf(uid)[k] == s.UserDataOf(uid)[k])) &&
      (forall u :: u != uid ==> t.UserDataOf(u) == s.UserDataOf(u)) &&
      t.fs == s.fs + {TempDir(uid), ImagePath(uid)}
  {
    assert PhotoStep(s, uid, Saved, image, ops).session == SavePhoto(s, uid, Saved);
    SavePhotoStoresPaths(s, uid);
  }

  /**
   * The photo handler answers with grids exactly when the photo is saved and
   * has two positive sides; it then offers one to four distinct
   * suggestions, each button carrying data that parses back to its grid.
   */
  lemma PhotoOffersSuggestions(s: Session, uid: int, download: Download, image: Option<ImageSize>, ops: FloatOracle)
    ensures var out := PhotoStep(s, uid, download, image, ops).outcome;
      (out.AskGrid? <==> download == Saved && image.Some? && image.value.width > 0 && image.value.height > 0) &&
      (out.AskGrid? ==> (1 <= |out.keyboard| <= 4 &&
        forall i :: 0 <= i < |out.keyboard| ==> (|out.keyboard[i]| == 1 &&
          ParseGridCallback(out.keyboard[i][0].callbackData) == Some(Suggestions(image.value.width, image.value.height, ops)[i]))))
  {
    if download == Saved && image.Some? && image.value.width > 0 && image.value.height > 0 {
      var gs := Suggestions(image.value.width, image.value.height, ops);
      SuggestionsShape(image.value.width, image.value.height, ops);
      forall i | 0 <= i < |gs|
        ensures |GridKeyboard(gs, EmojiWord)[i]| == 1 &&
          ParseGridCallback(GridKeyboard(gs, EmojiWord)[i][0].callbackData) == Some(gs[i])
      {
        GridKeyboardRoundTrip(gs, EmojiWord, i);
      }
    }
  }

  /**
   * Pressing button `i` of a grid keyboard stores grid `i`, overwriting an
   * earlier choice; nothing else changes and the padding levels are offered.
   */
  lemma GridButtonStoresItsGrid(s: Session, uid: int, gridSizes: seq<Grid>, i: nat)
    requires i < |gridSizes|
    ensures var step := GridStep(s, uid, GridKeyboard(gridSizes, EmojiWord)[i][0].callbackData);
      step.session.UserDataOf(uid) == s.UserDataOf(uid)[GridSizeKey := GridValue(gridSizes[i])] &&
      step.session.fs == s.fs && (forall u :: u != uid ==> step.session.UserDataOf(u) == s.UserDataOf(u)) &&
      step.events == [] && step.outcome == AskPadding(BuildPaddingSelection())
  {
    GridKeyboardRoundTrip(gridSizes, EmojiWord, i);
  }

  /** Data that does not split into exactly two pieces at `x` raises and stores nothing. */
  lemma GridRejectsMalformed(s: Session, uid: int, data: string)
    requires Occurrences(RemoveAll(data, GridPrefix), 'x') != 1
    ensures GridStep(s, uid, data) == Step(s, [], GridRaised)
  {
  }

  /**
   * A padding press that does not parse raises, and one that finds no photo
   * or no grid stored shows the processing error: neither crops, publishes
   * or changes anything.
   */
  lemma PaddingRejects(s: Session, uid: int, data: string, image: Option<ImageSize>, timestamp: int, published: bool,
                       emojiSize: int, botUsername: string)
    requires WellFormed(uid, s.UserDataOf(uid))
    ensures var step := PaddingStep(s, uid, data, image, timestamp, published, emojiSize, botUsername);
      (ParsePaddingCallback(data).None? ==> step == Step(s, [], PaddingRaised)) &&
      (ParsePaddingCallback(data).Some? && (ImagePathKey !in s.UserDataOf(uid) || GridSizeKey !in s.UserDataOf(uid)) ==>
        step == Step(s, [], ErrorProcessing))
  {
    GuardIsPresence(uid, s.UserDataOf(uid));
  }

  /**
   * Past the guard, the pack is published only after the crop, from the
   * files that crop wrote, in order; and the handler shows the link
   * `https://t.me/addemoji/emoji_{uid}_{ts}_by_{bot}` exactly when the image
   * is there and readable, the grid has no zero side and the publish
   * succeeds.
   */
  lemma PaddingPublishesAfterCrop(s: Session, uid: int, data: string, image: Option<ImageSize>, timestamp: int,
                                  published: bool, emojiSize: int, botUsername: string)
    requires WellFormed(uid, s.UserDataOf(uid)) && Ready(s, uid, data)
    ensures var step := PaddingStep(s, uid, data, image, timestamp, published, emojiSize, botUsername);
      var grid := s.UserDataOf(uid)[GridSizeKey].grid;
      (forall i :: 0 <= i < |step.events| && step.events[i].Sent? ==> (0 < i && step.events[i - 1].Cropped? &&
        step.events[i].request == PackRequest(uid, step.events[i - 1].files, None, timestamp, botUsername))) &&
      (step.outcome.PackReady? <==> ImagePath(uid) in s.fs && image.Some? && grid.cols != 0 && grid.rows != 0 && published) &&
      (step.outcome.PackReady? ==> (step.outcome.link == PackLink(PackName(uid, timestamp, botUsername)) &&
        step.events == [Cropped(Paths(Tiles(Cut(PathJoin(TempDir(uid), EmojiDirName), image.value.width, image.value.height,
                                                 grid, ParsePaddingCallback(data).value, emojiSize)))),
                        Sent(PackRequest(uid, step.events[0].files, None, timestamp, botUsername)),
                        RemovedTree(TempDir(uid))]))
  {
    GuardIsPresence(uid, s.UserDataOf(uid));
    PhotoPaths(uid);
    var ud := s.UserDataOf(uid);
    var padding := ParsePaddingCallback(data).value;
    var crop := StoredCrop(s, uid, padding, image, emojiSize);
    var step := PaddingStep(s, uid, data, image, timestamp, published, emojiSize, botUsername);
    assert ud[TempDirKey].s == TempDir(uid) && ud[ImagePathKey].s == ImagePath(uid);
    if crop.files.Some? {
      var files := crop.files.value;
      var request := PackRequest(uid, files, None, timestamp, botUsername);
      assert files == Paths(Tiles(Cut(PathJoin(TempDir(uid), EmojiDirName), image.value.width, image.value.height,
                                      ud[GridSizeKey].grid, padding, emojiSize)));
      assert step.events[..2] == [Cropped(files), Sent(request)];
      assert |step.events| == 2 || step.events == [Cropped(files), Sent(request), RemovedTree(TempDir(uid))];
    } else {
      assert step.events == [] || step.events == [RemovedTree(TempDir(uid))];
    }
  }

  /**
   * Past the guard, whatever the crop and the publish do, the handler ends
   * with the temp directory gone and every other path as it was, and the
   * user data untouched; it always answers with a message, never raises.
   */
  lemma PaddingCleansUp(s: Session, uid: int, data: string, image: Option<ImageSize>, timestamp: int, published: bool,
                        emojiSize: int, botUsername: string)
    requires WellFormed(uid, s.UserDataOf(uid)) && Ready(s, uid, data)
    ensures var step := PaddingStep(s, uid, data, image, timestamp, published, emojiSize, botUsername);
      step.session == Session(s.userData, RemoveTree(s.fs, TempDir(uid))) &&
      (step.outcome.ErrorCreatingPack? || step.outcome.PackReady?)
  {
    GuardIsPresence(uid, s.UserDataOf(uid));
    PhotoPaths(uid);
    var ud := s.UserDataOf(uid);
    CropStaysInTempDir(s.fs, uid, ud[GridSizeKey].grid, ParsePaddingCallback(data).value, image, emojiSize);
  }

  /** The padding handler changes no user data and no path outside the user's own temp directory. */
  lemma PaddingStaysInTempDir(s: Session, uid: int, data: string, image: Option<ImageSize>, timestamp: int, published: bool,
                              emojiSize: int, botUsername: string)
    requires WellFormed(uid, s.UserDataOf(uid))
    ensures var t := PaddingStep(s, uid, data, image, timestamp, published, emojiSize, botUsername).session;
      t.userData == s.userData && forall p :: !Within(p, TempDir(uid)) ==> (p in t.fs <==> p in s.fs)
  {
    GuardIsPresence(uid, s.UserDataOf(uid));
    if Ready(s, uid, data) {
      PaddingCleansUp(s, uid, data, image, timestamp, published, emojiSize, botUsername);
    }
  }

  /** A path below `temp_{u}` is not below the temp directory of any other user. */
  lemma OtherTempDirs(uid: int, u: int)
    requires u != uid
    ensures forall p :: Within(p, TempDir(u)) ==> !Within(p, TempDir(uid))
  {
    forall p | Within(p, TempDir(u))
      ensures !Within(p, TempDir(uid))
    {
      TempDirsSeparate(uid, u, p);
    }
  }

  /**
   * One user's photo never touches another user's data or files: every
   * path below `temp_{u}` is where it was.
   */
  lemma PhotoIsolatesUsers(s: Session, uid: int, u: int, download: Download, image: Option<ImageSize>, ops: FloatOracle)
    requires u != uid
    ensures var t := PhotoStep(s, uid, download, image, ops).session;
      t.UserDataOf(u) == s.UserDataOf(u) && forall p :: Within(p, TempDir(u)) ==> (p in t.fs <==> p in s.fs)
  {
    OtherTempDirs(uid, u);
    PhotoPaths(uid);
    var t := SavePhoto(s, uid, download);
    assert PhotoStep(s, uid, download, image, ops).session == t;
    assert t.UserDataOf(u) == s.UserDataOf(u);
    assert t.fs - s.fs <= {TempDir(uid), ImagePath(uid)} && s.fs <= t.fs;
  }

  /** One user's grid press changes only that user's data. */
  lemma GridIsolatesUsers(s: Session, uid: int, u: int, data: string)
    requires u != uid
    ensures GridStep(s, uid, data).session.UserDataOf(u) == s.UserDataOf(u) && GridStep(s, uid, data).session.fs == s.fs
  {
  }

  /**
   * One user's padding press never touches another user's data or files:
   * every path below `temp_{u}` is where it was.
   */
  lemma PaddingIsolatesUsers(s: Session, uid: int, u: int, data: string, image: Option<ImageSize>, timestamp: int,
                             published: bool, emojiSize: int, botUsername: string)
    requires u != uid && WellFormed(uid, s.UserDataOf(uid))
    ensures var t := PaddingStep(s, uid, data, image, timestamp, published, emojiSize, botUsername).session;
      t.UserDataOf(u) == s.UserDataOf(u) && forall p :: Within(p, TempDir(u)) ==> (p in t.fs <==> p in s.fs)
  {
    OtherTempDirs(uid, u);
    PaddingStaysInTempDir(s, uid, data, image, timestamp, published, emojiSize, botUsername);
  }

  /** The photo handler keeps every user's data as the handlers write it. */
  lemma PhotoKeepsWellFormed(s: Session, uid: int, download: Download, image: Option<ImageSize>, ops: FloatOracle)
    requires s.Valid()
    ensures PhotoStep(s, uid, download, image, ops).session.Valid()
  {
  }

  /** The grid handler keeps every user's data as the handlers write it. */
  lemma GridKeepsWellFormed(s: Session, uid: int, data: string)
    requires s.Valid()
    ensures GridStep(s, uid, data).session.Valid()
  {
  }

  /**
   * The padding handler keeps every user's data as the handlers write it;
   * in a valid session its precondition holds for every user.
   */
  lemma PaddingKeepsWellFormed(s: Session, uid: int, data: string, image: Option<ImageSize>, timestamp: int,
                               published: bool, emojiSize: int, botUsername: string)
    requires s.Valid()
    ensures WellFormed(uid, s.UserDataOf(uid)) &&
      PaddingStep(s, uid, data, image, timestamp, published, emojiSize, botUsername).session.Valid()
  {
  }

  /**
   * The user data is not cleared after a published pack, so the guard
   * passes again, but the image went with the temp directory: another
   * padding press can only show the pack error.
   */
  lemma SecondRunAfterSuccessFails(s: Session, uid: int, data: string, image: Option<ImageSize>, timestamp: int,
                                   published: bool, data2: string, image2: Option<ImageSize>, timestamp2: int,
                                   published2: bool, emojiSize: int, botUsername: string)
    requires WellFormed(uid, s.UserDataOf(uid))
    requires PaddingStep(s, uid, data, image, timestamp, published, emojiSize, botUsername).outcome.PackReady?
    requires ParsePaddingCallback(data2).Some?
    ensures var t := PaddingStep(s, uid, data, image, timestamp, published, emojiSize, botUsername).session;
      WellFormed(uid, t.UserDataOf(uid)) &&
      PaddingStep(t, uid, data2, image2, timestamp2, published2, emojiSize, botUsername).outcome == ErrorCreatingPack
  {
    GuardIsPresence(uid, s.UserDataOf(uid));
    PaddingCleansUp(s, uid, data, image, timestamp, published, emojiSize, botUsername);
    PhotoPaths(uid);
  }

  /**
   * As written, every press that passes the guard raises and leaves the temp
   * directory behind, even when the pack was created; the intended handler
   * answers and removes it.
   */
  lemma AsWrittenRaisesAndLeaks(s: Session, uid: int, data: string, image: Option<ImageSize>, timestamp: int,
                                published: bool, emojiSize: int, botUsername: string)
    requires WellFormed(uid, s.UserDataOf(uid)) && Ready(s, uid, data)
    ensures var step := PaddingStepAsWritten(s, uid, data, image, timestamp, emojiSize, botUsername);
      step.outcome == PaddingRaised && TempDir(uid) in step.session.fs
    ensures var step := PaddingStep(s, uid, data, image, timestamp, published, emojiSize, botUsername);
      step.outcome != PaddingRaised && TempDir(uid) !in step.session.fs
  {
    GuardIsPresence(uid, s.UserDataOf(uid));
    PaddingCleansUp(s, uid, data, image, timestamp, published, emojiSize, botUsername);
  }
  /**
   * A saved photo with positive sides, then button `i` of the grid keyboard:
   * the user's data then holds both paths and grid `i`, and the image exists.
   */
  lemma PhotoThenGrid(s: Session, uid: int, image: ImageSize, ops: FloatOracle, i: nat)
    requires image.width > 0 && image.height > 0 && i < |Suggestions(image.width, image.height, ops)|
    ensures var photo := PhotoStep(s, uid, Saved, Some(image), ops);
      photo.outcome.AskGrid? && i < |photo.outcome.keyboard| && |photo.outcome.keyboard[i]| == 1 &&
      var t := GridStep(photo.session, uid, photo.outcome.keyboard[i][0].callbackData).session;
      ImagePathKey in t.UserDataOf(uid) && GridSizeKey in t.UserDataOf(uid) &&
      t.UserDataOf(uid)[GridSizeKey] == GridValue(Suggestions(image.width, image.height, ops)[i]) &&
      WellFormed(uid, t.UserDataOf(uid)) && t.fs == s.fs + {TempDir(uid), ImagePath(uid)}
  {
    var gs := Suggestions(image.width, image.height, ops);
    var photo := PhotoStep(s, uid, Saved, Some(image), ops);
    assert photo.outcome == AskGrid(GridKeyboard(gs, EmojiWord));
    GridKeyboardRoundTrip(gs, EmojiWord, i);
    PhotoStoresPaths(s, uid, Some(image), ops);
  }

  /**
   * The whole conversation: a saved photo with positive sides, then button
   * `i` of the grid keyboard, then button `k` of the padding keyboard, with
   * a successful publish, shows the pack's link and leaves the files as they
   * were before the photo came, less the temp directory.
   */
  lemma ConversationPublishes(s: Session, uid: int, image: ImageSize, ops: FloatOracle, i: nat, k: nat, timestamp: int,
                              emojiSize: int, botUsername: string)
    requires image.width > 0 && image.height > 0 && i < |Suggestions(image.width, image.height, ops)| && k < 5
    ensures var photo := PhotoStep(s, uid, Saved, Some(image), ops);
      photo.outcome.AskGrid? && i < |photo.outcome.keyboard| && |photo.outcome.keyboard[i]| == 1 &&
      var grid := GridStep(photo.session, uid, photo.outcome.keyboard[i][0].callbackData);
      WellFormed(uid, grid.session.UserDataOf(uid)) &&
      var padding := PaddingStep(grid.session, uid, BuildPaddingSelection()[k][0].callbackData, Some(image), timestamp, true,
                                 emojiSize, botUsername);
      padding.outcome == PackReady(PackLink(PackName(uid, timestamp, botUsername))) &&
      padding.session.fs == RemoveTree(s.fs, TempDir(uid))
  {
    var gs := Suggestions(image.width, image.height, ops);
    PhotoThenGrid(s, uid, image, ops, i);
    var photo := PhotoStep(s, uid, Saved, Some(image), ops);
    var t := GridStep(photo.session, uid, photo.outcome.keyboard[i][0].callbackData).session;
    var data := BuildPaddingSelection()[k][0].callbackData;
    assert Ready(t, uid, data) && ImagePath(uid) in t.fs && gs[i].cols != 0 && gs[i].rows != 0 by {
      SuggestionsShape(image.width, image.height, ops);
      assert gs[i] in gs;
      PaddingKeyboardLevels(k);
      PhotoPaths(uid);
    }
    PublishFromReady(t, s.fs, uid, data, image, timestamp, emojiSize, botUsername);
  }

  /** The last step of `ConversationPublishes`, once the photo and the grid are stored over the files `fs`. */
  lemma PublishFromReady(t: Session, fs: set<string>, uid: int, data: string, image: ImageSize, timestamp: int,
                         emojiSize: int, botUsername: string)
    requires WellFormed(uid, t.UserDataOf(uid)) && Ready(t, uid, data)
    requires t.fs == fs + {TempDir(uid), ImagePath(uid)}
    requires t.UserDataOf(uid)[GridSizeKey].grid.cols != 0 && t.UserDataOf(uid)[GridSizeKey].grid.rows != 0
    ensures var padding := PaddingStep(t, uid, data, Some(image), timestamp, true, emojiSize, botUsername);
      padding.outcome == PackReady(PackLink(PackName(uid, timestamp, botUsername))) &&
      padding.session.fs == RemoveTree(fs, TempDir(uid))
  {
    PhotoPaths(uid);
    PaddingSucceeds(t, uid, data, Some(image), timestamp, emojiSize, botUsername);
    PaddingCleansUp(t, uid, data, Some(image), timestamp, true, emojiSize, botUsername);
    RemoveTreeAbsorbs(fs, {TempDir(uid), ImagePath(uid)}, TempDir(uid));
  }

  /** With the image there and readable, a grid without a zero side and a successful publish, the link is shown. */
  lemma PaddingSucceeds(s: Session, uid: int, data: string, image: Option<ImageSize>, timestamp: int, emojiSize: int,
                        botUsername: string)
    requires WellFormed(uid, s.UserDataOf(uid)) && Ready(s, uid, data)
    requires ImagePath(uid) in s.fs && image.Some?
    requires s.UserDataOf(uid)[GridSizeKey].grid.cols != 0 && s.UserDataOf(uid)[GridSizeKey].grid.rows != 0
    ensures PaddingStep(s, uid, data, image, timestamp, true, emojiSize, botUsername).outcome ==
      PackReady(PackLink(PackName(uid, timestamp, botUsername)))
  {
    GuardIsPresence(uid, s.UserDataOf(uid));
  }
}
