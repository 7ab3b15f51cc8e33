# worksquadbot emoji cropper, modelled in Dafny

worksquadbot is a Telegram bot that makes a custom emoji pack from a photo.
The user sends a photo, and the bot offers grid sizes as inline buttons. The
user picks a grid, then a padding level. The bot then:

1. cuts the image into `cols x rows` tiles, each cell inset by `2 * padding`
   pixels;
2. publishes the tiles as a sticker set named `emoji_{uid}_{ts}_by_{bot}`;
3. answers with the link `https://t.me/addemoji/{name}`.

The repository has two versions of this:

- the newer one: `src/bot/commands/emoji_cropper.py` with
  `src/emoji/processor.py`, `src/emoji/sticker.py` and `src/bot/keyboards.py`;
- the older one: `bot.py` with `image_processor.py`.

This project models both versions:

- the grid-cut geometry (`GridCut`), and the two crop loops that produce it;
- the two grid-suggestion heuristics (`Processor`, `LegacyImageProcessor`);
- the button callback data and how the handlers parse it back (`Callbacks`,
  `Keyboards`);
- the pack request, name, title and link (`Sticker`);
- the photo → grid → padding conversation over each user's `user_data` and
  the user's temp directory (`Conversation`, `EmojiCropper`, `LegacyBot`).

Around them sit `Results` (Option and Result) and `Text`. `Text` writes out
the Python built-ins the handlers rely on: `str(int)`, `int(str)`,
`str.replace(p, "")`, `str.split(c)` and `os.path.join`.

How the model is built:

- **Handlers.** Each handler is a method on a `BotContext` object. It holds
  every user's `user_data` as a map and the set of paths that exist. A ghost
  trace records what the handler did: crop, send, remove. Each handler method
  is proved equal to a step function over a `Session` value. The properties
  of the conversation are lemmas about the step functions.
- **Loops.** The crop loops and the suggestion loops are methods with loop
  invariants. They are proved against the functions `Tiles`, `Suggestions`
  and `StickersOf`.
- **External calls.** The image library and Telegram come in as parameters:
  - the image size, or `None` when the image cannot be opened;
  - how the download went;
  - whether `create_new_sticker_set` succeeded;
  - the clock readings.
- **Literal text.** The step functions of `LegacyBot` take the button word
  and the sticker emoji as parameters. Its handler methods pass the two
  literals as bot.py writes them (see Findings). Separate lemmas state what
  the intended text gives and how the two differ.

Two behaviours of the code are worth knowing before reading the lemmas:

- The two versions clean up differently. The newer handler removes the temp
  directory on both paths: after a publish (emoji_cropper.py:153) and in its
  `except` branch (emoji_cropper.py:164-165). `bot.py` removes it only after
  a successful publish (bot.py:147-148). See
  `LegacyBot.CleanUpOnlyOnSuccess` and `LegacyBot.FailedPublishLeaksTempDir`.
- Some failures are not caught. Callback data that does not parse, a failed
  download and an unreadable photo raise out of the handler. The model calls
  these outcomes `...Raised`.

## Model

| member | source | states |
|---|---|---|
| GridCut.TileAt | src/emoji/processor.py:58-66 | The tile of cell (row, col) is clamped into the image: `0 <= left`, `0 <= top`, `right <= W`, `bottom <= H`. It keeps its row, column and tile size. |
| GridCut.CutGrid | src/emoji/processor.py:46-82 | The nested crop loop fails exactly when a grid side is 0. This is the ZeroDivisionError at `W // cols` or `H // rows`. Otherwise it returns exactly `Tiles(c)`, the row-major list of clamped cell rectangles. |
| GridCut.TilesCount | src/emoji/processor.py:54-79 | The crop yields exactly `cols * rows` tiles. A grid with a negative side yields none, because Python's `range` of a negative number is empty. |
| GridCut.TilesRowMajor | src/emoji/processor.py:56-57 | The tile at index `row * cols + col` is cell (row, col), named `emoji_{row}_{col}.png`. This is the crop loop's order and naming (lines 56-57 and 75-79). |
| GridCut.TilesAreCells | src/emoji/processor.py:56-79 | Conversely, every tile is the tile of the cell it names, and it sits at index `row * cols + col`. |
| GridCut.TilesWithinImage | src/emoji/processor.py:63-66 | After clamping, every tile has `0 <= left`, `0 <= top`, `right <= W` and `bottom <= H`. With a large padding a box can still be inverted, with `left > W` or `right < 0`. |
| GridCut.TilesDistinctPaths | src/emoji/processor.py:75-78 | No two tiles share a file name or an output path, so no saved tile overwrites another. |
| GridCut.FileNameInjective | src/emoji/processor.py:75 | `emoji_{row}_{col}.png` determines both row and column. |
| GridCut.TileSpanX | src/emoji/processor.py:58-65 | For padding >= 0 the horizontal clamps never change a value. Also `right <= cols * (W // cols)`. |
| GridCut.TileSpanY | src/emoji/processor.py:59-66 | For padding >= 0 the vertical clamps never change a value. Also `bottom <= rows * (H // rows)`. |
| GridCut.TileIsInsetCell | src/emoji/processor.py:49-66 | For padding >= 0 the rectangle is exactly the cell inset by `2 * padding` pixels on every side. |
| GridCut.TileNonEmptyIff | src/emoji/processor.py:58-68 | For padding >= 0 a region is non-empty exactly when the cell is wider and taller than twice the padding in pixels. Otherwise the rectangle handed to the crop has `right <= left` or `bottom <= top`. |
| GridCut.RemainderDropped | src/emoji/processor.py:49-61 | For padding >= 0 no tile reaches column `cols * (W // cols)` or row `rows * (H // rows)`, so the pixels of the division remainder are dropped. |
| GridCut.CellsDisjoint | src/emoji/processor.py:58-61 | For padding >= 0 the rectangles of two different cells do not overlap. |
| GridCut.TilesDisjoint | src/emoji/processor.py:56-79 | For padding >= 0 two different tiles of one crop never overlap. |
| GridCut.GridRowsLength | src/emoji/processor.py:56-57 | `m` complete rows of the loop hold `m * cols` tiles. |
| GridCut.GridRowsPrefix | src/emoji/processor.py:56-57 | The tiles of the first `k` rows are a prefix of those of the first `m >= k` rows. The loop only appends. |
| GridCut.GridRowsAt | src/emoji/processor.py:56-79 | Cell (row, col) is appended `col` places after the tiles of the rows above it. |
| GridCut.GridRowsEntry | src/emoji/processor.py:56-79 | Entry `i` of the first `m` rows is the cell with `row * cols + col == i`. |
| GridCut.RowTiles | src/emoji/processor.py:57 | One pass of the inner loop produces `n` tiles. |
| GridCut.Paths | src/emoji/processor.py:79 | The returned list holds each tile's output path, in tile order. |
| Processor.ImageProcessor.constructor | src/emoji/processor.py:11-18 | The processor keeps the emoji size it is given (default 100). |
| Processor.ImageProcessor.CropToGrid | src/emoji/processor.py:20-82 | `crop_to_grid` raises exactly on a zero grid side. Otherwise it returns the paths of `Tiles`, row-major, each tile resampled to the processor's `emoji_size`. |
| Processor.ImageProcessor.SuggestGridSizes | src/emoji/processor.py:84-122 | Raises exactly when width or height is 0 (the `width / height` and `target / aspect` divisions). Otherwise it returns `Suggestions`: one to four distinct grids, with every computed candidate present. |
| Processor.Candidate | src/emoji/processor.py:102-111 | Each candidate has `cols >= 2` and `rows >= 2`. Its rows are `max(2, round(sqrt(target / aspect)))`: the aspect correction rewrites only the columns. |
| Processor.RoundDiv | src/emoji/processor.py:105 | Python's `round(target / rows)`: the nearest integer, ties to the even one. |
| Processor.CandidatesFor | src/emoji/processor.py:101-113 | One candidate per target count, in the order of the targets. |
| Processor.SuggestionsShape | src/emoji/processor.py:97-122 | Whatever the float steps compute, the suggestions are the de-duplicated candidates, between 1 and 4 of them, so `[:5]` never cuts. They are pairwise distinct, every candidate is among them and nothing else is, and both sides are at least 2. |
| Processor.DedupElements | src/emoji/processor.py:115-120 | The `seen`-set loop keeps exactly the elements of its input. |
| Processor.DedupDistinct | src/emoji/processor.py:115-120 | The `seen`-set loop's output has no duplicates. |
| Processor.DedupLength | src/emoji/processor.py:115-120 | The output is no longer than the input, and not empty when the input is not. |
| Processor.DedupKeepsOrder | src/emoji/processor.py:115-120 | First-seen order: an earlier output element first occurs earlier in the input. |
| Processor.FirstIndex | src/emoji/processor.py:118 | The first position of an element present in a list: the element is there and not before it. |
| LegacyImageProcessor.CropImageToEmojis | image_processor.py:8-69 | `crop_image_to_emojis` raises exactly on a zero grid side. Otherwise it returns the tile paths, row-major, named `emoji_{row}_{col}.png`, each resampled to 100 pixels (line 57). Clamping, inset and count are the `GridCut` lemmas on this same `Tiles`. |
| LegacyImageProcessor.SuggestGridSize | image_processor.py:72-90 | `suggest_grid_size` raises exactly when the height is 0. Aspect above 1.3 (`10w > 13h`) gives `[(4,3),(3,2),(4,4),(3,3)]`. Below 0.7 (`10w < 7h`) it gives `[(3,4),(2,3),(3,3),(4,4)]`. Otherwise it gives `[(3,3),(4,4),(2,2),(5,5)]`. |
| LegacyImageProcessor.AspectThresholds | image_processor.py:83-87 | Comparing the exact ratio `w / h` with 1.3 and 0.7 is comparing `10w` with `13h` and `7h`. |
| LegacyImageProcessor.SuggestionsAreFourGrids | image_processor.py:85-90 | Always exactly four distinct grids, each with both sides at least 2. |
| LegacyImageProcessor.SuggestionsFollowOrientation | image_processor.py:86-90 | A wide image gets only grids with `cols >= rows`, a tall one only `cols <= rows`, and any other only square grids. |
| LegacyImageProcessor.SuggestionsScaleFree | image_processor.py:83 | Only the aspect ratio matters: scaling both sides by `k > 0` leaves the suggestions unchanged. |
| Callbacks.ParseGridCallback | src/bot/commands/emoji_cropper.py:89-90 | Data without exactly one `x` left after deleting every `grid_` fails the two-name unpacking. |
| Callbacks.GridCallbackRoundTrip | src/bot/keyboards.py:24 | For every pair of ints, parsing `grid_{c}x{r}` the way the handlers do (`emoji_cropper.py:89-90`, `bot.py:71-72`) gives `(c, r)` back. |
| Callbacks.PaddingCallbackRoundTrip | src/bot/commands/emoji_cropper.py:116 | For every int `n`, `int("padding_{n}".replace("padding_", ""))` is `n`. |
| Callbacks.ParseGridCallbackAccepts | src/bot/commands/emoji_cropper.py:89-90 | Exactly which data the grid parser accepts, both directions: after deleting every `grid_`, one `x` with an integer on each side. |
| Callbacks.SplitJoin | src/bot/commands/emoji_cropper.py:90 | The pieces of `split("x")`, joined back with `x`, give the input. |
| Callbacks.SplitPiecesLackSeparator | src/bot/commands/emoji_cropper.py:90 | No piece of `split("x")` holds an `x`. |
| Keyboards.BuildGridSelection | src/bot/keyboards.py:11-27 | `build_grid_selection` makes one single-button row per grid, in input order. Each button is labelled `{c}x{r} ({c*r} эмодзи)` and carries `grid_{c}x{r}`, which the grid handler parses back to that very grid. |
| Keyboards.GridKeyboard | src/bot/keyboards.py:21-22 | One keyboard row per grid. |
| Keyboards.GridKeyboardRoundTrip | src/bot/keyboards.py:24 | Button `i` of a grid keyboard is alone on its row, and its data parses back to grid `i`. |
| Keyboards.BuildPaddingSelection | src/bot/keyboards.py:30-45 | The padding keyboard has exactly five rows. |
| Keyboards.PaddingKeyboardLevels | src/bot/keyboards.py:37-43 | Row `i` holds the single button `padding_{i+1}`, in ascending order, and the padding handler reads `i + 1` back from it. |
| Sticker.StickerPackCreator.constructor | src/emoji/sticker.py:10-18 | The creator keeps the bot's username. |
| Sticker.StickerPackCreator.CreateEmojiPack | src/emoji/sticker.py:21-62 | The request is the `PackRequest` for one clock reading: name `emoji_{uid}_{ts}_by_{bot}`, type `custom_emoji`, one sticker per file. On success the link is `https://t.me/addemoji/` plus the name; a failed call raises. |
| Sticker.PackTitle | src/emoji/sticker.py:41-42 | A falsy title (None or "") becomes `Emoji Pack {ts}`; any other title is passed unchanged. |
| Sticker.StickersOf | src/emoji/sticker.py:44-52 | One sticker per input file. |
| Sticker.BuildStickers | src/emoji/sticker.py:44-52 | The sticker loop: sticker `i` is built from file `i` and carries emoji list `["😀"]` in STATIC format. |
| Sticker.GlyphIsOneCodePoint | src/emoji/sticker.py:49 | The sticker emoji is the single code point U+1F600. |
| Sticker.PackNameInjective | src/emoji/sticker.py:39 | For one bot, the pack name determines both the user id and the timestamp. |
| Sticker.DistinctTimestampsDistinctLinks | src/emoji/sticker.py:38-62 | Two packs of one user and bot made at different seconds get different names and links. |
| Sticker.DefaultTitleInjective | src/emoji/sticker.py:41-42 | Default titles agree exactly when their timestamps do. |
| Text.ParseIntOfIntToString | src/bot/commands/emoji_cropper.py:90 | `int(str(n)) == n` for every int. |
| Text.DigitsValueOfNatToString | src/bot/keyboards.py:24 | The value of the digits `str(n)` prints is `n`. |
| Text.IntToStringInjective | src/bot/keyboards.py:24 | Different ints print differently. |
| Text.IntToString | src/bot/keyboards.py:24 | `str(n)` is an optional `-` followed by digits. |
| Text.NatToString | src/bot/keyboards.py:24 | The decimal digits of a natural number are at least one digit. |
| Text.Split | src/bot/commands/emoji_cropper.py:90 | `str.split` never yields an empty list. |
| Text.SplitLength | src/bot/commands/emoji_cropper.py:90 | `split("x")` yields one more piece than there are `x`s. |
| Text.SplitAround | src/bot/commands/emoji_cropper.py:90 | Splitting `a + "x" + b` with no `x` in `a` or `b` gives `[a, b]`. |
| Text.RemoveAllPrefix | src/bot/commands/emoji_cropper.py:89 | `replace("grid_", "")` deletes a leading `grid_`. |
| Text.RemoveAllAbsent | src/bot/commands/emoji_cropper.py:89 | `replace` leaves alone a string that lacks the pattern's first character. |
| Text.PathJoinInjective | src/emoji/processor.py:76 | `os.path.join(folder, a)` with relative names determines the name. |
| Text.FloorDiv | src/emoji/processor.py:49-50 | Python's `//`: the quotient rounded toward negative infinity. |
| Text.NumeralThenUnderscore | src/emoji/sticker.py:39 | A numeral followed by `_` splits off cleanly, which is what makes `emoji_{uid}_{ts}_...` readable. |
| Conversation.SavePhoto | src/bot/commands/emoji_cropper.py:52-62 | A saved photo stores `image_path` and `temp_dir` for the user. A failed `get_file` or download leaves `user_data` untouched. |
| Conversation.StoreGrid | src/bot/commands/emoji_cropper.py:92 | `user_data["grid_size"] = (cols, rows)` overwrites only that key and touches no file. |
| Conversation.CropAttempt | src/bot/commands/emoji_cropper.py:130-136 | `makedirs` leaves the temp directory in place and removes nothing. Tiles are written exactly when the image is there and readable and the grid has no zero side. |
| Conversation.SavePhotoStoresPaths | src/bot/commands/emoji_cropper.py:55-62 | After a saved photo: `temp_dir = "temp_" + str(uid)` and `image_path = temp_dir + "/input.jpg"`; no other key and no other user changes; exactly those two paths are added. |
| Conversation.PhotoPaths | src/bot/commands/emoji_cropper.py:58 | `input.jpg` and `emojis` lie below the temp directory and are distinct from it and from each other. |
| Conversation.PathsWithinTempDir | src/bot/commands/emoji_cropper.py:130 | The image, the tile directory and every tile path lie below `temp_{uid}`. |
| Conversation.TempDirsSeparate | src/bot/commands/emoji_cropper.py:55 | Two users' temp directories share no path. |
| Conversation.CropStaysInTempDir | src/bot/commands/emoji_cropper.py:130-136 | A crop creates nothing outside the temp directory, so removing the directory afterwards leaves what removing it before would. |
| Conversation.GuardIsPresence | src/bot/commands/emoji_cropper.py:125 | For data the handlers wrote, the truthiness test `not image_path or not grid_size` is plain absence. |
| Conversation.RemoveTreeAbsorbs | src/bot/commands/emoji_cropper.py:153 | `rmtree` removes whatever was added below the directory. |
| Conversation.TempDirShape | src/bot/commands/emoji_cropper.py:55 | `temp_{uid}` is non-empty, slash-free and ends in a digit. |
| Conversation.BotContext.constructor | src/bot/commands/emoji_cropper.py:43 | A fresh context holds no user data, so every user's data is well formed. |
| EmojiCropper.EmojiCropperCommand.constructor | src/bot/commands/emoji_cropper.py:17-20 | The command's processor uses the configured emoji size. |
| EmojiCropper.EmojiCropperCommand.HandlePhoto | src/bot/commands/emoji_cropper.py:43-72 | The new state is `PhotoStep`'s, and so is the answer (the grid keyboard, or an exception). |
| EmojiCropper.EmojiCropperCommand.HandleGridSelection | src/bot/commands/emoji_cropper.py:74-99 | The new state and the answer are `GridStep`'s. |
| EmojiCropper.EmojiCropperCommand.HandlePaddingSelection | src/bot/commands/emoji_cropper.py:101-165 | The new state, the effects in order, and the answer are `PaddingStep`'s (the handler as intended; see Findings). |
| EmojiCropper.EmojiCropperCommand.CropAndPublish | src/bot/commands/emoji_cropper.py:129-165 | The `try` block and its `except` branch have the effects of `PublishStep`. (intended handler; see Findings) |
| EmojiCropper.EmojiCropperCommand.Publish | src/bot/commands/emoji_cropper.py:140-165 | Once the tiles are written: send the request, then show the link and remove the temp directory, or on failure run the `except` branch. (intended handler; see Findings) |
| EmojiCropper.EmojiCropperCommand.Crop | src/bot/commands/emoji_cropper.py:130-136 | `crop_to_grid` from the handler: the files and tiles of `CropAttempt`, with the crop logged when it got through. |
| EmojiCropper.EmojiCropperCommand.CleanUpAfterFailure | src/bot/commands/emoji_cropper.py:155-165 | The `except` branch shows the pack error and removes the temp directory when it is set and exists. |
| EmojiCropper.PhotoStoresPaths | src/bot/commands/emoji_cropper.py:55-62 | After `handle_photo` with a saved photo: `temp_dir = "temp_{uid}"` and `image_path = "temp_{uid}/input.jpg"`; other keys and other users are unchanged, and both paths exist. |
| EmojiCropper.PhotoOffersSuggestions | src/bot/commands/emoji_cropper.py:64-72 | The grid keyboard is offered exactly when the photo is saved and has two positive sides. It then has one to four single-button rows, and button `i` parses back to suggestion `i`. |
| EmojiCropper.GridButtonStoresItsGrid | src/bot/commands/emoji_cropper.py:89-94 | Pressing button `i` of a grid keyboard stores grid `i` in `grid_size`, overwriting any earlier one. Other keys, other users and the files are unchanged, and the padding keyboard is offered. |
| EmojiCropper.GridRejectsMalformed | src/bot/commands/emoji_cropper.py:90 | Data that does not split into exactly two pieces at `x` raises, and nothing is stored. |
| EmojiCropper.PaddingRejects | src/bot/commands/emoji_cropper.py:116-127 | Unparsable padding data raises. With no photo or no grid stored, the answer is ERROR_PROCESSING. In both cases nothing is cropped, published or changed. |
| EmojiCropper.PaddingPublishesAfterCrop | src/bot/commands/emoji_cropper.py:129-153 | Every publish comes right after a crop and sends exactly that crop's files. The link `https://t.me/addemoji/emoji_{uid}_{ts}_by_{bot}` is shown exactly when the image is there and readable, the grid has no zero side and the publish succeeds. The effects are then crop, send, remove — in that order. (intended handler; see Findings) |
| EmojiCropper.PaddingCleansUp | src/bot/commands/emoji_cropper.py:129-165 | Past the guard, on success and on every failure, the temp directory is gone, every other path is as it was, `user_data` is unchanged, and the answer is a message. (intended handler; see Findings) |
| EmojiCropper.PaddingStaysInTempDir | src/bot/commands/emoji_cropper.py:101-165 | The padding handler changes no user data and no path outside the user's temp directory. |
| EmojiCropper.OtherTempDirs | src/bot/commands/emoji_cropper.py:55 | A path below another user's temp directory is never below this user's. |
| EmojiCropper.PhotoIsolatesUsers | src/bot/commands/emoji_cropper.py:43-62 | One user's photo changes neither another user's data nor anything below that user's temp directory. |
| EmojiCropper.GridIsolatesUsers | src/bot/commands/emoji_cropper.py:92 | One user's grid press changes only that user's data. |
| EmojiCropper.PaddingIsolatesUsers | src/bot/commands/emoji_cropper.py:129-165 | One user's padding press changes neither another user's data nor anything below that user's temp directory. |
| EmojiCropper.PhotoKeepsWellFormed | src/bot/commands/emoji_cropper.py:61-62 | The photo handler writes both path keys together, with the values computed from the user id. |
| EmojiCropper.GridKeepsWellFormed | src/bot/commands/emoji_cropper.py:92 | The grid handler writes a grid under `grid_size`. |
| EmojiCropper.PaddingKeepsWellFormed | src/bot/commands/emoji_cropper.py:120-165 | The padding handler writes no key, and its precondition holds in any session the handlers built. |
| EmojiCropper.SecondRunAfterSuccessFails | src/bot/commands/emoji_cropper.py:120-165 | `user_data` is not cleared after a published pack, so the guard passes again. The image went with the temp directory, so another padding press can only show the pack error. (intended handler; see Findings) |
| EmojiCropper.AsWrittenRaisesAndLeaks | src/bot/commands/emoji_cropper.py:146-165 | As written, every press past the guard raises at `build_back_to_menu` and leaves the temp directory behind, even when the pack was created. The intended handler answers and removes it. |
| EmojiCropper.PhotoThenGrid | src/bot/commands/emoji_cropper.py:43-99 | A saved photo with positive sides, then button `i`: the user's data holds both paths and grid `i`, it is well formed, and the image exists. |
| EmojiCropper.ConversationPublishes | src/bot/commands/emoji_cropper.py:43-165 | The whole conversation: photo, grid button `i`, padding button `k` and a successful publish. It shows the pack's link and leaves the files as they were before the photo, less the temp directory. (intended handler; see Findings) |
| EmojiCropper.PublishFromReady | src/bot/commands/emoji_cropper.py:129-153 | With the photo and grid stored over files `fs` and a successful publish, the link is shown and the files end as `fs` less the temp directory. (intended handler; see Findings) |
| EmojiCropper.PaddingSucceeds | src/bot/commands/emoji_cropper.py:129-151 | With the image there and readable, a grid without a zero side and a successful publish, the answer is the pack's link. (intended handler; see Findings) |
| LegacyBot.HandlePhoto | bot.py:31-63 | The new state and the answer are `LegacyBot.PhotoStep`'s with the button word as bot.py:54 writes it. |
| LegacyBot.BuildGridButtons | bot.py:52-56 | The button loop of `handle_photo` gives the grid keyboard: one single-button row per grid, in order, labelled with the given word. |
| LegacyBot.HandleGridSelection | bot.py:66-88 | The new state and the answer are `LegacyBot.GridStep`'s. |
| LegacyBot.HandlePaddingSelection | bot.py:91-152 | The new state, the effects in order, and the answer are `LegacyBot.PaddingStep`'s with the sticker emoji as bot.py:128 writes it. |
| LegacyBot.CropAndPublish | bot.py:109-152 | The `try` block and its `except` branch, with no cleanup on failure, have the effects of `LegacyBot.PublishStep`, with the sticker emoji as bot.py:128 writes it. |
| LegacyBot.CropImage | bot.py:110-116 | `crop_image_to_emojis` from the handler: the files and tiles of `CropAttempt` with 100-pixel tiles. |
| LegacyBot.PhotoStoresPaths | bot.py:37-44 | Whatever the button word, after a saved photo: `temp_dir = "temp_{uid}"` and `image_path = "temp_{uid}/input.jpg"`, and no other user's data changes. |
| LegacyBot.PhotoOffersTable | bot.py:46-63 | The keyboard is offered exactly when the photo is saved, the image is readable and its height is not zero. It has four single-button rows, each labelled `{c}x{r} ({c*r} эмодзи)` and carrying data that parses back to the table's grid. This is the handler with the intended word. |
| LegacyBot.AsWrittenLabelsMangled | bot.py:52-58 | The handler as written stores the same data and offers a keyboard in the same cases as with the intended word, with the same button data. Every one of its four labels differs from the intended label. |
| LegacyBot.GridStoredBeforeLabels | bot.py:71-82 | A parsed grid is stored even when a padding label is then missing and the handler raises. The levels are offered exactly when all five labels exist. |
| LegacyBot.PaddingKeyboard | bot.py:76-82 | The legacy padding keyboard has five rows. |
| LegacyBot.PaddingKeyboardParses | bot.py:77-81 | Button `k` carries `padding_{k+1}`, which parses back to level `k + 1` (bot.py:96). |
| LegacyBot.PaddingRejects | bot.py:96-107 | Unparsable data raises. With no photo or grid stored, the answer is ERROR_PROCESSING and nothing is cropped or changed. |
| LegacyBot.PackFromTwoReadings | bot.py:120-141 | The name and link use the first clock reading and the title the second. The title carries the name's timestamp exactly when the two readings agree. There is one sticker per tile, in order, each the single emoji U+1F600. This is the handler with the intended emoji. |
| LegacyBot.AsWrittenStickersMangled | bot.py:123-131 | The padding handler as written ends in the same state, with the same answer, as with the intended emoji. Every sticker it sends stands for the mangled literal, which is not the intended emoji. |
| LegacyBot.CleanUpOnlyOnSuccess | bot.py:109-152 | Past the guard, a published pack removes the temp directory and nothing else. A failed crop or publish removes nothing, so the temp directory stays. |
| LegacyBot.FailedPublishLeaksTempDir | bot.py:150-152 | A failed publish answers with the pack error and leaves the user's temp directory behind. |
| LegacyBot.MojibakeIsMacRoman | bot.py:54 | The button word at bot.py:54 and the sticker emoji at bot.py:128 are the UTF-8 bytes of `эмодзи` and of U+1F600 read as Mac Roman: twelve and four characters, unequal to the intended text. |
| LegacyBot.Utf8 | bot.py:54 | The UTF-8 encoding of one code point takes one to four bytes. |
| LegacyBot.MacRoman | bot.py:54 | Reading bytes as Mac Roman gives one character per byte. |
| LegacyBot.Utf8OfEmojiWord | bot.py:54 | The UTF-8 bytes of `эмодзи`. |
| LegacyBot.Utf8OfGlyph | bot.py:128 | The UTF-8 bytes of U+1F600. |
| LegacyBot.MacRomanOfWordBytes | bot.py:54 | Those bytes read as Mac Roman are the literal at bot.py:54. |
| LegacyBot.MacRomanOfGlyphBytes | bot.py:128 | Those bytes read as Mac Roman are the literal at bot.py:128. |

## Left out

- GridCut.CutGrid, Processor.ImageProcessor.CropToGrid, LegacyImageProcessor.CropImageToEmojis, Conversation.CropAttempt, EmojiCropper.PaddingPublishesAfterCrop, EmojiCropper.PublishFromReady, EmojiCropper.PaddingSucceeds: a box with `right < left` or `bottom < top` is recorded as a tile, although the image library may raise on it. Such a box arises when a cell is at most `4 * padding` pixels wide or tall (`GridCut.TileNonEmptyIff`). The "exactly" in these rows holds for boxes the library accepts. When the library raises there, the crop fails; the newer handler then takes its `except` branch and the legacy handler shows the pack error.
- Bitmap work is not modelled: PIL `open`, `convert("RGBA")`, `crop`, `resize(LANCZOS)` and `save(PNG)`. A tile records the rectangle passed to `crop`, the side it is resized to and the path it is saved to. What the library does with an empty or inverted rectangle is not modelled; the tile is recorded either way.
- `get_image_dimensions` and `Image.open(...).size` are not modelled. The handlers take the image's size as a parameter, with `None` for an image that cannot be opened.
- Processor.SuggestGridSizes: the three floating-point steps of `suggest_grid_sizes` are left to a `FloatOracle` parameter, so the exact grids for a given image are not computed. These steps are `round((target / aspect) ** 0.5)`, the `> 0.4` deviation test and `round(aspect * rows)`. The flooring, the rows-only correction, the de-duplication and the cut are proved for every oracle.
- LegacyImageProcessor.SuggestGridSize: the float quotient `width / height` and the float literals 1.3 and 0.7 are modelled as exact rationals. The model compares `10w` with `13h` and `7h`. Python's float comparison agrees with this unless a side is around 10^14 pixels; images that large are not modelled.
- Processor.RoundDiv: the rounding of the exact quotient stands for the rounding of the float quotient. The two agree for these operands (targets up to 72).
- Telegram I/O is not modelled: downloading the photo, `query.answer`, the `reply_text`/`edit_message_text` texts (including the PROCESSING and CREATING_PACK edits), and async scheduling. A handler's answer is the outcome it ends with. An exception raised by a message edit is not modelled.
- `create_new_sticker_set` is a boolean parameter saying whether it succeeded. Reading each tile file's bytes is identified with the file's path. A tile file that vanished before being read is not modelled.
- `time.time()` is not modelled; each reading is a parameter.
- `print` in the `except` branches is not modelled.
- `os.makedirs` modelling: only the temp and `emojis` directories are created. Permission errors, and a failing save after some tiles were written, are not modelled: a crop either writes all its tiles or none.
- File contents are not modelled; the files are the set of paths that exist.
- The padding handlers (EmojiCropper.PaddingStep, LegacyBot.PaddingStep) are modelled for data the handlers themselves wrote. They require `image_path`/`temp_dir` to be stored together with the values the photo handler computes. The KeepsWellFormed lemmas show the handlers maintain this; data put in `user_data` by other code is not modelled.
- `int()` modelling: `int()` is modelled as an optional sign and ASCII digits. Surrounding whitespace, `_` separators and non-ASCII digits are not accepted.
- User-visible strings are not modelled: the strings modules (`strings.py`, `src/config/strings`) and `src/config/__init__.py` are not part of this model. The legacy padding labels (`PADDING_OPTIONS`) are a map parameter.
- `EMOJI_SIZE` from src/config/settings.py:13 is a constructor parameter. `TEMP_DIR_PREFIX` is the constant `temp_`.
- `EmojiCropperCommand.start`, `bot.py`'s `start`, `help_command` and `main` are not modelled. Neither are src/bot/handlers.py, main.py, src/config/logger.py, src/bot/commands/start.py, src/bot/commands/help.py and src/bot/commands/__init__.py. These pieces are command routing, logging and fixed texts.
- Handlers run one at a time; concurrent updates are not modelled.

## Findings

| source | as written | input that shows it | evidently intended | confidence | as-written member | corrected member |
|---|---|---|---|---|---|---|
| src/bot/commands/emoji_cropper.py:146 | The success path and the `except` branch (line 157) call `build_back_to_menu`, which `KeyboardBuilder` does not define. Every press past the guard then raises before either `rmtree`, even after the pack was created. | A stored photo and grid, then a press of `padding_1`. | Show the link, or the pack error, and remove the temp directory. | not executed | EmojiCropper.PaddingStepAsWritten, EmojiCropper.AsWrittenRaisesAndLeaks | EmojiCropper.PaddingStep, EmojiCropper.PaddingCleansUp |
| bot.py:54 | The word on the grid buttons is `—ç–º–æ–¥–∑–∏`: the UTF-8 bytes of `эмодзи` read as Mac Roman. | Any photo with a positive height: every button label ends in that text. | `эмодзи`, as in src/bot/keyboards.py:23. | not executed | LegacyBot.HandlePhoto, LegacyBot.MojibakeIsMacRoman, LegacyBot.AsWrittenLabelsMangled | LegacyBot.PhotoOffersTable |
| bot.py:128 | Each sticker's emoji list is `["üòÄ"]`: the UTF-8 bytes of U+1F600 read as Mac Roman. That is four characters and not an emoji. | Any successful padding press. | `["😀"]`, as in src/emoji/sticker.py:49. | not executed | LegacyBot.HandlePaddingSelection, LegacyBot.MojibakeIsMacRoman, LegacyBot.AsWrittenStickersMangled | LegacyBot.PackFromTwoReadings |
