/**
 * `StickerPackCreator` of src/emoji/sticker.py and the pack naming shared
 * with bot.py: the pack name `emoji_{uid}_{ts}_by_{bot}`, the default title
 * `Emoji Pack {ts}`, one static sticker per tile file, in order, and the
 * link `https://t.me/addemoji/{name}`. The clock is a parameter (`ts` is
 * `int(time.time())`); the call to Telegram is a parameter saying whether
 * the pack was created.
 */
module Sticker {
  import opened Results
  import opened Text

  /** U+1F600 GRINNING FACE, the emoji every sticker of the pack stands for. */
  const Glyph: string := "\U{1F600}"

  const StickerType: string := "custom_emoji"
  const LinkPrefix: string := "https://t.me/addemoji/"

  datatype StickerFormat = Static

  /** An `InputSticker`; the bytes read from the tile file are identified by its path. */
  datatype InputSticker = InputSticker(file: string, emojiList: seq<string>, format: StickerFormat)

  /** The arguments of one `create_new_sticker_set` call. */
  datatype StickerSetRequest = StickerSetRequest(
    userId: int, name: string, title: string, stickers: seq<InputSticker>, stickerType: string)

  /** The Telegram call was refused or failed (the API raises). */
  datatype PublishError = PublishFailed

  function PackName(userId: int, timestamp: int, botUsername: string): string {
    "emoji_" + (IntToString(userId) + ("_" + (IntToString(timestamp) + ("_by_" + botUsername))))
  }

  function DefaultTitle(timestamp: int): string {
    "Emoji Pack " + IntToString(timestamp)
  }

  /** `if not pack_title: pack_title = f"Emoji Pack {timestamp}"`: None and "" are falsy. */
  function PackTitle(packTitle: Option<string>, timestamp: int): (title: string)
    ensures packTitle.None? || packTitle == Some("") ==> title == DefaultTitle(timestamp)
    ensures packTitle.Some? && packTitle != Some("") ==> title == packTitle.value
  {
    if packTitle.None? || packTitle.value == "" then DefaultTitle(timestamp) else packTitle.value
  }

  function PackLink(packName: string): string {
    LinkPrefix + packName
  }

  /** The stickers built from `files`, each standing for `glyph`. */
  function StickersOf(files: seq<string>, glyph: string): (stickers: seq<InputSticker>)
    ensures |stickers| == |files|
  {
    seq(|files|, i requires 0 <= i < |files| => InputSticker(files[i], [glyph], Static))
  }

  /** The sticker loop: one sticker per file, in the files' order. */
  method BuildStickers(files: seq<string>, glyph: string) returns (stickers: seq<InputSticker>)
    ensures stickers == StickersOf(files, glyph)
    ensures forall i :: 0 <= i < |files| ==>
      stickers[i].file == files[i] && stickers[i].emojiList == [glyph] && stickers[i].format == Static
  {
    stickers := [];
    for i := 0 to |files|
      invariant stickers == StickersOf(files[..i], glyph)
    {
      var sticker := InputSticker(files[i], [glyph], Static);
      stickers := stickers + [sticker];
    }
    assert files[..|files|] == files;
  }

  /** The request `create_emoji_pack` sends: name and default title from the same timestamp. */
  function PackRequest(userId: int, files: seq<string>, packTitle: Option<string>, timestamp: int, botUsername: string): StickerSetRequest {
    StickerSetRequest(userId, PackName(userId, timestamp, botUsername), PackTitle(packTitle, timestamp),
                      StickersOf(files, Glyph), StickerType)
  }

  class StickerPackCreator {
    const botUsername: string

    constructor(botUsername: string)
      ensures this.botUsername == botUsername
    {
      this.botUsername := botUsername;
    }

    /**
     * `create_emoji_pack`: builds the request from one clock reading, sends
     * it, and on success returns the pack's link; a failed call raises.
     */
    method CreateEmojiPack(userId: int, emojiFiles: seq<string>, packTitle: Option<string>, timestamp: int, published: bool)
      returns (request: StickerSetRequest, link: Result<string, PublishError>)
      ensures request == PackRequest(userId, emojiFiles, packTitle, timestamp, botUsername)
      ensures request.name == PackName(userId, timestamp, botUsername) && request.stickerType == StickerType
      ensures |request.stickers| == |emojiFiles|
      ensures link == if published then Success(PackLink(request.name)) else Failure(PublishFailed)
    {
      var packName := PackName(userId, timestamp, botUsername);
      var title := PackTitle(packTitle, timestamp);
      var stickers := BuildStickers(emojiFiles, Glyph);
      request := StickerSetRequest(userId, packName, title, stickers, StickerType);
      if !published {
        return request, Failure(PublishFailed);
      }
      link := Success(PackLink(packName));
    }
  }

  /** The glyph is the single code point U+1F600. */
  lemma GlyphIsOneCodePoint()
    ensures |Glyph| == 1 && Glyph[0] as int == 0x1F600
  {
  }

  /** For one bot, the pack name determines both the user and the timestamp. */
  lemma PackNameInjective(u1: int, t1: int, u2: int, t2: int, botUsername: string)
    requires PackName(u1, t1, botUsername) == PackName(u2, t2, botUsername)
    ensures u1 == u2 && t1 == t2
  {
    var e := "emoji_";
    var r1 := IntToString(t1) + ("_by_" + botUsername);
    var r2 := IntToString(t2) + ("_by_" + botUsername);
    var x1, x2 := IntToString(u1) + ("_" + r1), IntToString(u2) + ("_" + r2);
    assert x1 == (e + x1)[|e|..] && x2 == (e + x2)[|e|..];
    NumeralThenUnderscore(u1, u2, r1, r2);
    assert "_by_" + botUsername == "_" + ("by_" + botUsername);
    NumeralThenUnderscore(t1, t2, "by_" + botUsername, "by_" + botUsername);
  }

  /** Two packs of one user and bot made at different seconds get different links. */
  lemma DistinctTimestampsDistinctLinks(userId: int, t1: int, t2: int, botUsername: string)
    requires t1 != t2
    ensures PackLink(PackName(userId, t1, botUsername)) != PackLink(PackName(userId, t2, botUsername))
  {
    var n1, n2 := PackName(userId, t1, botUsername), PackName(userId, t2, botUsername);
    if PackLink(n1) == PackLink(n2) {
      assert n1 == PackLink(n1)[|LinkPrefix|..];
      assert n2 == PackLink(n2)[|LinkPrefix|..];
      PackNameInjective(userId, t1, userId, t2, botUsername);
    }
  }

  /** Default titles agree exactly when the timestamps do. */
  lemma DefaultTitleInjective(t1: int, t2: int)
    ensures DefaultTitle(t1) == DefaultTitle(t2) <==> t1 == t2
  {
    if DefaultTitle(t1) == DefaultTitle(t2) {
      var p := "Emoji Pack ";
      assert IntToString(t1) == DefaultTitle(t1)[|p|..];
      assert IntToString(t2) == DefaultTitle(t2)[|p|..];
      IntToStringInjective(t1, t2);
    }
  }
}
