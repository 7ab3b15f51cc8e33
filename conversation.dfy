/**
 * What the photo, grid and padding handlers of both bots share: the per-user
 * `context.user_data` dictionaries, the files the handlers create and remove
 * (paths only: a set of the paths that exist), the per-user temp directory
 * `temp_{uid}` with `input.jpg` and `emojis/` in it, and the crop step as
 * the handlers see it from outside (directories made, image opened, tiles
 * written).
 */
module Conversation {
  import opened Results
  import opened Text
  import opened GridCut
  import opened Callbacks
  import opened Keyboards
  import opened Sticker

  /** A value in `context.user_data`: a path string or a `(cols, rows)` tuple. */
  datatype Value = Str(s: string) | GridValue(grid: Grid)

  type UserData = map<string, Value>

  const ImagePathKey: string := "image_path"
  const TempDirKey: string := "temp_dir"
  const GridSizeKey: string := "grid_size"

  /** `TEMP_DIR_PREFIX` of the settings; bot.py writes the same prefix literally. */
  const TempDirPrefix: string := "temp_"
  const InputFileName: string := "input.jpg"
  const EmojiDirName: string := "emojis"

  function TempDir(uid: int): string {
    TempDirPrefix + IntToString(uid)
  }

  function ImagePath(uid: int): string {
    PathJoin(TempDir(uid), InputFileName)
  }

  /** Python truthiness of `user_data.get(key)`: present, and not an empty string. */
  predicate Truthy(ud: UserData, key: string) {
    key in ud && (ud[key].Str? ==> |ud[key].s| > 0)
  }

  /**
   * Only the handlers write these keys: the photo handler writes the two
   * path keys together, with the values it computes from the user id, and
   * the grid handler writes a grid.
   */
  predicate WellFormed(uid: int, ud: UserData) {
    (ImagePathKey in ud <==> TempDirKey in ud) &&
    (ImagePathKey in ud ==> ud[ImagePathKey] == Str(ImagePath(uid)) && ud[TempDirKey] == Str(TempDir(uid))) &&
    (GridSizeKey in ud ==> ud[GridSizeKey].GridValue?)
  }

  /** The bot's state as the handlers see it: every user's data and the files that exist. */
  datatype Session = Session(userData: map<int, UserData>, fs: set<string>) {
    predicate Valid() {
      forall u | u in userData :: WellFormed(u, userData[u])
    }

    /** A user never seen before has an empty dictionary. */
    function UserDataOf(uid: int): UserData {
      if uid in userData then userData[uid] else map[]
    }
  }

  /** `p` is `dir` or lies below it. */
  predicate Within(p: string, dir: string) {
    p == dir || StartsWith(p, dir + "/")
  }

  /** `shutil.rmtree(dir, ignore_errors=True)`: everything at or below `dir` goes, nothing else. */
  function RemoveTree(fs: set<string>, dir: string): set<string> {
    set p | p in fs && !Within(p, dir)
  }

  /** What the image library reports for the downloaded file. */
  datatype ImageSize = ImageSize(width: nat, height: nat)

  /**
   * How fetching the photo went: `get_file` raised (nothing made yet), the
   * download raised (the temp directory exists already), or the file is saved.
   */
  datatype Download = NoFile | Interrupted | Saved

  /** The externally visible effects of the padding handler, in order. */
  datatype Event = Cropped(files: seq<string>) | Sent(request: StickerSetRequest) | RemovedTree(dir: string)

  /** A handler's effect: the session after it, what it did, and what it answered. */
  datatype Step<O> = Step(session: Session, events: seq<Event>, outcome: O)

  /** An exception escaping the handler is `...Raised`; the others are the keyboards or messages shown. */
  datatype PhotoOutcome = PhotoRaised | AskGrid(keyboard: Keyboard)
  datatype GridOutcome = GridRaised | AskPadding(keyboard: Keyboard)
  datatype PaddingOutcome = PaddingRaised | ErrorProcessing | ErrorCreatingPack | PackReady(link: string)

  /**
   * The photo handler up to the dimension read: make the temp directory,
   * download `input.jpg` into it, and store both paths for the user.
   */
  function SavePhoto(s: Session, uid: int, download: Download): (t: Session)
    ensures download == Saved ==>
      t.UserDataOf(uid) == s.UserDataOf(uid)[ImagePathKey := Str(ImagePath(uid))][TempDirKey := Str(TempDir(uid))]
    ensures download != Saved ==> t.userData == s.userData
  {
    match download
    case NoFile => s
    case Interrupted => Session(s.userData, s.fs + {TempDir(uid)})
    case Saved =>
      var ud := s.UserDataOf(uid)[ImagePathKey := Str(ImagePath(uid))][TempDirKey := Str(TempDir(uid))];
      Session(s.userData[uid := ud], s.fs + {TempDir(uid), ImagePath(uid)})
  }

  /** The grid handler's write: `user_data["grid_size"] = (cols, rows)`. */
  function StoreGrid(s: Session, uid: int, g: Grid): (t: Session)
    ensures t.fs == s.fs
    ensures t.UserDataOf(uid) == s.UserDataOf(uid)[GridSizeKey := GridValue(g)]
  {
    Session(s.userData[uid := s.UserDataOf(uid)[GridSizeKey := GridValue(g)]], s.fs)
  }

  /** The result of one crop: the files after it and, if it got through, the tile paths. */
  datatype CropOutcome = CropOutcome(fs: set<string>, files: Option<seq<string>>)

  /**
   * The crop as the padding handler sees it: `makedirs(temp_dir/emojis)`
   * (which makes `temp_dir` too), then opening the image, which fails when
   * the file is gone or cannot be decoded, then the grid cut, which fails on
   * a zero side; otherwise one file is written per tile.
   */
  function CropAttempt(fs: set<string>, imagePath: string, tempDir: string, grid: Grid, padding: int,
                       image: Option<ImageSize>, size: int): (r: CropOutcome)
    ensures tempDir in r.fs && fs <= r.fs
    ensures r.files.Some? <==> imagePath in fs + {tempDir, PathJoin(tempDir, EmojiDirName)} && image.Some? && grid.cols != 0 && grid.rows != 0
  {
    var outputDir := PathJoin(tempDir, EmojiDirName);
    var made := fs + {tempDir, outputDir};
    if imagePath !in made || image.None? || grid.cols == 0 || grid.rows == 0 then CropOutcome(made, None)
    else
      var files := Paths(Tiles(Cut(outputDir, image.value.width, image.value.height, grid, padding, size)));
      CropOutcome(made + (set f | f in files), Some(files))
  }

  /** The crop a padding handler asks for, from the paths and grid stored for the user. */
  function StoredCrop(s: Session, uid: int, padding: int, image: Option<ImageSize>, emojiSize: int): CropOutcome
    requires WellFormed(uid, s.UserDataOf(uid)) && ImagePathKey in s.UserDataOf(uid) && GridSizeKey in s.UserDataOf(uid)
  {
    var ud := s.UserDataOf(uid);
    CropAttempt(s.fs, ud[ImagePathKey].s, ud[TempDirKey].s, ud[GridSizeKey].grid, padding, image, emojiSize)
  }

  /** The guard of a padding handler passes: the level parses and a photo and a grid are stored. */
  predicate Ready(s: Session, uid: int, data: string) {
    ParsePaddingCallback(data).Some? && ImagePathKey in s.UserDataOf(uid) && GridSizeKey in s.UserDataOf(uid) &&
    s.UserDataOf(uid)[GridSizeKey].GridValue?
  }

  /** `context` of the handlers: the bot, every user's `user_data`, the files, and a log of effects. */
  class BotContext {
    const botUsername: string
    var userData: map<int, UserData>
    var fs: set<string>
    ghost var trace: seq<Event>

    function State(): Session
      reads this
    {
      Session(userData, fs)
    }

    constructor(botUsername: string, fs: set<string>)
      ensures this.botUsername == botUsername && userData == map[] && this.fs == fs && trace == []
      ensures State().Valid()
    {
      this.botUsername := botUsername;
      this.userData := map[];
      this.fs := fs;
      trace := [];
    }
  }

  lemma NumeralEndsInDigit(s: string)
    requires IsNumeral(s)
    ensures IsDigit(s[|s| - 1])
  {
    if |s| > 1 {
      assert IsDigit(s[|s| - 1]);
    }
  }

  lemma TempDirShape(uid: int)
    ensures |TempDir(uid)| > 0 && '/' !in TempDir(uid) && TempDir(uid)[|TempDir(uid)| - 1] != '/'
  {
    var n := IntToString(uid);
    NumeralLacks(n, '/');
    NumeralEndsInDigit(n);
    assert TempDir(uid)[|TempDir(uid)| - 1] == n[|n| - 1];
  }

  /** Joining a relative name onto the temp directory lands below it. */
  lemma JoinedWithin(dir: string, name: string)
    requires |dir| > 0 && dir[|dir| - 1] != '/' && |name| > 0 && name[0] != '/'
    ensures PathJoin(dir, name) == dir + "/" + name && Within(PathJoin(dir, name), dir)
  {
    var p := dir + "/" + name;
    assert p[..|dir + "/"|] == dir + "/";
  }

  lemma WithinTransitive(p: string, q: string, dir: string)
    requires Within(p, q) && Within(q, dir)
    ensures Within(p, dir)
  {
    if p != q && q != dir {
      assert p[..|q|] == q;
      assert p[..|dir + "/"|] == q[..|dir + "/"|];
    }
  }

  /** `input.jpg`, `emojis/` and every tile written into it lie below the temp directory. */
  lemma PathsWithinTempDir(uid: int, width: nat, height: nat, grid: Grid, padding: int, size: int)
    ensures Within(ImagePath(uid), TempDir(uid))
    ensures Within(PathJoin(TempDir(uid), EmojiDirName), TempDir(uid))
    ensures forall f :: f in Paths(Tiles(Cut(PathJoin(TempDir(uid), EmojiDirName), width, height, grid, padding, size))) ==>
      Within(f, TempDir(uid))
  {
    var d := TempDir(uid);
    TempDirShape(uid);
    JoinedWithin(d, InputFileName);
    JoinedWithin(d, EmojiDirName);
    var out := PathJoin(d, EmojiDirName);
    var c := Cut(out, width, height, grid, padding, size);
    var files := Paths(Tiles(c));
    forall f | f in files
      ensures Within(f, d)
    {
      var i :| 0 <= i < |files| && files[i] == f;
      TilesAreCells(c, i);
      var t := Tiles(c)[i];
      assert f == PathJoin(out, FileName(t.row, t.col));
      assert out == d + "/" + EmojiDirName;
      JoinedWithin(out, FileName(t.row, t.col));
      WithinTransitive(f, out, d);
    }
  }

  /** Where the first `/` of a path below a slash-free directory is. */
  lemma WithinSlashFree(p: string, dir: string)
    requires Within(p, dir) && '/' !in dir
    ensures IndexOf(p, '/') == |dir| && p[..|dir|] == dir
  {
    if p == dir {
      IndexOfAbsent(dir, '/');
    } else {
      assert p == dir + ['/'] + p[|dir| + 1..];
      IndexOfBefore(dir, '/', p[|dir| + 1..]);
    }
  }

  /** Different users' temp directories share no path, so one user's cleanup never touches another's files. */
  lemma TempDirsSeparate(u1: int, u2: int, p: string)
    requires u1 != u2
    ensures !(Within(p, TempDir(u1)) && Within(p, TempDir(u2)))
  {
    if Within(p, TempDir(u1)) && Within(p, TempDir(u2)) {
      TempDirShape(u1);
      TempDirShape(u2);
      WithinSlashFree(p, TempDir(u1));
      WithinSlashFree(p, TempDir(u2));
      var n1, n2 := IntToString(u1), IntToString(u2);
      assert n1 == TempDir(u1)[|TempDirPrefix|..];
      assert n2 == TempDir(u2)[|TempDirPrefix|..];
      IntToStringInjective(u1, u2);
    }
  }
  /**
   * Everything a crop in `temp_{uid}` creates lies in that directory: removing
   * the directory afterwards leaves exactly what removing it before would.
   */
  lemma CropStaysInTempDir(fs: set<string>, uid: int, grid: Grid, padding: int, image: Option<ImageSize>, size: int)
    ensures var r := CropAttempt(fs, ImagePath(uid), TempDir(uid), grid, padding, image, size);
      RemoveTree(r.fs, TempDir(uid)) == RemoveTree(fs, TempDir(uid)) &&
      forall p :: p in r.fs && !Within(p, TempDir(uid)) ==> p in fs
  {
    var d := TempDir(uid);
    var out := PathJoin(d, EmojiDirName);
    var r := CropAttempt(fs, ImagePath(uid), d, grid, padding, image, size);
    var w := if image.Some? then image.value.width else 0;
    var h := if image.Some? then image.value.height else 0;
    PathsWithinTempDir(uid, w, h, grid, padding, size);
    forall p | p in r.fs && !Within(p, d)
      ensures p in fs
    {
    }
  }

  /** The image and the tile directory are distinct paths below the temp directory. */
  lemma PhotoPaths(uid: int)
    ensures ImagePath(uid) == TempDir(uid) + "/" + InputFileName
    ensures PathJoin(TempDir(uid), EmojiDirName) == TempDir(uid) + "/" + EmojiDirName
    ensures ImagePath(uid) != TempDir(uid) && ImagePath(uid) != PathJoin(TempDir(uid), EmojiDirName)
    ensures Within(ImagePath(uid), TempDir(uid))
  {
    TempDirShape(uid);
    JoinedWithin(TempDir(uid), InputFileName);
    JoinedWithin(TempDir(uid), EmojiDirName);
  }
  /**
   * A saved photo stores `temp_{uid}` and `temp_{uid}/input.jpg` for the
   * user; no other key and no other user changes, and both paths now exist.
   */
  lemma SavePhotoStoresPaths(s: Session, uid: int)
    ensures var t := SavePhoto(s, uid, Saved);
      TempDirKey in t.UserDataOf(uid) && ImagePathKey in t.UserDataOf(uid) &&
      t.UserDataOf(uid)[TempDirKey] == Str("temp_" + IntToString(uid)) &&
      t.UserDataOf(uid)[ImagePathKey] == Str("temp_" + IntToString(uid) + "/input.jpg") &&
      (forall k :: k != TempDirKey && k != ImagePathKey ==>
        (k in t.UserDataOf(uid) <==> k in s.UserDataOf(uid)) &&
        (k in s.UserDataOf(uid) ==> t.UserDataOf(uid)[k] == s.UserDataOf(uid)[k])) &&
      (forall u :: u != uid ==> t.UserDataOf(u) == s.UserDataOf(u)) &&
      t.fs == s.fs + {TempDir(uid), ImagePath(uid)}
  {
    assert TempDir(uid) == "temp_" + IntToString(uid) by {
      TempDirShape(uid);
    }
    assert ImagePath(uid) == "temp_" + IntToString(uid) + "/input.jpg" by {
      PhotoPaths(uid);
    }
  }

  /** For data the handlers wrote, the truthiness guard of the padding handler is plain presence. */
  lemma GuardIsPresence(uid: int, ud: UserData)
    requires WellFormed(uid, ud)
    ensures Truthy(ud, ImagePathKey) <==> ImagePathKey in ud
    ensures Truthy(ud, GridSizeKey) <==> GridSizeKey in ud
  {
    PhotoPaths(uid);
  }
  /** Paths added below `dir` are gone again once `dir` is removed. */
  lemma RemoveTreeAbsorbs(fs: set<string>, extra: set<string>, dir: string)
    requires forall p :: p in extra ==> Within(p, dir)
    ensures RemoveTree(fs + extra, dir) == RemoveTree(fs, dir)
  {
  }
}
