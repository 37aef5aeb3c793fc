/** Songs as the daemon reports them, and the label the window shows for one.

    A song is the tag dictionary the protocol library hands back: tag name to
    value. Two songs are equal exactly when their dictionaries are, which is
    the equality the search grouping relies on. */
module Songs {
  import opened Wrappers

  datatype Song = Song(tags: map<string, string>)
  {
    /** `song.get(key)`: the tag's value, or None when the song lacks it. */
    function Get(key: string): (r: Option<string>)
      ensures r.Some? <==> key in tags
      ensures r.Some? ==> r.value == tags[key]
    {
      if key in tags then Some(tags[key]) else None
    }

    /** `song.get(key, default)`. */
    function GetOr(key: string, default: string): (r: string)
      ensures key in tags ==> r == tags[key]
      ensures key !in tags ==> r == default
    {
      if key in tags then tags[key] else default
    }

    /** Python truthiness of the tag dictionary: a non-empty dictionary. */
    predicate IsPresent() {
      |tags| != 0
    }

    /** The song carries the daemon's queue id (every playlist entry does). */
    predicate HasId() {
      "id" in tags
    }
  }

  /** The separator between artist and title (an en dash between spaces). */
  const Dash: string := " \U{2013} "

  /** The position of the last `c` in `s`, if any. */
  function LastIndexOf(s: string, c: char): (r: Option<nat>)
    ensures r.None? <==> c !in s
    ensures r.Some? ==> r.value < |s| && s[r.value] == c
    ensures r.Some? ==> c !in s[r.value + 1..]
  {
    if s == [] then None
    else if s[|s| - 1] == c then Some(|s| - 1)
    else
      var r := LastIndexOf(s[..|s| - 1], c);
      assert s == s[..|s| - 1] + [s[|s| - 1]];
      if r.Some? then
        assert s[r.value + 1..] == s[..|s| - 1][r.value + 1..] + [s[|s| - 1]];
        r
      else r
  }

  /** `path.split('/')[-1]`: what follows the last '/', or the whole path.
      It is a '/'-free suffix of the path, and the whole path when the path
      has no '/'. */
  function Basename(path: string): (r: string)
    ensures '/' !in r
    ensures |r| <= |path| && r == path[|path| - |r|..]
    ensures '/' !in path ==> r == path
  {
    match LastIndexOf(path, '/')
    case None => path
    case Some(i) => path[i + 1..]
  }

  /** `base.rsplit('.', 1)[0]`: what precedes the last '.', or the whole
      name. It is a prefix of the name; when the name has a '.', the name is
      the stem, a '.', and an extension free of '.'. */
  function Stem(base: string): (r: string)
    ensures r <= base
    ensures '.' !in base ==> r == base
    ensures '.' in base ==> exists ext :: base == r + "." + ext && '.' !in ext
  {
    match LastIndexOf(base, '.')
    case None => base
    case Some(i) =>
      assert base == base[..i] + "." + base[i + 1..];
      base[..i]
  }

  /** Python's `s.split(c)`: the pieces between occurrences of `c`, built
      from the end of the string. An independent account of the pieces. */
  function SplitOn(s: string, c: char): (r: seq<string>)
    ensures |r| >= 1
  {
    if s == [] then [[]]
    else
      var pieces := SplitOn(s[..|s| - 1], c);
      if s[|s| - 1] == c then pieces + [[]]
      else pieces[..|pieces| - 1] + [pieces[|pieces| - 1] + [s[|s| - 1]]]
  }

  /** `song_label`: title (with the artist in front when there is one), else
      the name tag, else the stem of the file name, else "?". */
  function Label(song: Song): (r: string)
    ensures "title" in song.tags && "artist" in song.tags && song.tags["artist"] != "" ==>
      r == song.tags["artist"] + Dash + song.tags["title"]
    ensures "title" in song.tags && ("artist" !in song.tags || song.tags["artist"] == "") ==>
      r == song.tags["title"]
    ensures "title" !in song.tags && "name" in song.tags ==> r == song.tags["name"]
    ensures "title" !in song.tags && "name" !in song.tags && "file" in song.tags ==>
      r == Stem(Basename(song.tags["file"]))
    ensures "title" !in song.tags && "name" !in song.tags && "file" !in song.tags ==> r == "?"
  {
    match song.Get("title")
    case Some(title) =>
      var artist := song.Get("artist");
      if artist.Some? && artist.value != "" then artist.value + Dash + title else title
    case None =>
      match song.Get("name")
      case Some(name) => name
      case None =>
        match song.Get("file")
        case Some(file) => Stem(Basename(file))
        case None => "?"
  }

  /** The label reads only the title, artist, name and file tags. */
  lemma {:induction false} LabelReadsFourTags(a: Song, b: Song)
    requires forall k :: k in {"title", "artist", "name", "file"} ==> a.Get(k) == b.Get(k)
    ensures Label(a) == Label(b)
  {
    assert a.Get("title") == b.Get("title");
    assert a.Get("artist") == b.Get("artist");
    assert a.Get("name") == b.Get("name");
    assert a.Get("file") == b.Get("file");
  }

  /** The last piece of `path.split('/')` is the basename. */
  lemma {:induction false} SplitLastIsBasename(path: string)
    ensures var pieces := SplitOn(path, '/'); pieces[|pieces| - 1] == Basename(path)
  {
    if path != [] {
      SplitLastIsBasename(path[..|path| - 1]);
      BasenameSnoc(path);
    }
  }

  /** How the basename grows by one character. */
  lemma BasenameSnoc(path: string)
    requires path != []
    ensures var init, c := path[..|path| - 1], path[|path| - 1];
      Basename(path) == if c == '/' then [] else Basename(init) + [c]
  {
    var init, c := path[..|path| - 1], path[|path| - 1];
    if c != '/' {
      match LastIndexOf(init, '/')
      case None =>
      case Some(i) =>
        assert path[i + 1..] == init[i + 1..] + [c];
    }
  }

  /** A label taken from the file name has no '/' in it, is a prefix of the
      file's basename, and is the whole basename when that has no '.'. */
  lemma FileLabel(song: Song)
    requires "title" !in song.tags && "name" !in song.tags && "file" in song.tags
    ensures var base := Basename(song.tags["file"]);
      && '/' !in Label(song)
      && Label(song) <= base
      && ('.' !in base ==> Label(song) == base)
  {
    var base := Basename(song.tags["file"]);
    assert Label(song) == Stem(base);
    forall k | 0 <= k < |Stem(base)| ensures Stem(base)[k] != '/' {
      assert Stem(base)[k] == base[k];
    }
  }
}
