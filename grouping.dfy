/** The three group-by passes that turn search hits into result rows.

    Each pass walks a list of songs, computes a key per song, and keeps a
    dictionary from key to list: a new key gets a one-song list, a known
    key gets the song appended unless that list already holds an equal
    song. The dictionary remembers the order in which keys were inserted. */
module Grouping {
  import opened Songs

  /** Which key a pass groups by. */
  datatype KeyKind =
    | ByArtist   // the raw artist tag, '?' when absent
    | ByAlbum    // "artist – album", '?' for each absent part
    | ByLabel    // the song's display label

  /** The key of a song: the artist tag; the artist and album joined by the
      dash; or the display label. A missing tag reads as '?'. */
  function Key(kind: KeyKind, song: Song): (r: string)
    ensures kind == ByArtist ==> r == (if "artist" in song.tags then song.tags["artist"] else "?")
    ensures kind == ByAlbum ==>
      r == (if "artist" in song.tags then song.tags["artist"] else "?") + Dash
           + (if "album" in song.tags then song.tags["album"] else "?")
    ensures kind == ByLabel ==> r == Label(song)
  {
    match kind
    case ByArtist => song.GetOr("artist", "?")
    case ByAlbum => song.GetOr("artist", "?") + Dash + song.GetOr("album", "?")
    case ByLabel => Label(song)
  }

  /** The key computation of a pass, as a function value. The passes below
      are stated for any key function. */
  function KeyOf(kind: KeyKind): Song -> string {
    song => Key(kind, song)
  }

  /** The key of every song, in input order. */
  function Keys<T(==)>(songs: seq<T>, keyOf: T -> string): (r: seq<string>)
    ensures |r| == |songs|
    ensures forall i :: 0 <= i < |songs| ==> r[i] == keyOf(songs[i])
  {
    if songs == [] then [] else Keys(songs[..|songs| - 1], keyOf) + [keyOf(songs[|songs| - 1])]
  }

  /** The songs whose key is `k`, in input order. */
  function Filter<T(==)>(songs: seq<T>, keyOf: T -> string, k: string): seq<T> {
    if songs == [] then []
    else
      var last := songs[|songs| - 1];
      if keyOf(last) == k then Filter(songs[..|songs| - 1], keyOf, k) + [last]
      else Filter(songs[..|songs| - 1], keyOf, k)
  }

  /** The first occurrence of every element, in the order first seen. */
  function Dedup<T(==)>(s: seq<T>): seq<T> {
    if s == [] then []
    else
      var d := Dedup(s[..|s| - 1]);
      if s[|s| - 1] in d then d else d + [s[|s| - 1]]
  }

  /** Index of the first occurrence of `x` in `s`. */
  function FirstIndex<T(==)>(s: seq<T>, x: T): (r: nat)
    requires x in s
    ensures r < |s| && s[r] == x
    ensures forall j :: 0 <= j < r ==> s[j] != x
  {
    if s[0] == x then 0 else 1 + FirstIndex(s[1..], x)
  }

  predicate NoDuplicates<T(==)>(s: seq<T>) {
    forall i, j :: 0 <= i < j < |s| ==> s[i] != s[j]
  }

  /** One result group: its key and its songs. */
  datatype Group<T> = Group(key: string, songs: seq<T>)

  /** The dictionary's `items()`: every key in insertion order with its list. */
  function Items<T(==)>(order: seq<string>, groups: map<string, seq<T>>): (r: seq<Group<T>>)
    requires forall i :: 0 <= i < |order| ==> order[i] in groups
    ensures |r| == |order|
    ensures forall i :: 0 <= i < |order| ==> r[i] == Group(order[i], groups[order[i]])
  {
    if order == [] then []
    else Items(order[..|order| - 1], groups) + [Group(order[|order| - 1], groups[order[|order| - 1]])]
  }

  /** The groups a pass over `songs` yields, in key order: each key with
      the first-seen, duplicate-free list of the songs carrying it. */
  function Groups<T(==)>(songs: seq<T>, keyOf: T -> string): (r: seq<Group<T>>)
    ensures |r| == |Dedup(Keys(songs, keyOf))|
  {
    var keys := Dedup(Keys(songs, keyOf));
    seq(|keys|, i requires 0 <= i < |keys| => Group(keys[i], Dedup(Filter(songs, keyOf, keys[i]))))
  }

  /** `order` and `groups` are what a pass yields after seeing `seen`. */
  ghost predicate Grouped<T>(seen: seq<T>, keyOf: T -> string, order: seq<string>, groups: map<string, seq<T>>) {
    && order == Dedup(Keys(seen, keyOf))
    && (forall k :: k in groups <==> k in order)
    && (forall k :: k in groups ==> groups[k] == Dedup(Filter(seen, keyOf, k)))
  }

  /** One group-by pass, as the search handler runs it: the keys in order of
      first insertion, and the dictionary from key to its list of songs.
      Every list is the first-seen, duplicate-free selection of the songs
      with that key. */
  method GroupBy<T(==)>(songs: seq<T>, keyOf: T -> string) returns (order: seq<string>, groups: map<string, seq<T>>)
    ensures order == Dedup(Keys(songs, keyOf))
    ensures forall k :: k in groups <==> k in order
    ensures forall k :: k in groups ==> groups[k] == Dedup(Filter(songs, keyOf, k))
  {
    order, groups := [], map[];
    var i := 0;
    while i < |songs|
      invariant 0 <= i <= |songs|
      invariant Grouped(songs[..i], keyOf, order, groups)
    {
      var song := songs[i];
      var key := keyOf(song);
      var order', groups' := order, groups;
      if key in groups {
        if song !in groups[key] {
          groups' := groups[key := groups[key] + [song]];
        }
      } else {
        groups' := groups[key := [song]];
        order' := order + [key];
      }
      InsertAt(songs, i, keyOf, order, groups, order', groups');
      order, groups := order', groups';
      i := i + 1;
    }
    assert songs[..i] == songs;
  }

  /** The loop body of a pass keeps `Grouped`: a new key gets a one-song
      list at the end of the order, a known key gets the song appended
      unless its list already has it. */
  lemma InsertStep<T>(seen: seq<T>, song: T, keyOf: T -> string,
                   order: seq<string>, groups: map<string, seq<T>>,
                   order': seq<string>, groups': map<string, seq<T>>)
    requires Grouped(seen, keyOf, order, groups)
    requires var key := keyOf(song);
      if key in groups then
        order' == order &&
        groups' == (if song in groups[key] then groups else groups[key := groups[key] + [song]])
      else
        order' == order + [key] && groups' == groups[key := [song]]
    ensures Grouped(seen + [song], keyOf, order', groups')
  {
    var key := keyOf(song);
    GroupStep(seen, song, keyOf);
    DedupSnoc(Keys(seen, keyOf), key);
    assert order' == Dedup(Keys(seen + [song], keyOf));
    forall k | k in groups'
      ensures groups'[k] == Dedup(Filter(seen + [song], keyOf, k))
    {
      if k == key {
        DedupSnoc(Filter(seen, keyOf, key), song);
        if key !in groups {
          FilterWithoutKey(seen, keyOf, key);
          assert Dedup(Filter(seen, keyOf, key)) == [];
        }
      } else {
        assert groups'[k] == groups[k];
      }
    }
  }

  /** `InsertStep` at position `i` of the input. */
  lemma InsertAt<T>(songs: seq<T>, i: nat, keyOf: T -> string,
                   order: seq<string>, groups: map<string, seq<T>>,
                   order': seq<string>, groups': map<string, seq<T>>)
    requires i < |songs|
    requires Grouped(songs[..i], keyOf, order, groups)
    requires var key := keyOf(songs[i]);
      if key in groups then
        order' == order &&
        groups' == (if songs[i] in groups[key] then groups else groups[key := groups[key] + [songs[i]]])
      else
        order' == order + [key] && groups' == groups[key := [songs[i]]]
    ensures Grouped(songs[..i + 1], keyOf, order', groups')
  {
    InsertStep(songs[..i], songs[i], keyOf, order, groups, order', groups');
    assert songs[..i + 1] == songs[..i] + [songs[i]];
  }

  /** How the keys and the selections grow when one more song is seen. */
  lemma GroupStep<T>(seen: seq<T>, song: T, keyOf: T -> string)
    ensures Keys(seen + [song], keyOf) == Keys(seen, keyOf) + [keyOf(song)]
    ensures forall k ::
      Filter(seen + [song], keyOf, k) == if keyOf(song) == k then Filter(seen, keyOf, k) + [song] else Filter(seen, keyOf, k)
  {
    assert (seen + [song])[..|seen|] == seen;
  }

  /** Listing a pass's dictionary in insertion order gives its groups. */
  lemma ItemsOfPass<T>(songs: seq<T>, keyOf: T -> string, order: seq<string>, groups: map<string, seq<T>>)
    requires Grouped(songs, keyOf, order, groups)
    ensures forall i :: 0 <= i < |order| ==> order[i] in groups
    ensures Items(order, groups) == Groups(songs, keyOf)
  {
  }

  /** Seeing one more element appends it unless it was already kept. */
  lemma DedupSnoc<T>(s: seq<T>, x: T)
    ensures Dedup(s + [x]) == if x in Dedup(s) then Dedup(s) else Dedup(s) + [x]
  {
    assert (s + [x])[..|s|] == s;
  }

  /** No song carries a keyOf that never occurs among the keys. */
  lemma {:induction false} FilterWithoutKey<T>(songs: seq<T>, keyOf: T -> string, k: string)
    requires k !in Dedup(Keys(songs, keyOf))
    ensures Filter(songs, keyOf, k) == []
  {
    if songs != [] {
      var init := songs[..|songs| - 1];
      assert Keys(songs, keyOf) == Keys(init, keyOf) + [keyOf(songs[|songs| - 1])];
      DedupElements(Keys(songs, keyOf));
      DedupElements(Keys(init, keyOf));
      FilterWithoutKey(init, keyOf, k);
    }
  }

  /** Dedup keeps exactly the elements of its input. */
  lemma {:induction false} DedupElements<T>(s: seq<T>)
    ensures forall x :: x in Dedup(s) <==> x in s
  {
    if s != [] {
      var init := s[..|s| - 1];
      DedupElements(init);
      assert s == init + [s[|s| - 1]];
    }
  }

  /** An element Dedup keeps is an element of its input. */
  lemma DedupMember<T>(s: seq<T>, y: T)
    requires y in Dedup(s)
    ensures y in s
  {
    DedupElements(s);
  }

  /** Dedup never keeps two equal elements. */
  lemma {:induction false} DedupNoDuplicates<T>(s: seq<T>)
    ensures NoDuplicates(Dedup(s))
  {
    if s != [] {
      DedupNoDuplicates(s[..|s| - 1]);
    }
  }

  /** Dedup keeps elements in the order of their first occurrence. */
  lemma {:induction false} DedupFirstSeen<T>(s: seq<T>, i: nat, j: nat)
    requires i < j < |Dedup(s)|
    ensures Dedup(s)[i] in s && Dedup(s)[j] in s
    ensures FirstIndex(s, Dedup(s)[i]) < FirstIndex(s, Dedup(s)[j])
  {
    var init := s[..|s| - 1];
    var x := s[|s| - 1];
    var d := Dedup(init);
    assert s == init + [x];
    DedupElements(s);
    DedupElements(init);
    DedupSnoc(init, x);
    if j < |d| {
      DedupFirstSeen(init, i, j);
      FirstIndexOfPrefix(init, x, d[i]);
      FirstIndexOfPrefix(init, x, d[j]);
    } else {
      assert x !in init && Dedup(s)[j] == x;
      DedupMember(init, d[i]);
      FirstIndexOfNew(init, x, d[i]);
    }
  }

  /** Appending an element does not move the first occurrence of an earlier one. */
  lemma FirstIndexOfPrefix<T>(s: seq<T>, x: T, y: T)
    requires y in s
    ensures FirstIndex(s + [x], y) == FirstIndex(s, y)
  {
    var q := FirstIndex(s, y);
    assert (s + [x])[q] == y;
  }

  /** An element first seen at the end comes after every earlier one. */
  lemma FirstIndexOfNew<T>(s: seq<T>, x: T, y: T)
    requires y in s && x !in s
    ensures FirstIndex(s + [x], y) < FirstIndex(s + [x], x) == |s|
  {
    FirstIndexOfPrefix(s, x, y);
  }

  /** A song is in the group for key `k` exactly when it is an input song
      whose key is `k`: every input song lands in its own group and in no
      other. */
  lemma {:induction false} FilterMembership<T>(songs: seq<T>, keyOf: T -> string, k: string, s: T)
    ensures s in Dedup(Filter(songs, keyOf, k)) <==> s in songs && keyOf(s) == k
  {
    DedupElements(Filter(songs, keyOf, k));
    if songs != [] {
      var init := songs[..|songs| - 1];
      FilterMembership(init, keyOf, k, s);
      DedupElements(Filter(init, keyOf, k));
      assert songs == init + [songs[|songs| - 1]];
    }
  }

  /** Songs within a group appear in the order the input first shows them. */
  lemma {:induction false} GroupFirstSeen<T>(songs: seq<T>, keyOf: T -> string, k: string, i: nat, j: nat)
    requires i < j < |Dedup(Filter(songs, keyOf, k))|
    ensures Dedup(Filter(songs, keyOf, k))[i] in songs && Dedup(Filter(songs, keyOf, k))[j] in songs
    ensures FirstIndex(songs, Dedup(Filter(songs, keyOf, k))[i])
          < FirstIndex(songs, Dedup(Filter(songs, keyOf, k))[j])
  {
    var g := Dedup(Filter(songs, keyOf, k));
    FilterMembership(songs, keyOf, k, g[i]);
    FilterMembership(songs, keyOf, k, g[j]);
    var init := songs[..|songs| - 1];
    var x := songs[|songs| - 1];
    var h := Dedup(Filter(init, keyOf, k));
    assert songs == init + [x];
    GroupStep(init, x, keyOf);
    DedupSnoc(Filter(init, keyOf, k), x);
    if j < |h| {
      GroupFirstSeen(init, keyOf, k, i, j);
      FirstIndexOfPrefix(init, x, h[i]);
      FirstIndexOfPrefix(init, x, h[j]);
    } else {
      assert g[j] == x && x !in h && keyOf(x) == k;
      FilterMembership(init, keyOf, k, x);
      FilterMembership(init, keyOf, k, g[i]);
      FirstIndexOfNew(init, x, g[i]);
    }
  }

  /** After a pass, no key is listed twice and no list holds two equal songs. */
  lemma PassNoDuplicates<T>(songs: seq<T>, keyOf: T -> string, order: seq<string>, groups: map<string, seq<T>>)
    requires Grouped(songs, keyOf, order, groups)
    ensures NoDuplicates(order)
    ensures forall k :: k in groups ==> NoDuplicates(groups[k])
  {
    DedupNoDuplicates(Keys(songs, keyOf));
    forall k | k in groups ensures NoDuplicates(groups[k]) {
      DedupNoDuplicates(Filter(songs, keyOf, k));
    }
  }

  /** After a pass, every input song is in the list of its own key. */
  lemma PassCoversInput<T>(songs: seq<T>, keyOf: T -> string, order: seq<string>, groups: map<string, seq<T>>)
    requires Grouped(songs, keyOf, order, groups)
    ensures forall s :: s in songs ==> keyOf(s) in groups && s in groups[keyOf(s)]
  {
    forall s | s in songs ensures keyOf(s) in groups && s in groups[keyOf(s)] {
      KeyOccurs(songs, keyOf, s);
      FilterMembership(songs, keyOf, keyOf(s), s);
    }
  }

  /** After a pass, a list holds only input songs carrying the list's key,
      so no song sits in the list of another key. */
  lemma PassOnlyOwnKey<T>(songs: seq<T>, keyOf: T -> string, order: seq<string>, groups: map<string, seq<T>>)
    requires Grouped(songs, keyOf, order, groups)
    ensures forall k, s :: k in groups && s in groups[k] ==> s in songs && keyOf(s) == k
  {
    forall k, s | k in groups && s in groups[k] ensures s in songs && keyOf(s) == k {
      FilterMembership(songs, keyOf, k, s);
    }
  }

  /** The key of every input song is among the pass's keys. */
  lemma KeyOccurs<T>(songs: seq<T>, keyOf: T -> string, s: T)
    requires s in songs
    ensures keyOf(s) in Dedup(Keys(songs, keyOf))
  {
    var i :| 0 <= i < |songs| && songs[i] == s;
    assert Keys(songs, keyOf)[i] == keyOf(s);
    DedupElements(Keys(songs, keyOf));
  }
}
