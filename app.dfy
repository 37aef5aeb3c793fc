/** The application: start-up, the refresh on notifications, and the
    command handlers behind the buttons, the playlist rows, the search
    popover and the media keys.

    The window's widgets are reduced to the state they show (a `View` and
    the search result rows); the daemon connection to its subscription
    state and request log (`Client`). Every reply the daemon would give is
    a parameter of the handler that asks for it. */
module App {
  import opened Wrappers
  import opened Songs
  import opened Grouping
  import opened Connection
  import opened Idle
  import opened Playlist

  const ArtistIcon := "system-users-symbolic"
  const AlbumIcon := "media-optical-cd-audio-symbolic"
  const TitleIcon := "emblem-music-symbolic"

  /** One row of the search popover: icon, label, and the group's songs. */
  datatype ResultRow = ResultRow(icon: string, text: string, songs: seq<Song>)

  function ResultRows(icon: string, groups: seq<Group<Song>>): (r: seq<ResultRow>)
    ensures |r| == |groups|
    ensures forall i :: 0 <= i < |groups| ==> r[i] == ResultRow(icon, groups[i].key, groups[i].songs)
  {
    seq(|groups|, i requires 0 <= i < |groups| => ResultRow(icon, groups[i].key, groups[i].songs))
  }

  /** The popover's rows: the artist groups, then the album groups, then
      the title groups, each row with its section's icon. */
  function Popover(artists: seq<Group<Song>>, albums: seq<Group<Song>>, titles: seq<Group<Song>>): (r: seq<ResultRow>)
    ensures |r| == |artists| + |albums| + |titles|
    ensures forall i :: 0 <= i < |artists| ==> r[i] == ResultRow(ArtistIcon, artists[i].key, artists[i].songs)
    ensures forall i :: |artists| <= i < |artists| + |albums| ==>
      r[i] == ResultRow(AlbumIcon, albums[i - |artists|].key, albums[i - |artists|].songs)
    ensures forall i :: |artists| + |albums| <= i < |r| ==>
      r[i] == ResultRow(TitleIcon, titles[i - |artists| - |albums|].key, titles[i - |artists| - |albums|].songs)
  {
    ResultRows(ArtistIcon, artists) + ResultRows(AlbumIcon, albums) + ResultRows(TitleIcon, titles)
  }

  /** The popover's rows for the four field searches: artist groups over
      the artist hits, album groups over album then artist hits, title
      groups over title, album, artist then file hits. */
  function SearchRows(byArtist: seq<Song>, byAlbum: seq<Song>, byTitle: seq<Song>, byFile: seq<Song>): (r: seq<ResultRow>)
    ensures |r| == |Dedup(Keys(byArtist, KeyOf(ByArtist)))|
                   + |Dedup(Keys(byAlbum + byArtist, KeyOf(ByAlbum)))|
                   + |Dedup(Keys(byTitle + byAlbum + byArtist + byFile, KeyOf(ByLabel)))|
  {
    Popover(Groups(byArtist, KeyOf(ByArtist)), Groups(byAlbum + byArtist, KeyOf(ByAlbum)),
            Groups(byTitle + byAlbum + byArtist + byFile, KeyOf(ByLabel)))
  }

  /** One grouping pass of the search (a dictionary filled song by song),
      read back in insertion order. */
  method GroupedItems(songs: seq<Song>, kind: KeyKind) returns (items: seq<Group<Song>>)
    ensures items == Groups(songs, KeyOf(kind))
  {
    var order, groups := GroupBy(songs, KeyOf(kind));
    ItemsOfPass(songs, KeyOf(kind), order, groups);
    items := Items(order, groups);
  }

  /** The argument of `pause` for the play/pause toggle: 1 (pause) exactly
      when the daemon reports it is playing, else 0 (resume). */
  function ToggleFlag(state: string): (r: int)
    ensures r == 1 <==> state == "play"
    ensures r == 0 <==> state != "play"
  {
    if state == "play" then 1 else 0
  }

  /** The requests one media key leads to; `state` is the daemon's play
      state as the toggle reads it. "Play" toggles, "Stop" pauses, any
      other key does nothing. */
  function KeyRequests(key: string, state: string): (r: seq<Cmd>)
    ensures r == [] <==> key != "Play" && key != "Stop"
    ensures r != [] ==>
      && 2 < |r| && r[0] == NoIdle && r[|r| - 1] == SendIdle
      && r[|r| - 2] == Cmd.Pause(if key == "Stop" then 1 else ToggleFlag(state))
  {
    if key == "Play" then Bracket([Cmd.Status, Cmd.Pause(ToggleFlag(state))])
    else if key == "Stop" then Bracket([Cmd.Pause(1)])
    else []
  }

  /** The requests for the first `n` keys. */
  function KeysRequests(keys: seq<string>, states: seq<string>, n: nat): seq<Cmd>
    requires |states| == |keys| && n <= |keys|
  {
    if n == 0 then [] else KeysRequests(keys, states, n - 1) + KeyRequests(keys[n - 1], states[n - 1])
  }

  /** One media key leaves the subscription in place. */
  lemma KeyKeepsSubscription(log: seq<Cmd>, key: string, state: string)
    requires Replay(log, false) == Some(true)
    ensures Replay(log + KeyRequests(key, state), false) == Some(true)
  {
    if key == "Play" {
      BracketKeepsSubscription(log, [Cmd.Status, Cmd.Pause(ToggleFlag(state))]);
    } else if key == "Stop" {
      BracketKeepsSubscription(log, [Cmd.Pause(1)]);
    } else {
      assert log + [] == log;
    }
  }

  /** Any run of media keys leaves the subscription in place. */
  lemma {:induction false} KeysKeepSubscription(log: seq<Cmd>, keys: seq<string>, states: seq<string>, n: nat)
    requires |states| == |keys| && n <= |keys|
    requires Replay(log, false) == Some(true)
    ensures Replay(log + KeysRequests(keys, states, n), false) == Some(true)
  {
    if n > 0 {
      KeysKeepSubscription(log, keys, states, n - 1);
      KeyKeepsSubscription(log + KeysRequests(keys, states, n - 1), keys[n - 1], states[n - 1]);
      AppendAssoc(log, KeysRequests(keys, states, n - 1), KeyRequests(keys[n - 1], states[n - 1]));
    } else {
      assert log + [] == log;
    }
  }

  /** The playlist pane rebuilt from the queue: one row per entry, in
      queue order, with no icon. */
  method RebuildRows(playlist: seq<Song>) returns (rows: seq<Row>)
    requires forall i :: 0 <= i < |playlist| ==> playlist[i].HasId()
    ensures rows == Rebuilt(playlist)
  {
    rows := [];
    var i := 0;
    while i < |playlist|
      invariant 0 <= i <= |playlist|
      invariant |rows| == i
      invariant forall k :: 0 <= k < i ==> rows[k] == RowOf(playlist[k])
    {
      rows := rows + [RowOf(playlist[i])];
      i := i + 1;
    }
    assert forall k :: 0 <= k < |rows| ==> rows[k] == Rebuilt(playlist)[k];
  }

  /** Mark the row of the current song with the play-state icon and clear
      every other row's icon. */
  method TagRows(rows: seq<Row>, current: Song, state: string) returns (tagged: seq<Row>)
    ensures tagged == Tagged(rows, current, state)
  {
    var playing := if state == "play" then StartIcon else PauseIcon;
    tagged := rows;
    var i := 0;
    while i < |tagged|
      invariant 0 <= i <= |tagged| == |rows|
      invariant forall k :: 0 <= k < i ==> tagged[k] == Tagged(rows, current, state)[k]
      invariant forall k :: i <= k < |tagged| ==> tagged[k] == rows[k]
    {
      var icon := if IsCurrent(tagged[i], current) then playing else "";
      tagged := tagged[i := tagged[i].(icon := icon)];
      i := i + 1;
    }
  }

  /** The view before the first refresh: an empty list, no subtitle, both
      buttons shown, the volume control at zero. */
  const InitialView := View([], None, true, true, 0)

  class Litome {
    const client: Client
    var attempts: seq<Attempt>     // connect calls made at start-up
    var session: Option<Session>   // the session opened, if any
    var timeout: int               // the client's timeout, in ms
    var rows: seq<Row>             // the playlist pane
    var subtitle: Option<string>   // the header bar's subtitle
    var playShown: bool            // the play button is visible
    var pauseShown: bool           // the pause button is visible
    var volume: int                // the volume control, in percent
    var results: seq<ResultRow>    // the search popover's rows

    ghost predicate Valid()
      reads this, client
    {
      client.Valid()
    }

    function ViewOf(): View
      reads this
    {
      View(rows, subtitle, playShown, pauseShown, volume)
    }

    /** Start-up: run the connection ladder; once connected, send the
        password if one is configured, do a full refresh and subscribe.
        When no profile connects the window stays as built and the client
        never subscribes. */
    constructor (profiles: seq<Profile>, succeeds: (nat, int) -> bool, snap: Snapshot)
      requires WellFormed(snap)
      ensures Valid() && fresh(client)
      ensures attempts <= Schedule(profiles, Steps)
      ensures forall k :: 0 <= k < |attempts| - 1 ==> !succeeds(attempts[k].profile, attempts[k].timeout)
      ensures session.None? ==>
        && attempts == Schedule(profiles, Steps)
        && (forall k :: 0 <= k < |attempts| ==> !succeeds(attempts[k].profile, attempts[k].timeout))
        && timeout == StepTimeout(Steps - 1)
        && !client.subscribed && client.log == []
        && ViewOf() == InitialView
      ensures session.Some? ==>
        && |attempts| > 0
        && var last := attempts[|attempts| - 1];
        && last.profile < |profiles|
        && succeeds(last.profile, last.timeout)
        && session.value == SessionFor(profiles, last.profile, last.timeout)
      ensures session.Some? ==>
        && client.subscribed
        && timeout == session.value.timeout
        && client.log == Login(session.value) + [CurrentSong] + [Cmd.Status] + [PlaylistInfo] + [SendIdle]
        && ViewOf() == Refreshed(InitialView, None, snap)
      ensures results == []
    {
      client := new Client();
      var trace, found, ms := Connect(profiles, succeeds);
      attempts, session, timeout := trace, found, ms;
      rows, subtitle, playShown, pauseShown, volume := [], None, true, true, 0;
      results := [];
      new;
      if found.Some? {
        if found.value.password.Some? {
          client.Execute(Password(found.value.password.value));
          assert client.log == Login(found.value);
        }
        Update(None, snap);
        client.Subscribe();
      }
    }

    /** `update`: ask for the current song and the status, then refresh the
        sections `events` names (`None`: all), asking for the queue only
        when the playlist section runs. */
    method Update(events: Option<seq<string>>, snap: Snapshot)
      requires Valid() && !client.subscribed && WellFormed(snap)
      modifies this, client
      ensures Valid() && !client.subscribed
      ensures client.log == old(client.log) + [CurrentSong] + [Cmd.Status]
                            + (if PlaylistRuns(events) then [PlaylistInfo] else [])
      ensures ViewOf() == Refreshed(old(ViewOf()), events, snap)
      ensures results == old(results) && attempts == old(attempts)
      ensures session == old(session) && timeout == old(timeout)
    {
      client.Execute(CurrentSong);
      client.Execute(Cmd.Status);
      if PlaylistRuns(events) {
        client.Execute(PlaylistInfo);
      } else {
        assert client.log + [] == client.log;
      }
      Redraw(events, snap);
    }

    /** The window side of `update`, once the replies are in: rebuild the
        list, then set the play state and the playing row's icon, then the
        volume, each only when its section runs. */
    method Redraw(events: Option<seq<string>>, snap: Snapshot)
      requires WellFormed(snap)
      modifies this
      ensures ViewOf() == Refreshed(old(ViewOf()), events, snap)
      ensures results == old(results) && attempts == old(attempts)
      ensures session == old(session) && timeout == old(timeout)
    {
      var state := snap.status.state;
      var listed := rows;
      if PlaylistRuns(events) {
        listed := RebuildRows(snap.playlist);
      }
      if PlayerRuns(events) {
        if state == "play" {
          subtitle := Some(Label(snap.current));
          pauseShown, playShown := true, false;
        } else {
          subtitle := None;
          pauseShown, playShown := false, true;
        }
        listed := TagRows(listed, snap.current, state);
      }
      rows := listed;
      if MixerRuns(events) {
        volume := snap.status.volume;
      }
    }

    /** `update_idle`: the daemon reported the changed subsystems `events`;
        read them, refresh those sections, and subscribe again. */
    method UpdateIdle(events: seq<string>, snap: Snapshot)
      requires Valid() && client.subscribed && WellFormed(snap)
      modifies this, client
      ensures Valid() && client.subscribed
      ensures client.log == old(client.log) + [FetchIdle] + [CurrentSong] + [Cmd.Status]
                            + (if PlaylistRuns(Some(events)) then [PlaylistInfo] else []) + [SendIdle]
      ensures ViewOf() == Refreshed(old(ViewOf()), Some(events), snap)
      ensures results == old(results)
      ensures attempts == old(attempts) && session == old(session) && timeout == old(timeout)
    {
      client.ReadIdle();
      Update(Some(events), snap);
      client.Subscribe();
    }

    /** `search`: run the four field searches inside one bracket, then fill
        the popover with the artist, album and title groups. */
    method Search(query: string, byArtist: seq<Song>, byAlbum: seq<Song>, byTitle: seq<Song>, byFile: seq<Song>)
      requires Valid() && client.subscribed
      modifies this, client
      ensures Valid() && client.subscribed
      ensures client.log == old(client.log) + Bracket([Cmd.Search("artist", query), Cmd.Search("album", query),
                                                       Cmd.Search("title", query), Cmd.Search("file", query)])
      ensures results == SearchRows(byArtist, byAlbum, byTitle, byFile)
      ensures ViewOf() == old(ViewOf())
      ensures attempts == old(attempts) && session == old(session) && timeout == old(timeout)
    {
      results := [];
      ghost var log0 := client.log;
      client.Unsubscribe();
      client.Execute(Cmd.Search("artist", query));
      client.Execute(Cmd.Search("album", query));
      client.Execute(Cmd.Search("title", query));
      client.Execute(Cmd.Search("file", query));
      client.Subscribe();
      assert client.log == log0 + Bracket([Cmd.Search("artist", query), Cmd.Search("album", query),
                                           Cmd.Search("title", query), Cmd.Search("file", query)]);
      ShowResults(byArtist, byAlbum, byTitle, byFile);
    }

    /** Group the four result lists and fill the popover: the artist
        groups, then the album groups, then the title groups. */
    method ShowResults(byArtist: seq<Song>, byAlbum: seq<Song>, byTitle: seq<Song>, byFile: seq<Song>)
      requires results == []
      modifies this
      ensures results == SearchRows(byArtist, byAlbum, byTitle, byFile)
      ensures ViewOf() == old(ViewOf())
      ensures attempts == old(attempts) && session == old(session) && timeout == old(timeout)
    {
      var artists := GroupedItems(byArtist, ByArtist);
      var albums := GroupedItems(byAlbum + byArtist, ByAlbum);
      var titles := GroupedItems(byTitle + byAlbum + byArtist + byFile, ByLabel);
      AppendRows(ArtistIcon, artists);
      assert results == ResultRows(ArtistIcon, artists);
      AppendRows(AlbumIcon, albums);
      AppendRows(TitleIcon, titles);
    }

    /** Append one row per group, in order. */
    method AppendRows(icon: string, items: seq<Group<Song>>)
      modifies this
      ensures results == old(results) + ResultRows(icon, items)
      ensures ViewOf() == old(ViewOf())
      ensures attempts == old(attempts) && session == old(session) && timeout == old(timeout)
    {
      ghost var start := results;
      var i := 0;
      while i < |items|
        invariant 0 <= i <= |items|
        invariant results == start + ResultRows(icon, items[..i])
        invariant ViewOf() == old(ViewOf())
        invariant attempts == old(attempts) && session == old(session) && timeout == old(timeout)
      {
        assert items[..i + 1] == items[..i] + [items[i]];
        results := results + [ResultRow(icon, items[i].key, items[i].songs)];
        i := i + 1;
      }
      assert items[..i] == items;
    }

    /** `add_songs`: enqueue the file of every song of the chosen search
        row, in group order. Every song the daemon returns from a search
        carries its `file` tag; the handler relies on that. */
    method AddSongs(path: nat)
      requires Valid() && client.subscribed
      requires path < |results|
      requires forall s :: s in results[path].songs ==> "file" in s.tags
      modifies client
      ensures Valid() && client.subscribed
      ensures client.log == old(client.log) + Bracket(AddRequests(results[path].songs))
    {
      var songs := results[path].songs;
      client.Unsubscribe();
      ghost var start := client.log;
      ghost var sent := [];
      var i := 0;
      while i < |songs|
        invariant 0 <= i <= |songs|
        invariant client.Valid() && !client.subscribed
        invariant sent == AddRequests(songs[..i])
        invariant client.log == start + sent
      {
        assert songs[..i + 1][..i] == songs[..i];
        client.Execute(Add(songs[i].tags["file"]));
        sent := sent + [Add(songs[i].tags["file"])];
        i := i + 1;
      }
      assert songs[..i] == songs;
      client.Subscribe();
      BracketSent(old(client.log), sent);
    }

    /** `remove_song`: delete the queue entry of the row under the cursor
        on the daemon and drop that row from the pane. With no row under the
        cursor (`path` is None, as on an empty list) the handler fails right
        after `noidle`: nothing is deleted and the client is left
        unsubscribed. */
    method RemoveSong(path: Option<nat>)
      requires Valid() && client.subscribed
      requires path.Some? ==> path.value < |rows|
      modifies this, client
      ensures Valid()
      ensures client.subscribed <==> path.Some?
      ensures path.None? ==> client.log == old(client.log) + [NoIdle] && rows == old(rows)
      ensures path.Some? ==>
        && client.log == old(client.log) + Bracket([DeleteId(old(rows)[path.value].id)])
        && rows == Without(old(rows), path.value)
      ensures subtitle == old(subtitle) && playShown == old(playShown)
      ensures pauseShown == old(pauseShown) && volume == old(volume) && results == old(results)
      ensures attempts == old(attempts) && session == old(session) && timeout == old(timeout)
    {
      client.Unsubscribe();
      if path.Some? {
        var row := path.value;
        client.Execute(DeleteId(rows[row].id));
        rows := rows[..row] + rows[row + 1..];
        client.Subscribe();
      }
    }

    /** `play_or_pause`: read the status (`state` is the reply) and pause
        when playing, resume otherwise. */
    method PlayOrPause(state: string)
      requires Valid() && client.subscribed
      modifies client
      ensures Valid() && client.subscribed
      ensures client.log == old(client.log) + Bracket([Cmd.Status, Cmd.Pause(ToggleFlag(state))])
    {
      client.Unsubscribe();
      client.Execute(Cmd.Status);
      client.Execute(Cmd.Pause(ToggleFlag(state)));
      client.Subscribe();
    }

    /** `play`: resume playback. */
    method Play()
      requires Valid() && client.subscribed
      modifies client
      ensures Valid() && client.subscribed
      ensures client.log == old(client.log) + Bracket([Cmd.Pause(0)])
    {
      client.Unsubscribe();
      client.Execute(Cmd.Pause(0));
      client.Subscribe();
    }

    /** `pause`: pause playback. */
    method Pause()
      requires Valid() && client.subscribed
      modifies client
      ensures Valid() && client.subscribed
      ensures client.log == old(client.log) + Bracket([Cmd.Pause(1)])
    {
      client.Unsubscribe();
      client.Execute(Cmd.Pause(1));
      client.Subscribe();
    }

    /** `play_song`: play the queue entry of row `path`. */
    method PlaySong(path: nat)
      requires Valid() && client.subscribed
      requires path < |rows|
      modifies client
      ensures Valid() && client.subscribed
      ensures client.log == old(client.log) + Bracket([PlayId(rows[path].id)])
    {
      client.Unsubscribe();
      client.Execute(PlayId(rows[path].id));
      client.Subscribe();
    }

    /** `set_volume`, given the volume already as a percentage. */
    method SetVolume(percent: int)
      requires Valid() && client.subscribed
      modifies client
      ensures Valid() && client.subscribed
      ensures client.log == old(client.log) + Bracket([SetVol(percent)])
    {
      client.Unsubscribe();
      client.Execute(SetVol(percent));
      client.Subscribe();
    }

    /** `media_key`: handle each key in turn; `states[i]` is the play state
        the toggle reads when handling `keys[i]`. */
    method MediaKey(keys: seq<string>, states: seq<string>)
      requires Valid() && client.subscribed
      requires |states| == |keys|
      modifies client
      ensures Valid() && client.subscribed
      ensures client.log == old(client.log) + KeysRequests(keys, states, |keys|)
    {
      var i := 0;
      while i < |keys|
        invariant 0 <= i <= |keys|
        invariant Valid() && client.subscribed
        invariant client.log == old(client.log) + KeysRequests(keys, states, i)
      {
        ghost var before := client.log;
        HandleKey(keys[i], states[i]);
        assert client.log == before + KeyRequests(keys[i], states[i]);
        AppendAssoc(old(client.log), KeysRequests(keys, states, i), KeyRequests(keys[i], states[i]));
        i := i + 1;
      }
    }

    /** One media key: "Play" toggles, "Stop" pauses, others are ignored. */
    method HandleKey(key: string, state: string)
      requires Valid() && client.subscribed
      modifies client
      ensures Valid() && client.subscribed
      ensures client.log == old(client.log) + KeyRequests(key, state)
    {
      if key == "Play" {
        PlayOrPause(state);
      } else if key == "Stop" {
        Pause();
      } else {
        assert client.log + [] == client.log;
      }
    }
  }

  /** The requests of the start-up login: the password, when the session
      has one. */
  function Login(session: Session): (r: seq<Cmd>)
    ensures |r| <= 1
    ensures r == [] <==> session.password.None?
    ensures session.password.Some? ==> r == [Password(session.password.value)]
  {
    if session.password.Some? then [Password(session.password.value)] else []
  }

  /** The login after profile `j` connected sends that profile's password
      exactly when it is configured and non-empty. */
  lemma LoginFor(profiles: seq<Profile>, j: nat, ms: int)
    requires j < |profiles|
    ensures var p := profiles[j].password;
      Login(SessionFor(profiles, j, ms)) == if p.Some? && p.value != "" then [Password(p.value)] else []
  {
  }

  /** The `add` requests for a group: one per song, in group order. */
  function AddRequests(songs: seq<Song>): (r: seq<Cmd>)
    requires forall s :: s in songs ==> "file" in s.tags
    ensures |r| == |songs|
    ensures forall i :: 0 <= i < |songs| ==> r[i] == Add(songs[i].tags["file"])
  {
    if songs == [] then []
    else AddRequests(songs[..|songs| - 1]) + [Add(songs[|songs| - 1].tags["file"])]
  }

  /** The rows with row `path` deleted: the rows before it stay put, the
      rows after it move up by one, and nothing else changes. */
  function Without(rows: seq<Row>, path: nat): (r: seq<Row>)
    requires path < |rows|
    ensures |r| == |rows| - 1
    ensures forall i :: 0 <= i < path ==> r[i] == rows[i]
    ensures forall i :: path <= i < |r| ==> r[i] == rows[i + 1]
    ensures multiset(r) + multiset{rows[path]} == multiset(rows)
  {
    assert rows == rows[..path] + [rows[path]] + rows[path + 1..];
    rows[..path] + rows[path + 1..]
  }
}
