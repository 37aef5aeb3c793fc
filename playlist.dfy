/** What the window shows, and how a refresh recomputes it.

    The playlist pane is a list of rows (queue id, icon, label). The header
    bar has a subtitle, a play button, a pause button and a volume control.
    A refresh is told which subsystems changed (`None` means all of them)
    and recomputes only the sections those changes affect, from the
    daemon's replies to `currentsong`, `status` and `playlistinfo`. */
module Playlist {
  import opened Wrappers
  import opened Songs

  /** One row of the playlist pane: queue id, icon name, text (the song label). */
  datatype Row = Row(id: string, icon: string, text: string)

  /** The part of the `status` reply the window reads. */
  datatype Status = Status(state: string, volume: int)

  /** The daemon's replies a refresh works from: the current song (an empty
      tag dictionary when nothing is current), the status and the queue. */
  datatype Snapshot = Snapshot(current: Song, status: Status, playlist: seq<Song>)

  /** What the daemon guarantees of its replies and the refresh relies on:
      every queue entry, and the current song when there is one, carries a
      queue id. */
  predicate WellFormed(snap: Snapshot) {
    && (snap.current.IsPresent() ==> snap.current.HasId())
    && forall i :: 0 <= i < |snap.playlist| ==> snap.playlist[i].HasId()
  }

  /** The UI state a refresh touches. */
  datatype View = View(rows: seq<Row>, subtitle: Option<string>, playShown: bool, pauseShown: bool, volume: int)

  const StartIcon := "media-playback-start-symbolic"
  const PauseIcon := "media-playback-pause-symbolic"

  /** The playlist section runs for "all" or a "playlist" change. */
  function PlaylistRuns(events: Option<seq<string>>): (r: bool)
    ensures events.None? ==> r
    ensures events.Some? ==> (r <==> "playlist" in events.value)
  {
    events.None? || "playlist" in events.value
  }

  /** The play-state section runs for "all", a "playlist" or a "player"
      change: a rebuilt list is always re-tagged. */
  function PlayerRuns(events: Option<seq<string>>): (r: bool)
    ensures PlaylistRuns(events) ==> r
    ensures r <==> PlaylistRuns(events) || (events.Some? && "player" in events.value)
  {
    events.None? || "playlist" in events.value || "player" in events.value
  }

  /** The mixer section runs for "all" or a "mixer" change. */
  function MixerRuns(events: Option<seq<string>>): (r: bool)
    ensures events.None? ==> r
    ensures events.Some? ==> (r <==> "mixer" in events.value)
  {
    events.None? || "mixer" in events.value
  }

  /** The row a queue entry gets when the list is rebuilt. */
  function RowOf(song: Song): Row
    requires song.HasId()
  {
    Row(song.tags["id"], "", Label(song))
  }

  function Rebuilt(playlist: seq<Song>): (r: seq<Row>)
    requires forall i :: 0 <= i < |playlist| ==> playlist[i].HasId()
    ensures |r| == |playlist|
    ensures forall i :: 0 <= i < |r| ==>
      playlist[i].HasId() && r[i].id == playlist[i].tags["id"] && r[i].icon == "" && r[i].text == Label(playlist[i])
  {
    seq(|playlist|, i requires 0 <= i < |playlist| => RowOf(playlist[i]))
  }

  /** The icon of the playing row: the start icon while playing, the pause
      icon otherwise (paused or stopped). */
  function PlayingIcon(state: string): (r: string)
    ensures r == StartIcon <==> state == "play"
    ensures r == PauseIcon <==> state != "play"
  {
    if state == "play" then StartIcon else PauseIcon
  }

  /** The row shows the current song: there is one and the ids agree. */
  predicate IsCurrent(row: Row, current: Song) {
    current.IsPresent() && current.HasId() && row.id == current.tags["id"]
  }

  /** The rows with the playing row's icon set and every other icon cleared. */
  function Tagged(rows: seq<Row>, current: Song, state: string): (r: seq<Row>)
    ensures |r| == |rows|
    ensures forall i :: 0 <= i < |r| ==>
      && r[i].id == rows[i].id && r[i].text == rows[i].text
      && r[i].icon == (if IsCurrent(rows[i], current) then PlayingIcon(state) else "")
  {
    seq(|rows|, i requires 0 <= i < |rows| =>
      rows[i].(icon := if IsCurrent(rows[i], current) then PlayingIcon(state) else ""))
  }

  /** The view after a refresh for `events` against the replies `snap`. */
  function Refreshed(v: View, events: Option<seq<string>>, snap: Snapshot): (r: View)
    requires WellFormed(snap)
    ensures |r.rows| == if PlaylistRuns(events) then |snap.playlist| else |v.rows|
    ensures r.volume == if MixerRuns(events) then snap.status.volume else v.volume
    ensures PlayerRuns(events) ==> r.pauseShown == (snap.status.state == "play") && r.playShown == !r.pauseShown
    ensures !PlayerRuns(events) ==>
      r.rows == v.rows && r.subtitle == v.subtitle && r.playShown == v.playShown && r.pauseShown == v.pauseShown
  {
    var state := snap.status.state;
    var rows := if PlaylistRuns(events) then Rebuilt(snap.playlist) else v.rows;
    var v1 :=
      if PlayerRuns(events) then
        View(Tagged(rows, snap.current, state),
             if state == "play" then Some(Label(snap.current)) else None,
             state != "play", state == "play", v.volume)
      else v.(rows := rows);
    if MixerRuns(events) then v1.(volume := snap.status.volume) else v1
  }

  /** After a rebuild, row i shows queue entry i: its id, its label, and
      the playing icon exactly when it is the current song. */
  lemma RefreshRebuildsRows(v: View, events: Option<seq<string>>, snap: Snapshot)
    requires WellFormed(snap) && PlaylistRuns(events)
    ensures var r := Refreshed(v, events, snap).rows;
      && |r| == |snap.playlist|
      && forall i :: 0 <= i < |r| ==>
        && r[i].id == snap.playlist[i].tags["id"]
        && r[i].text == Label(snap.playlist[i])
        && r[i].icon == (if snap.current.IsPresent() && snap.playlist[i].tags["id"] == snap.current.tags["id"]
                         then PlayingIcon(snap.status.state) else "")
  {
  }

  /** The play-state section: the pause button shows exactly while
      playing and the play button otherwise, the subtitle is the current
      song's label while playing, and each row keeps its id and label and
      carries the playing icon exactly when it shows the current song. */
  lemma RefreshTagsPlayingRow(v: View, events: Option<seq<string>>, snap: Snapshot)
    requires WellFormed(snap) && PlayerRuns(events)
    ensures var w := Refreshed(v, events, snap);
      var before := if PlaylistRuns(events) then Rebuilt(snap.playlist) else v.rows;
      && w.pauseShown == (snap.status.state == "play")
      && w.playShown == !w.pauseShown
      && w.subtitle == (if snap.status.state == "play" then Some(Label(snap.current)) else None)
      && |w.rows| == |before|
      && forall i :: 0 <= i < |w.rows| ==>
        && w.rows[i].id == before[i].id && w.rows[i].text == before[i].text
        && w.rows[i].icon == (if IsCurrent(before[i], snap.current) then PlayingIcon(snap.status.state) else "")
  {
  }

  /** Sections whose subsystem did not change are left alone. */
  lemma RefreshSkipsUnchanged(v: View, events: Option<seq<string>>, snap: Snapshot)
    requires WellFormed(snap)
    ensures var w := Refreshed(v, events, snap);
      && (!PlaylistRuns(events) ==>
            |w.rows| == |v.rows| &&
            forall i :: 0 <= i < |v.rows| ==> w.rows[i].id == v.rows[i].id && w.rows[i].text == v.rows[i].text)
      && (!PlayerRuns(events) ==>
            w.rows == v.rows && w.subtitle == v.subtitle && w.playShown == v.playShown && w.pauseShown == v.pauseShown)
      && (MixerRuns(events) ==> w.volume == snap.status.volume)
      && (!MixerRuns(events) ==> w.volume == v.volume)
  {
  }

  /** When queue ids are distinct, at most one row carries the playing icon. */
  lemma AtMostOnePlayingRow(v: View, events: Option<seq<string>>, snap: Snapshot, i: nat, j: nat)
    requires WellFormed(snap) && PlayerRuns(events)
    requires var before := if PlaylistRuns(events) then Rebuilt(snap.playlist) else v.rows;
      forall a, b :: 0 <= a < b < |before| ==> before[a].id != before[b].id
    requires i < j < |Refreshed(v, events, snap).rows|
    ensures Refreshed(v, events, snap).rows[i].icon == "" || Refreshed(v, events, snap).rows[j].icon == ""
  {
    var before := if PlaylistRuns(events) then Rebuilt(snap.playlist) else v.rows;
    var rows := Refreshed(v, events, snap).rows;
    assert rows == Tagged(before, snap.current, snap.status.state);
  }

  /** A full refresh does not depend on what was shown before, so running
      it twice against the same replies changes nothing the second time. */
  lemma FullRefreshIdempotent(v: View, u: View, snap: Snapshot)
    requires WellFormed(snap)
    ensures Refreshed(v, None, snap) == Refreshed(u, None, snap)
    ensures Refreshed(Refreshed(v, None, snap), None, snap) == Refreshed(v, None, snap)
  {
  }

  /** A notification naming none of the three subsystems changes nothing. */
  lemma UnrelatedEventsNoChange(v: View, events: seq<string>, snap: Snapshot)
    requires WellFormed(snap)
    requires "playlist" !in events && "player" !in events && "mixer" !in events
    ensures Refreshed(v, Some(events), snap) == v
  {
  }
}
