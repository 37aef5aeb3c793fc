# Litome, modelled in Dafny

Litome is a small GTK front end for the Music Player Daemon (MPD). It does four things:

- At start-up it walks a ladder of connection attempts over the configured profiles.
- It keeps the daemon's "idle" subscription open so that it hears about changes.
- It shows the play queue with the playing song marked, plus play/pause buttons and a volume control.
- It offers a search popover that groups hits by artist, by album and by title.

This project models that core and proves properties about it:

- `songs.dfy` (module `Songs`): the tag dictionary of a song and `song_label`, with the basename and stem of the file path.
- `grouping.dfy` (module `Grouping`): the three group-by passes of the search handler. A pass is an imperative method, `GroupBy`. It is proved against reference functions: `Keys`, `Filter`, `Dedup` and `Groups`.
- `connection.dfy` (module `Connection`): the retry ladder. Timeouts grow by step; inside each step every profile is tried in order; the first success stops both loops. Its trace of attempts is proved to be a prefix of the reference `Schedule`.
- `idle.dfy` (module `Idle`): the subscription protocol as a two-state machine (`Step`, `Replay`), and the client (`Client`) as a class whose log of requests is always a legal run of that machine.
- `playlist.dfy` (module `Playlist`): what a refresh does to the window, as the reference function `Refreshed`, with lemmas about which sections change.
- `app.dfy` (module `App`): the application object (`Litome`).
  - Its constructor models `do_activate`.
  - `Update`/`Redraw` model `update` and are proved equal to `Refreshed`.
  - `UpdateIdle`, `Search`, `AddSongs`, `RemoveSong`, `PlayOrPause`, `Play`, `Pause`, `PlaySong`, `SetVolume` and `MediaKey` model the command handlers.
  - Each handler's request log is stated exactly, and is proved to leave the subscription as it found it, except `RemoveSong` with no row under the cursor, which ends unsubscribed as the code does.

Inputs to the model:

- Daemon replies are parameters of the handler that asks for them: `currentsong`, `status`, `playlistinfo`, the four `search` results, the `status` state read by the play/pause toggle, and the subsystems returned by `fetch_idle`.
- Whether a connect succeeds is an oracle. It is a function of the profile's position and the timeout in force.
- Timeouts are whole milliseconds. A configured timeout, given in whole seconds, becomes `1000 * seconds`. The fallback, ten times the timeout that succeeded, becomes `10 * ms`.

Notes on the code's behaviour:

- The ladder's timeouts are `range(100, 5100, 1000)`: five steps from 100 ms to 4100 ms. The last step is 4100 ms.
- If no profile connects, `do_activate` still calls `update()` on a client that is not connected. The model stops at that point: no request is logged, nothing is refreshed, and the client never subscribes. The code itself then raises.
- The command handlers do not wrap their requests in a `try`/`finally`. A failing request therefore leaves the subscription suspended. The model has no failing requests (see below), so every handler ends subscribed, except `RemoveSong` with no row under the cursor, which ends unsubscribed as the code does.
- `play_or_pause` sends `pause(1)` exactly when the daemon reports `play`, and `pause(0)` otherwise.

## Model

| member | source | states |
|---|---|---|
| Songs.LastIndexOf | litome.py:38 | The position of the last occurrence of a character, or None exactly when it does not occur; nothing after that position equals it. |
| Songs.Song.Get | litome.py:27 | `song.get(key)`: a value exactly when the tag is present, and then the tag's value. |
| Songs.Song.GetOr | litome.py:195 | `song.get(key, default)`: the tag's value when present, else the default. |
| Songs.Label | litome.py:26-39 | The label is "artist – title" when both exist and the artist is non-empty, else the title, else the name tag, else the stem of the file's basename, else "?". |
| Songs.LabelReadsFourTags | litome.py:26-39 | Two songs that agree on title, artist, name and file get the same label. |
| Songs.SplitLastIsBasename | litome.py:38 | The last piece of `path.split('/')`, computed independently by `SplitOn`, is the basename. |
| Songs.Basename | litome.py:38 | The basename contains no '/', is a suffix of the path, and is the whole path when it has no '/'. |
| Songs.BasenameSnoc | litome.py:38 | Adding a character to a path: after a '/' the basename is empty; otherwise it grows by that character. |
| Songs.Stem | litome.py:38 | `rsplit('.', 1)[0]` is a prefix of the name; with a '.', the name is stem + "." + an extension with no '.'; without one, it is the whole name. |
| Songs.FileLabel | litome.py:36-38 | A label taken from the file path has no '/', is a prefix of the basename, and is the whole basename when that has no '.'. |
| Grouping.Key | litome.py:195-215 | The artist pass keys on the artist tag or "?"; the album pass on "artist – album", each part defaulting to "?"; the title pass on the song's label. |
| Grouping.GroupBy | litome.py:193-220 | After a pass, the dictionary's keys in insertion order are the distinct keys in first-seen order; each key maps to the distinct songs with that key, in first-seen order. |
| Grouping.InsertStep | litome.py:196-200 | One loop iteration (new key: a one-song list at the end; known key: append unless the song is already there) keeps that relation. |
| Grouping.InsertAt | litome.py:194-200 | The same step, stated at position `i` of the input. |
| Grouping.Items | litome.py:224-232 | `items()` lists each key in insertion order with its list. |
| Grouping.Groups | litome.py:193-220 | One group per distinct key. |
| Grouping.ItemsOfPass | litome.py:193-232 | Reading the pass's dictionary back in insertion order gives exactly `Groups`. |
| Grouping.KeyOccurs | litome.py:193-220 | Every input song's key is among the keys of the pass. |
| Grouping.DedupFirstSeen | litome.py:196-200 | Keys appear in the order of their first occurrence in the input. |
| Grouping.GroupFirstSeen | litome.py:197-198 | Within a group, songs appear in the order of their first occurrence in the input. |
| Grouping.FilterMembership | litome.py:193-220 | A song is in the group of key k exactly when it is an input song whose key is k. |
| Grouping.PassNoDuplicates | litome.py:196-198 | No key is listed twice and no group holds two equal songs. |
| Grouping.PassCoversInput | litome.py:193-220 | Every input song lands in the group of its own key. |
| Grouping.PassOnlyOwnKey | litome.py:193-220 | Every song in a group is an input song with that group's key. |
| Grouping.DedupElements | litome.py:196-200 | Dropping repeats keeps exactly the input's elements. |
| Grouping.DedupNoDuplicates | litome.py:196-198 | Dropping repeats leaves no two equal elements. |
| Connection.PortOf | litome.py:52 | The configured port, else 6600. |
| Connection.Sweep | litome.py:50-55 | One sweep tries every profile once, in configuration order, at that step's timeout. |
| Connection.ScheduleLength | litome.py:48-66 | Had every connect failed, the ladder would make steps × profiles attempts. |
| Connection.ScheduleAt | litome.py:48-55 | Attempt number `step * n + j` tries profile j at the timeout of step `step` (100 + 1000·step ms): timeout-major, profile-minor. |
| Connection.SchedulePrefix | litome.py:48-66 | The attempts of fewer steps are a prefix of the attempts of more steps. |
| Connection.PartialSweepPrefix | litome.py:48-66 | A ladder stopped partway through a sweep has made a prefix of the full schedule. |
| Connection.SessionFor | litome.py:53-62 | A password is sent only when one is configured and non-empty; the session timeout is the configured one (seconds → ms), else ten times the timeout that succeeded. |
| Connection.Connect | litome.py:48-66 | The attempts made are a prefix of the schedule, and all but the last failed. On success: the last attempt succeeded, the session is `SessionFor` it, and the client's timeout is the session's. On failure: the whole schedule was tried, every attempt failed, and the timeout is left at 4100 ms. |
| Idle.Step | litome.py:187-222 | An ordinary command or `send_idle` is refused while subscribed, `noidle` or `fetch_idle` while executing; an allowed request leads to the subscribed state exactly when it is `send_idle`. |
| Idle.Replay | litome.py:187-222 | The empty log keeps the starting state; only a non-empty log can be refused. |
| Idle.ReplayLast | litome.py:247-283 | A log that replays ends subscribed exactly when its last request is `send_idle`. |
| Idle.ReplayAppend | litome.py:187-222 | Running two request logs one after the other is running their concatenation. |
| Idle.CommandsKeepExecuting | litome.py:247-283 | Ordinary commands run from the executing state and stay there; while subscribed they are refused. |
| Idle.BracketKeepsSubscription | litome.py:247-283 | `noidle` + commands + `send_idle`, sent while subscribed, returns to the subscribed state; without `noidle` the commands would be refused. |
| Idle.Client.Unsubscribe | litome.py:187 | `noidle` moves a subscribed client to executing and logs the request. |
| Idle.Client.ReadIdle | litome.py:323 | `fetch_idle` ends the pending idle and logs the request. |
| Idle.Client.Subscribe | litome.py:160 | `send_idle` moves an executing client to subscribed and logs the request. |
| Idle.Client.Execute | litome.py:247-283 | An ordinary command is allowed only while executing, and is logged. |
| Playlist.PlaylistRuns | litome.py:290 | The playlist section runs on a full refresh or when "playlist" is among the events. |
| Playlist.PlayerRuns | litome.py:299 | The player section runs whenever the playlist section does, and otherwise exactly when "player" is among the events. |
| Playlist.MixerRuns | litome.py:317 | The mixer section runs on a full refresh or when "mixer" is among the events. |
| Playlist.Rebuilt | litome.py:293-295 | One row per queue entry, in queue order: the entry's id, no icon, and the entry's label. |
| Playlist.Tagged | litome.py:311-315 | Every row keeps its id and label; its icon is the playing icon when it shows the current song, and empty otherwise. |
| Playlist.Refreshed | litome.py:285-320 | The rows are rebuilt exactly when the playlist section runs; the volume is taken from the status exactly when the mixer section runs; when the player section runs the pause button shows exactly while playing and the play button otherwise; when it does not, rows, subtitle and buttons are unchanged. |
| Playlist.PlayingIcon | litome.py:300-309 | The start icon exactly while playing, the pause icon otherwise. |
| Playlist.RefreshRebuildsRows | litome.py:290-295 | After a rebuild, row i carries entry i's id and label, and the playing icon exactly when it is the current song. |
| Playlist.RefreshTagsPlayingRow | litome.py:299-315 | The pause button shows exactly while playing and the play button otherwise; the subtitle is the current song's label while playing, else none; rows keep id and label, and each carries the playing icon when it shows the current song and no icon otherwise. |
| Playlist.RefreshSkipsUnchanged | litome.py:290-320 | Sections whose subsystem did not change are left alone; the volume is taken from the status exactly when the mixer section runs. |
| Playlist.AtMostOnePlayingRow | litome.py:311-315 | With distinct queue ids, at most one row carries the playing icon. |
| Playlist.FullRefreshIdempotent | litome.py:285-320 | A full refresh does not depend on the previous view, so repeating it changes nothing. |
| Playlist.UnrelatedEventsNoChange | litome.py:285-320 | A notification naming none of playlist, player or mixer changes nothing. |
| App.ToggleFlag | litome.py:262 | The `pause` argument is 1 exactly when the state is "play", and 0 otherwise. |
| App.Login | litome.py:59-60 | The start-up login sends the password exactly when the session has one, and then it is that password. |
| App.AddRequests | litome.py:249-250 | One `add` request per song of the group, in group order, with that song's file. |
| App.Without | litome.py:256 | Deleting row `path`: rows before it stay, rows after it move up by one, and the multiset loses exactly that row. |
| App.LoginFor | litome.py:53-60 | After profile j connected, the login sends that profile's password exactly when it is configured and non-empty, and nothing otherwise. |
| App.SearchRows | litome.py:188-232 | The artist pass runs over the artist hits, the album pass over the album then artist hits, the title pass over the title, album, artist then file hits; there is one row per distinct key of each pass, and the rows are the `Popover` of the passes' `Groups`. |
| App.Popover | litome.py:224-232 | The popover lists the artist rows, then the album rows, then the title rows, each row with its section's icon, its group's key and its group's songs. |
| App.KeyRequests | litome.py:329-332 | Only "Play" and "Stop" send anything; each sends a noidle/send_idle bracket whose last command is `pause`, with 1 for "Stop" and the toggle flag of the state for "Play". |
| App.ResultRows | litome.py:224-232 | One popover row per group: the icon, the key, and the group's songs. |
| App.KeyKeepsSubscription | litome.py:329-332 | One media key leaves the subscription in place. |
| App.KeysKeepSubscription | litome.py:327-332 | Any run of media keys leaves the subscription in place. |
| App.GroupedItems | litome.py:193-232 | A group-by pass read back in insertion order equals `Groups`. |
| App.RebuildRows | litome.py:293-295 | The loop that refills the list yields `Rebuilt`. |
| App.TagRows | litome.py:311-315 | The loop that sets the icons yields `Tagged`. |
| App.Litome.constructor | litome.py:43-66 | Every attempt but the last failed. On success: the last attempt succeeded, its profile is a configured one, the session is `SessionFor` that profile and timeout, and the log is the login of that session, then a full refresh (currentsong, status, playlistinfo), then a subscription, and the view is `Refreshed` from the initial view. On failure: the whole schedule was tried, every attempt failed, the timeout is left at 4100 ms, nothing was requested and the view is the initial one. |
| App.Litome.Update | litome.py:285-320 | Requests currentsong and status, and playlistinfo exactly when the playlist section runs; the new view is `Refreshed(old view, events, replies)`; the client stays executing. |
| App.Litome.Redraw | litome.py:290-320 | The window side of `update` yields `Refreshed`, and the search rows are untouched. |
| App.Litome.UpdateIdle | litome.py:322-325 | `fetch_idle`, the refresh requests and `send_idle` are logged; the view is `Refreshed` for the reported subsystems; the client ends subscribed; the search rows and the connection state are unchanged. |
| App.Litome.Search | litome.py:163-232 | The four searches are logged inside one noidle/send_idle bracket; the popover holds the artist groups, then the album groups, then the title groups, each in first-seen order; the window and the connection state are unchanged. |
| App.Litome.ShowResults | litome.py:193-232 | The popover rows are `SearchRows` of the four hit lists (the `Popover` of the three passes' `Groups`); the window and the connection state are unchanged. |
| App.Litome.AppendRows | litome.py:224-232 | Appends one row per group, in order; the window and the connection state are unchanged. |
| App.Litome.AddSongs | litome.py:247-251 | Logs the bracket of one `add` per song of the chosen row. |
| App.Litome.RemoveSong | litome.py:253-258 | With a row under the cursor: logs the bracket of `deleteid` for the row's id, removes that row and ends subscribed. With none: only `noidle` is logged, the pane is unchanged and the client is left unsubscribed. The rest of the window and the connection state are unchanged either way. |
| App.Litome.PlayOrPause | litome.py:260-263 | Logs the bracket of `status` and `pause(ToggleFlag(state))`. |
| App.Litome.Play | litome.py:265-268 | Logs the bracket of `pause(0)`. |
| App.Litome.Pause | litome.py:270-273 | Logs the bracket of `pause(1)`. |
| App.Litome.PlaySong | litome.py:275-278 | Logs the bracket of `playid` for the row's id. |
| App.Litome.SetVolume | litome.py:280-283 | Logs the bracket of `setvol(percent)`. |
| App.Litome.HandleKey | litome.py:329-332 | "Play" toggles, "Stop" pauses, any other key sends nothing. |
| App.Litome.MediaKey | litome.py:327-332 | Logs the requests of every key in order; the client ends subscribed. |

## Left out

- GTK widgets, layout, the tree view cursor and the popover's size request are not modelled. The window is reduced to its rows, subtitle, button visibility and volume.
- The cursor restore in `update` and the cursor move in `remove_song` are not modelled. The cursor of `remove_song` is given as an optional row index.
- App.Litome.RemoveSong: with no row under the cursor, the handler raises after `noidle`. The model stops there with the requests sent so far; the exception itself is not modelled.
- D-Bus registration for media keys is not modelled. `MediaKey` takes the key names directly.
- The network, the GLib I/O watch and the MPD client library are not modelled. Replies are parameters, connect success is an oracle, and a request that fails or raises is not modelled.
- Reading the configuration file (ConfigParser) is not modelled. Profiles are given as a sequence.
- App.Litome.SetVolume: takes the volume already as an integer percentage. The float widget value and `int(volume * 100)` truncation are not modelled.
- App.Litome.Redraw: the volume widget gets the daemon's integer percentage. The `/ 100` float conversion and the signal blocking around it are not modelled.
- Connection.SessionFor: the fallback timeout is exact `10 * ms`. Float rounding of `timeout * 10` in seconds is not modelled.
- App.Litome.AddSongs: reads the songs of a search row directly. The `str()`/`eval()` round trip through the list store is not modelled.
- Multi-valued tags (a tag whose value is a list) are not modelled. Every tag is a string, so the `isinstance(..., str)` checks of `song_label` always hold.
- The `status` reply is reduced to its state and an integer volume.
