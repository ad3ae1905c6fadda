# A verified model of a music-streaming front end

This project models the logic under the rendering layer of a React
music-streaming front end, in Dafny. It covers five parts:

- **The player context** (`src/contexts/PlayerContext.jsx`). This is the
  playback state machine: the current song, play/pause, the clock, the
  queue and its index, repeat, and the interaction reports the player
  sends. It is a class, `PlayerContext.Player`, whose handlers update
  fields in place. Each handler is proved to take the state to a pure
  transition of the same name in `PlaybackSpec`. Properties of whole runs
  are lemmas over those transitions. Examples are a song playing to its
  end and the next one starting, and repeat restarting a song.
- **The in-browser mock backend** (`src/api/mockApi.js`). This is a class,
  `MockBackend.MockStore`, whose three fields stand for the three storage
  keys. It covers registration, login, playlists, like toggling and the
  first-start seeding. The list updates are pure functions with
  idempotence and round-trip lemmas.
- **The real client's pure logic** (`src/api/realApi.js`). This covers
  normalising backend tracks, first-occurrence de-duplication by track id,
  the request headers, the error message of a failed response, and what an
  empty or non-JSON success resolves to (modules `Tracks` and `Gateway`).
- **The data context** (`src/contexts/DataContext.jsx`). This is the
  client-side bookkeeping of songs, playlists, the loading flag and the
  stored session record (`DataStore.DataStore`). A lemma ties its
  replace-by-id update to the mock backend: after an add, the client's
  list equals what a fresh load would return.
- **Two components.** The player bar (`PlayerBar`) supplies the clock
  text, the like-state fallback, the volume icon, the no-song guard and
  the like/dislike handlers. The playlist card (`PlaylistCard`) supplies
  the id-to-song join and the guarded add button.

Time in the player is counted in whole tenths of a second, so the 100 ms
interval adds 1. Interaction reports are appended to an event log instead
of being sent over the network.

Whatever a backend call resolves to is a parameter of the operation that
makes it. That value is `Ok(v)` for a result or `Err(message)` for a
thrown error. Fresh ids are parameters too.

A JavaScript field that may be absent and is only tested for truthiness
is `""`; other absent fields are `None`.

## Model

| member | source | states |
|---|---|---|
| Base.NatToString | src/components/PlayerBar.jsx:22 | the decimal rendering of a number is non-empty, all digits, one digit exactly below 10, no leading zero |
| Base.IntToString | src/components/PlayerBar.jsx:22 | the rendering of any integer is non-empty and starts with `-` exactly for negatives |
| Base.IntToStringReads | src/components/PlayerBar.jsx:22 | after an optional `-`, the rendering is all digits and reads back as the magnitude |
| Base.DigitsValueOfNatToString | src/components/PlayerBar.jsx:22 | reading a rendered number back gives the number |
| Base.RemoveAll | src/api/mockApi.js:155 | `filter(s => s !== id)` drops every occurrence of the id, keeps every other element and adds nothing; a list without the id is unchanged |
| Base.RemoveAllAppend | src/api/mockApi.js:155 | the filter distributes over concatenation |
| Base.ContainsIffOccurs | src/api/realApi.js:50 | `includes` holds exactly when the substring occurs at some position |
| Entities.FindIndexById | src/contexts/PlayerContext.jsx:93 | `findIndex` by id gives -1 exactly when no entry has the id, else the first position holding it |
| Entities.FindById | src/components/PlaylistCard.jsx:10 | `find` by id gives nothing exactly when no entry has the id, else the entry at the first such position |
| Tracks.TransformTrack | src/api/realApi.js:65-80 | the id is `track_id`; the duration is `floor(duration_ms / 1000)`, missing when `duration_ms` is missing; the cover defaults to `/image.jpeg` and the state to `none` when the backend field is empty |
| Tracks.FirstIndex | src/api/realApi.js:115-119 | the first position of an id, equal to the length exactly when the id does not occur |
| Tracks.DedupFrom | src/api/realApi.js:114-119 | the `seen`-set filter, started with some ids already seen, never lengthens the list |
| Tracks.DedupFromFirst | src/api/realApi.js:114-119 | every track the `seen`-set filter keeps is the first occurrence of its id and was not seen before |
| Tracks.DedupFromOrder | src/api/realApi.js:114-119 | the kept tracks come in the order of their first occurrences |
| Tracks.DedupFromIds | src/api/realApi.js:114-119 | the kept ids are exactly the input ids not already seen |
| Tracks.DedupFromDistinct | src/api/realApi.js:114-119 | input with distinct ids, none already seen, is kept whole |
| Tracks.DedupFromStep | src/api/realApi.js:115-119 | one step of the filter: a track whose id was seen is dropped, any other is appended to what was kept, and its id is seen afterwards |
| Tracks.OrderAfterSkip | src/api/realApi.js:115-119 | dropping a first track whose id was seen keeps the tail's first-occurrence order |
| Tracks.OrderAfterKeep | src/api/realApi.js:115-119 | keeping an unseen first track in front keeps the first-occurrence order |
| Tracks.Dedup | src/api/realApi.js:114-119 | the filter started with nothing seen never lengthens the list; `Tracks.DedupSpec` states what it keeps |
| Tracks.DedupSpec | src/api/realApi.js:114-119 | the de-duplicated list keeps first occurrences in input order, has distinct ids, keeps every input id, is no longer than the input, and leaves distinct input unchanged |
| Tracks.DedupDistinct | src/api/realApi.js:114-119 | the de-duplicated list has no repeated id |
| Tracks.DedupIdempotent | src/api/realApi.js:114-119 | de-duplicating twice is de-duplicating once |
| Tracks.UniqueTracks | src/api/realApi.js:114-119 | the loop with its mutable `seen` set computes `Dedup` |
| Tracks.GetSongs | src/api/realApi.js:109-122 | the returned songs are the transformed de-duplicated tracks, with pairwise-distinct ids, every input id present; no data gives no songs |
| Gateway.StatusMessage | src/api/realApi.js:34 | the fallback message starts with `HTTP ` |
| Gateway.StatusMessageReads | src/api/realApi.js:34 | the text after `HTTP ` is all digits and reads back as the status |
| Gateway.GetTokenAsWritten | src/api/realApi.js:5-12 | as written, the reader returns the parsed record itself, which a template literal renders as `[object Object]`, whenever a record is stored |
| Gateway.GetToken | src/api/realApi.js:5-12 | corrected: the stored record's token, present exactly when a record with a non-empty token is stored |
| Gateway.AsWrittenHeaderLosesToken | src/api/realApi.js:5-12 | for any stored token other than the text `[object Object]`, the as-written header differs from `Bearer <token>` |
| Gateway.StoredSessionHeader | src/api/realApi.js:5-25 | a session stored with token `abc` sends `Bearer [object Object]` as written and `Bearer abc` corrected |
| Gateway.BuildHeaders | src/api/realApi.js:18-25 | the JSON content type unless the caller overrides it, every caller header, and `Authorization: Bearer <token>` exactly when there is a token |
| Gateway.FailureMessage | src/api/realApi.js:32-45 | a non-empty message: the JSON `message`, else `error`, else `HTTP <status>`; for a body that is not a JSON object with fields, the text when non-empty, else `HTTP <status>` |
| Gateway.SuccessOutcome | src/api/realApi.js:48-61 | a success never throws; without a JSON content type it is `{}` exactly for 204, `No Content` or empty text, otherwise the text; with one, the parsed body, or a rejection when it does not parse |
| Gateway.ApiRequest | src/api/realApi.js:15-62 | the headers sent are built from the corrected token, a non-2xx response throws `FailureMessage`, a 2xx one ends as `SuccessOutcome` |
| PlaybackSpec.Initial | src/contexts/PlayerContext.jsx:23-30 | no song, paused, time and duration 0, empty queue with index -1, repeat off, nothing reported |
| PlaybackSpec.DurationOf | src/contexts/PlayerContext.jsx:63 | a song's duration in tenths, 0 when it has none |
| PlaybackSpec.LoadSong | src/contexts/PlayerContext.jsx:61-69 | a new song resets time to 0, takes the song's duration and reports `play`; setting the loaded song again changes nothing |
| PlaybackSpec.PlaySong | src/contexts/PlayerContext.jsx:88-95 | the song is loaded and playing; with a queue, the queue is replaced and the index is the first matching position or -1; without one, queue and index stay; a different song starts at 0 with its duration and a `play` report, the same song keeps time, duration and log; repeat and volume stay |
| PlaybackSpec.TogglePlayPause | src/contexts/PlayerContext.jsx:97-105 | playing is negated and nothing else changes but the log, which gains `resume` or `pause` when a song is loaded |
| PlaybackSpec.SeekTo | src/contexts/PlayerContext.jsx:107-114 | time becomes exactly the argument, unclamped; `seek` is reported only when a song is loaded |
| PlaybackSpec.ChangeVolume | src/contexts/PlayerContext.jsx:116-118 | the volume is stored as given and nothing else changes |
| PlaybackSpec.PlayNext | src/contexts/PlayerContext.jsx:120-132 | with a next entry, the index moves up by one and that entry is playing; when it differs from the loaded song, time 0, its duration, and the log gains `skip` for the song left then `play` for the new one; when it is the loaded song, time and duration stay and only `skip` is logged; queue, repeat and volume stay; without a next entry nothing changes |
| PlaybackSpec.PlayPrevious | src/contexts/PlayerContext.jsx:134-149 | with index above 0, the index moves down by one and that entry is playing; a different entry starts at 0 with its duration after `previous` and `play` reports, the same one keeps time and duration after a `previous` report; else past 3 s the time goes to 0 with a `seek` report and the index kept; else nothing changes; queue, repeat and volume always stay |
| PlaybackSpec.SongEnd | src/contexts/PlayerContext.jsx:71-86 | with repeat, the song restarts at 0 playing after `completed` and `repeat` reports; without repeat and at the end of the queue, playback stops with time and duration kept after a `completed` report; otherwise the next entry is playing, and when it differs from the loaded song it starts at 0 with its duration after `completed`, `skip` and `play` reports; queue, repeat and volume always stay |
| PlaybackSpec.Tick | src/contexts/PlayerContext.jsx:34-46 | only while a song is loaded and playing; time gains a tenth, and on reaching the duration it is pinned there and the end is handled |
| PlaybackSpec.ToggleRepeat | src/contexts/PlayerContext.jsx:151-153 | repeat is negated and nothing else changes |
| PlaybackSpec.AddToQueue | src/contexts/PlayerContext.jsx:155-157 | the song is appended and the index does not move |
| PlaybackSpec.ClearQueue | src/contexts/PlayerContext.jsx:159-162 | the queue is emptied and the index is -1, the loaded song stays |
| PlaybackSpec.LikeInteraction | src/contexts/PlayerContext.jsx:165-167 | `like` or `unlike` is reported for the given song |
| PlaybackSpec.Ticks | src/contexts/PlayerContext.jsx:34-46 | any run of ticks keeps the queue index in range |
| PlaybackSpec.TicksWithinSong | src/contexts/PlayerContext.jsx:37-44 | before the end is reached, each tick only advances the time |
| PlaybackSpec.TicksToEnd | src/contexts/PlayerContext.jsx:34-46 | a playing song reaches its end after exactly `duration - time` ticks, and the end is handled with time pinned at the duration |
| PlaybackSpec.EndOfSongAdvances | src/contexts/PlayerContext.jsx:71-86 | queue `[a, b]` without repeat: after 300 ticks `b` is loaded at 0 and playing, with `play`, `completed`, `skip` for `a` and `play` for `b` reported |
| PlaybackSpec.EndOfSongRepeats | src/contexts/PlayerContext.jsx:77-81 | the same with repeat: `a` restarts at 0 and keeps playing |
| PlaybackSpec.EndOfQueueStops | src/contexts/PlayerContext.jsx:82-85 | at the last entry without repeat, the end stops playback and leaves song and index in place |
| PlaybackSpec.IndexMayNotMatchSong | src/contexts/PlayerContext.jsx:88-95 | playing a song without a queue keeps the old index, so the selected entry need not be the loaded song |
| PlayerContext.Player.constructor | src/contexts/PlayerContext.jsx:23-30 | the fields start as `PlaybackSpec.Initial` |
| PlayerContext.Player.Report | src/contexts/PlayerContext.jsx:8-19 | reporting an interaction appends exactly one event, with the song id and kind, to the log, and changes nothing else |
| PlayerContext.Player.SetCurrentSong | src/contexts/PlayerContext.jsx:61-69 | the fields change as `LoadSong` says |
| PlayerContext.Player.PlaySong | src/contexts/PlayerContext.jsx:88-95 | the fields change as `PlaybackSpec.PlaySong` says and the queue index stays in range |
| PlayerContext.Player.TogglePlayPause | src/contexts/PlayerContext.jsx:97-105 | the fields change as `PlaybackSpec.TogglePlayPause` says |
| PlayerContext.Player.Seek | src/contexts/PlayerContext.jsx:107-114 | the fields change as `SeekTo` says |
| PlayerContext.Player.ChangeVolume | src/contexts/PlayerContext.jsx:116-118 | the fields change as `PlaybackSpec.ChangeVolume` says |
| PlayerContext.Player.PlayNext | src/contexts/PlayerContext.jsx:120-132 | the fields change as `PlaybackSpec.PlayNext` says and the queue index stays in range |
| PlayerContext.Player.PlayPrevious | src/contexts/PlayerContext.jsx:134-149 | the fields change as `PlaybackSpec.PlayPrevious` says and the queue index stays in range |
| PlayerContext.Player.HandleSongEnd | src/contexts/PlayerContext.jsx:71-86 | the fields change as `SongEnd` says |
| PlayerContext.Player.Tick | src/contexts/PlayerContext.jsx:34-46 | the fields change as `PlaybackSpec.Tick` says |
| PlayerContext.Player.ToggleRepeat | src/contexts/PlayerContext.jsx:151-153 | the fields change as `PlaybackSpec.ToggleRepeat` says |
| PlayerContext.Player.AddToQueue | src/contexts/PlayerContext.jsx:155-157 | the fields change as `PlaybackSpec.AddToQueue` says |
| PlayerContext.Player.ClearQueue | src/contexts/PlayerContext.jsx:159-162 | the fields change as `PlaybackSpec.ClearQueue` says |
| PlayerContext.Player.HandleLikeInteraction | src/contexts/PlayerContext.jsx:165-167 | the fields change as `LikeInteraction` says |
| MockBackend.CredentialsIndex | src/api/mockApi.js:106 | -1 exactly when no user matches both username and password, else the first user who does |
| MockBackend.UserIndex | src/api/mockApi.js:151 | -1 exactly when no user has the id, else the first user who has it |
| MockBackend.PlaylistIndex | src/api/mockApi.js:141 | -1 exactly when no playlist has the id, else the first playlist that has it |
| MockBackend.PlaylistIndexSameIds | src/api/mockApi.js:141 | changing what playlists hold, without moving ids, does not move the lookup |
| MockBackend.AddIfAbsent | src/api/mockApi.js:143 | the id is present afterwards; it is appended only when absent |
| MockBackend.ToggleMembership | src/api/mockApi.js:153-158 | the id is present afterwards exactly when it was absent: every occurrence is removed, or it is appended |
| MockBackend.AddIfAbsentIdempotent | src/api/mockApi.js:143 | adding twice equals adding once |
| MockBackend.RemoveUndoesAdd | src/api/mockApi.js:168 | removing an id just added to a list without it gives the list back |
| MockBackend.ToggleTwice | src/api/mockApi.js:153-158 | two toggles from "not liked" give the liked list back |
| MockBackend.OwnedBy | src/api/mockApi.js:120 | exactly the playlists with that owner |
| MockBackend.OwnedByAppend | src/api/mockApi.js:120 | the owner filter distributes over concatenation, so stored order is kept |
| MockBackend.WithoutPlaylist | src/api/mockApi.js:176 | the filter never lengthens the list; the lemmas below fix its result |
| MockBackend.WithoutPlaylistDrops | src/api/mockApi.js:176 | every kept playlist lacks the id and comes from the stored list |
| MockBackend.WithoutPlaylistKeeps | src/api/mockApi.js:176 | every stored playlist without the id is kept |
| MockBackend.WithoutPlaylistNoMatch | src/api/mockApi.js:176 | with no playlist holding the id, the list is unchanged |
| MockBackend.WithoutPlaylistAppend | src/api/mockApi.js:176 | filtering a concatenation filters each part, so the kept playlists stay in stored order with their multiplicity |
| MockBackend.WithoutPlaylistSingle | src/api/mockApi.js:176 | one playlist is dropped exactly when it has the id; with the concatenation lemma this fixes the result element by element |
| MockBackend.AddSong | src/api/mockApi.js:138-146 | `Playlist not found` exactly when no playlist has the id; otherwise only the first such playlist changes, by `AddIfAbsent` |
| MockBackend.RemoveSong | src/api/mockApi.js:163-171 | `Playlist not found` exactly when no playlist has the id; otherwise only the first such playlist changes, losing every occurrence of the song |
| MockBackend.ToggleLike | src/api/mockApi.js:148-161 | `User not found` exactly when no user has the id; otherwise only that user changes, its liked list (missing read as empty) toggled |
| MockBackend.AddSongIdempotent | src/api/mockApi.js:138-146 | adding a song to a playlist twice stores the same as adding it once |
| MockBackend.RemoveAfterAdd | src/api/mockApi.js:138-171 | adding a song a playlist lacks, then removing it, restores the stored playlists |
| MockBackend.ToggleLikeTwice | src/api/mockApi.js:148-161 | two like toggles from "not liked" restore the user's liked list and leave every other user alone |
| MockBackend.CreatedPlaylistListedForOwner | src/api/mockApi.js:117-136 | a created playlist is listed last for its owner and for nobody else |
| MockBackend.MockStore.constructor | src/api/mockApi.js:80-85 | each empty key is seeded on load: the six initial songs, no users, no playlists |
| MockBackend.MockStore.EnsureInitialData | src/api/mockApi.js:80-84 | keys that hold nothing are seeded, keys that hold data are kept |
| MockBackend.MockStore.Register | src/api/mockApi.js:91-101 | a taken username throws `Username already exists` and leaves users alone; otherwise exactly one user with an empty liked list is appended and its id and name returned |
| MockBackend.MockStore.Login | src/api/mockApi.js:103-110 | succeeds exactly when some user matches both name and password, returning the first such user without password and with the liked list or `[]`; else `Invalid credentials` |
| MockBackend.MockStore.GetSongs | src/api/mockApi.js:112-115 | the stored songs, or none |
| MockBackend.MockStore.GetPlaylistsByUser | src/api/mockApi.js:117-121 | exactly the stored playlists of that owner, in stored order |
| MockBackend.MockStore.CreatePlaylist | src/api/mockApi.js:123-136 | one playlist with the fresh id, the owner, name, description (default empty) and no songs is appended and returned |
| MockBackend.MockStore.AddSongToPlaylist | src/api/mockApi.js:138-146 | the stored playlists become `AddSong`'s, and the changed playlist is returned; an unknown id throws and stores nothing |
| MockBackend.MockStore.ToggleLikeSong | src/api/mockApi.js:148-161 | the stored users become `ToggleLike`'s and the new liked list is returned; an unknown user throws and stores nothing |
| MockBackend.MockStore.RemoveSongFromPlaylist | src/api/mockApi.js:163-171 | the stored playlists become `RemoveSong`'s, and the changed playlist is returned; an unknown id throws and stores nothing |
| MockBackend.MockStore.DeletePlaylist | src/api/mockApi.js:173-179 | the stored list becomes `WithoutPlaylist` of the old one (a missing key read as empty), and the result is true even when nothing matched |
| DataStore.ReplaceById | src/contexts/DataContext.jsx:43 | same length; exactly the entries with the returned playlist's id are replaced, the others unchanged |
| DataStore.ReplaceByIdIdempotent | src/contexts/DataContext.jsx:43 | replacing twice is replacing once |
| DataStore.ReplaceByIdAbsent | src/contexts/DataContext.jsx:43 | a list without the id is unchanged |
| DataStore.ReplaceByIdAppend | src/contexts/DataContext.jsx:43 | replacement distributes over concatenation |
| DataStore.TailOwnedLacksHeadId | src/api/mockApi.js:120 | with distinct ids, no playlist of an owner's list of the tail shares the first playlist's id |
| DataStore.ReplaceAtHead | src/contexts/DataContext.jsx:43 | replacing the store's first playlist in the owner's list equals loading the owner's list of the store with it replaced |
| DataStore.ReplaceMirrorsStore | src/contexts/DataContext.jsx:41-44 | replacing a record in an owner's loaded list equals loading that owner's list from the store with the record replaced |
| DataStore.AddKeepsClientInStep | src/contexts/DataContext.jsx:41-44 | after a successful add on the mock backend, the client's replaced list equals a fresh load of the owner's playlists |
| DataStore.CreateOrderAgainstReload | src/contexts/DataContext.jsx:35-39 | the client puts a new playlist first while a reload lists it last; both hold the same playlists |
| DataStore.DataStore.constructor | src/contexts/DataContext.jsx:9-11 | empty lists, not loading |
| DataStore.DataStore.LoadSongs | src/contexts/DataContext.jsx:13-18 | songs are replaced wholesale and loading ends false; a failed call leaves loading set and songs alone |
| DataStore.DataStore.LoadPlaylists | src/contexts/DataContext.jsx:19-25 | without a user the list is emptied and the backend is not called; with one, the backend is asked for the user's id and its answer replaces the list, loading ending false |
| DataStore.DataStore.CreatePlaylist | src/contexts/DataContext.jsx:35-39 | the created playlist goes in front of the previous ones, which keep their order, and is returned |
| DataStore.DataStore.AddSongToPlaylist | src/contexts/DataContext.jsx:41-44 | the list becomes `ReplaceById` of the returned playlist; a failed call changes nothing |
| DataStore.DataStore.ToggleLike | src/contexts/DataContext.jsx:46-56 | the returned liked list is written into the stored session record only when one exists, and returned; a failed call changes nothing |
| PlayerBar.Trunc | src/components/PlayerBar.jsx:21 | truncation is the floor for non-negative numbers and minus the floor of the negation for negative ones |
| PlayerBar.JsRem | src/components/PlayerBar.jsx:21 | JavaScript `%`: dividend equals divisor times the truncated quotient plus the remainder; for a positive divisor the remainder lies in `[0, m)` for a non-negative dividend and in `(-m, 0]` for a negative one |
| PlayerBar.JsRemBounds | src/components/PlayerBar.jsx:21 | the remainder bounds, on the dividend's side of zero |
| PlayerBar.PadStart2 | src/components/PlayerBar.jsx:22 | a text of two or more characters is kept, a shorter one is zero-filled on the left to two characters |
| PlayerBar.FormatTime | src/components/PlayerBar.jsx:18-23 | `0:00` for a missing, NaN or zero input |
| PlayerBar.ClockParts | src/components/PlayerBar.jsx:20-21 | for a positive input, `floor(s/60)` is non-negative, `floor(s % 60)` lies in 0..59, and 60 times the first plus the second is `floor(s)` |
| PlayerBar.ClockTextReads | src/components/PlayerBar.jsx:22 | minutes, a colon and padded seconds below 60 form a clock text that reads back as those minutes and that total |
| PlayerBar.PaddedSeconds | src/components/PlayerBar.jsx:21-22 | a seconds value below 60 is rendered as two digits that read back as the value |
| PlayerBar.FormatTimePositive | src/components/PlayerBar.jsx:18-23 | for a positive input the text is minutes `floor(s/60)`, a colon and two second digits below 60, totalling `floor(s)` |
| PlayerBar.FormatTimeWhole | src/components/PlayerBar.jsx:18-23 | a whole number of seconds reads back exactly from the clock text |
| PlayerBar.ElapsedWholeSeconds | src/components/PlayerBar.jsx:18-23 | a player time of a whole number of seconds is shown as that number |
| PlayerBar.SongState | src/components/PlayerBar.jsx:15-16 | never empty: the catalogue's state for the song, else the song's own, else `none` |
| PlayerBar.SongStateOfCatalogued | src/components/PlayerBar.jsx:15-16 | when the catalogue's entry is the loaded record, the record's own state or `none` is shown |
| PlayerBar.IconFor | src/components/PlayerBar.jsx:127 | mute exactly at volume 0, low exactly below 0.5 otherwise, loud exactly from 0.5 |
| PlayerBar.IconMonotone | src/components/PlayerBar.jsx:127 | over the slider's range the icon never drops as the volume rises |
| PlayerBar.View | src/components/PlayerBar.jsx:12-23 | nothing exactly when no song is loaded; otherwise the song's like-state, clock texts and volume icon |
| PlayerBar.ToggleClick | src/components/PlayerBar.jsx:32-48 | without a user nothing is called; with one the toggle for the loaded song is called and a failure is logged, never rethrown |
| PlaylistCard.Resolve | src/components/PlaylistCard.jsx:10 | one id yields one song exactly when the catalogue has a song with that id, nothing otherwise, and what it yields is a catalogue song with that id |
| PlaylistCard.PlaylistSongs | src/components/PlaylistCard.jsx:10 | the resolved list is no longer than the id list |
| PlaylistCard.PlaylistSongsFromCatalog | src/components/PlaylistCard.jsx:10 | every resolved entry is a catalogue song |
| PlaylistCard.PlaylistSongsAllKnown | src/components/PlaylistCard.jsx:10 | when every id is known, one entry per id, each the first catalogue song with that id |
| PlaylistCard.PlaylistSongsSingle | src/components/PlaylistCard.jsx:10 | one id gives its first catalogue song, or nothing when unknown |
| PlaylistCard.PlaylistSongsAppend | src/components/PlaylistCard.jsx:10 | the join distributes over concatenation, so it follows the order of the ids |
| PlaylistCard.DuplicateIdShownTwice | src/components/PlaylistCard.jsx:10 | an id listed twice yields its song twice |
| PlaylistCard.UnknownIdsDropped | src/components/PlaylistCard.jsx:10 | ids the catalogue does not know yield nothing |
| PlaylistCard.Card.constructor | src/components/PlaylistCard.jsx:7 | nothing is selected |
| PlaylistCard.Card.Select | src/components/PlaylistCard.jsx:38 | the picked value becomes the selection |
| PlaylistCard.Card.AddSelected | src/components/PlaylistCard.jsx:12-17 | without a user `Please login` is alerted first; with no (or an empty) selection `Choose a song`; otherwise the selection is added to this playlist and reset, except that a failed add throws and keeps it |

## Left out

- Network and storage: `fetch`, URLs, the interaction-reporting calls, `localStorage` and JSON encoding. The store is fields, reports are an event log, responses are parameters.
- Timers and React lifecycle: `setInterval`, effect scheduling and stale closures. The interval is the explicit `Tick` step and handlers act on the current state in sequence.
- Async interleavings: concurrent requests and their races.
- Floating-point time: the player counts whole tenths. The seek and progress percentages computed from mouse position and duration are left out.
- `delay()` and uuid generation: fresh ids are parameters.
- Pages, navigation, forms, the create-playlist modal, the auth context and the API re-export table: UI, routing and wiring only.
- The calls across modules that do not resolve (the data context asks the API wrapper for a like toggle it does not export, and the player bar uses a dislike toggle the data context does not provide): each call is a parameter holding what it resolved to or threw.
- `raw`, the copy of the backend record that `transformTrack` keeps: it is not read anywhere in the modelled code.
- The real client's endpoints other than the request wrapper and `getSongs` (register, login, the playlist endpoints, `sendInteraction`) are not modelled. Among them, `addSongToPlaylist` and `removeSongFromPlaylist` make three calls in sequence: the POST or DELETE; an awaited interaction report that rethrows its failure, so a failed report fails the whole call; and a re-fetch that returns the playlist's transformed tracks, not a playlist. `getPlaylistsByUser` and `createPlaylist` ignore the user and owner ids. `src/services/api.js` wires in these real endpoints, but the backend parameters of the data store (`DataStore.DataStore.LoadPlaylists`, `CreatePlaylist`, `AddSongToPlaylist`, `ToggleLike`) take the mock backend's return shapes (`MockBackend`), which is what its handlers were written against.
- Tracks.TransformTrack: a backend duration is an integer number of milliseconds; a non-integral or `null` value (which JavaScript turns into 0) is not modelled.
- PlaybackSpec.LoadSong: React re-runs the effect when a different object with equal fields is set; the model compares values, so such a re-set is a no-op here.
- PlayerBar.FormatTime: infinite inputs are not modelled.
- MockBackend.MockStore.EnsureInitialData: a key holding a stored value that parses to something falsy (`0`, `false`, `""`) is treated as present.
- No clamping and no index realignment: `seek` and `changeVolume` store their argument unclamped, and `playSong` without a queue keeps the old queue index even when it no longer points at the loaded song (`PlaybackSpec.SeekTo`, `PlaybackSpec.ChangeVolume`, `PlaybackSpec.IndexMayNotMatchSong`).

## Findings

| source | as written | input that shows it | evidently intended | confidence | as-written member | corrected member |
|---|---|---|---|---|---|---|
| src/api/realApi.js:5-12 | `getToken` returns the whole parsed session record, and `apiRequest` interpolates it, so the header is `Authorization: Bearer [object Object]` | a stored session `{"id":"u1","username":"alice","token":"abc"}` sends `Bearer [object Object]` | return the record's `token`, sending `Bearer abc` | not executed | Gateway.AsWrittenHeaderLosesToken | Gateway.GetToken |
