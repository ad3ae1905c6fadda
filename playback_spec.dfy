/** The playback state machine of src/contexts/PlayerContext.jsx as pure
    transitions over a state value. Time is counted in integer tenths of a
    second (the interval adds 0.1 s every 100 ms). Outgoing interaction
    reports are appended to `log` instead of being sent. */
module PlaybackSpec {
  import opened Base
  import opened Entities

  /** The interaction types the player reports. */
  datatype Interaction = Play | Pause | Resume | Seek | Skip | Previous | Completed | Repeat | Like | Unlike

  datatype Event = Event(songId: string, kind: Interaction)

  datatype PlayerState = PlayerState(
    current: Option<Track>,
    playing: bool,
    time: int,       // tenths of a second
    duration: int,   // tenths of a second
    volume: real,
    queue: seq<Track>,
    index: int,      // -1 when nothing in the queue is selected
    repeat: bool,
    log: seq<Event>)

  const InitialVolume: real := 0.7

  /** "More than 3 seconds in", in tenths. */
  const RestartThreshold: int := 30

  function Initial(): (s: PlayerState)
    ensures s.current.None? && !s.playing && s.time == 0 && s.duration == 0
    ensures s.queue == [] && s.index == -1 && !s.repeat && s.log == []
  {
    PlayerState(None, false, 0, 0, InitialVolume, [], -1, false, [])
  }

  /** The queue index always points into the queue or is -1. */
  predicate QueueIndexOk(s: PlayerState) {
    -1 <= s.index < |s.queue|
  }

  /** `song.duration || 0`, in tenths. */
  function DurationOf(song: Track): (d: int)
    ensures song.duration.Some? ==> d == song.duration.value * 10
    ensures song.duration.None? ==> d == 0
  {
    song.duration.GetOr(0) * 10
  }

  /** The report of `kind` for the loaded song, if there is one. */
  function ReportFor(s: PlayerState, kind: Interaction): (e: seq<Event>)
    ensures s.current.None? ==> e == []
    ensures s.current.Some? ==> e == [Event(s.current.value.id, kind)]
  {
    if s.current.Some? then [Event(s.current.value.id, kind)] else []
  }

  /** The effect that runs when the current song changes to `song`: duration
      taken from the song, time back to 0, a `play` report. Setting the song
      that is already loaded does not trigger it. */
  function LoadSong(s: PlayerState, song: Track): (r: PlayerState)
    ensures r.current == Some(song)
    ensures r.playing == s.playing && r.queue == s.queue && r.index == s.index
    ensures r.repeat == s.repeat && r.volume == s.volume
    ensures s.current == Some(song) ==> r == s
    ensures s.current != Some(song) ==>
      r.time == 0 && r.duration == DurationOf(song) && r.log == s.log + [Event(song.id, Play)]
  {
    if s.current == Some(song) then s
    else s.(current := Some(song), duration := DurationOf(song), time := 0,
            log := s.log + [Event(song.id, Play)])
  }

  /** `playSong(song, newQueue)`. */
  function PlaySong(s: PlayerState, song: Track, newQueue: Option<seq<Track>>): (r: PlayerState)
    requires QueueIndexOk(s)
    ensures QueueIndexOk(r)
    ensures r.current == Some(song) && r.playing
    ensures newQueue.Some? ==> r.queue == newQueue.value
    ensures newQueue.Some? ==>
      (r.index == -1 <==> forall j :: 0 <= j < |r.queue| ==> r.queue[j].id != song.id)
    ensures newQueue.Some? && r.index >= 0 ==>
      r.queue[r.index].id == song.id && forall j :: 0 <= j < r.index ==> r.queue[j].id != song.id
    ensures newQueue.None? ==> r.queue == s.queue && r.index == s.index
    ensures r.repeat == s.repeat && r.volume == s.volume
    ensures s.current == Some(song) ==> r.duration == s.duration
    ensures s.current != Some(song) ==>
      r.time == 0 && r.duration == DurationOf(song) && r.log == s.log + [Event(song.id, Play)]
    ensures s.current == Some(song) ==> r.time == s.time && r.log == s.log
  {
    var q := if newQueue.Some? then newQueue.value else s.queue;
    var i := if newQueue.Some? then FindIndexById(newQueue.value, song.id) else s.index;
    LoadSong(s.(playing := true, queue := q, index := i), song)
  }

  /** `togglePlayPause`. */
  function TogglePlayPause(s: PlayerState): (r: PlayerState)
    requires QueueIndexOk(s)
    ensures QueueIndexOk(r)
    ensures r.playing == !s.playing
    ensures r == s.(playing := r.playing, log := r.log)
    ensures r.log == s.log + ReportFor(s, if r.playing then Resume else Pause)
  {
    var newIsPlaying := !s.playing;
    s.(playing := newIsPlaying, log := s.log + ReportFor(s, if newIsPlaying then Resume else Pause))
  }

  /** `seek(t)`: the time is set to exactly `t`, with no clamping. */
  function SeekTo(s: PlayerState, t: int): (r: PlayerState)
    requires QueueIndexOk(s)
    ensures QueueIndexOk(r)
    ensures r.time == t
    ensures r == s.(time := t, log := r.log)
    ensures r.log == s.log + ReportFor(s, Interaction.Seek)
  {
    s.(time := t, log := s.log + ReportFor(s, Interaction.Seek))
  }

  /** `changeVolume(v)`: stored as given, with no clamping. */
  function ChangeVolume(s: PlayerState, v: real): (r: PlayerState)
    requires QueueIndexOk(s)
    ensures QueueIndexOk(r)
    ensures r.volume == v && r == s.(volume := v)
  {
    s.(volume := v)
  }

  /** There is a song after the selected one. */
  predicate HasNext(s: PlayerState) {
    |s.queue| > 0 && s.index < |s.queue| - 1
  }

  /** `playNext`: step forward in the queue, reporting `skip` for the song
      being left; at the end of the queue nothing changes. */
  function PlayNext(s: PlayerState): (r: PlayerState)
    requires QueueIndexOk(s)
    ensures QueueIndexOk(r)
    ensures r.queue == s.queue && r.repeat == s.repeat && r.volume == s.volume
    ensures HasNext(s) ==>
      && r.index == s.index + 1 && r.current == Some(s.queue[s.index + 1]) && r.playing
    ensures HasNext(s) && s.current != Some(s.queue[s.index + 1]) ==>
      && r.time == 0 && r.duration == DurationOf(s.queue[s.index + 1])
      && r.log == s.log + ReportFor(s, Skip) + [Event(s.queue[s.index + 1].id, Play)]
    ensures HasNext(s) && s.current == Some(s.queue[s.index + 1]) ==>
      r.time == s.time && r.duration == s.duration && r.log == s.log + ReportFor(s, Skip)
    ensures !HasNext(s) ==> r == s
  {
    if HasNext(s) then
      var nextIndex := s.index + 1;
      LoadSong(s.(index := nextIndex, playing := true, log := s.log + ReportFor(s, Skip)),
               s.queue[nextIndex])
    else s
  }

  /** `playPrevious`: step back in the queue reporting `previous`; failing
      that, restart the song when more than 3 seconds in; else nothing. */
  function PlayPrevious(s: PlayerState): (r: PlayerState)
    requires QueueIndexOk(s)
    ensures QueueIndexOk(r)
    ensures r.queue == s.queue && r.repeat == s.repeat && r.volume == s.volume
    ensures s.index > 0 ==>
      && r.index == s.index - 1 && r.current == Some(s.queue[s.index - 1]) && r.playing
    ensures s.index > 0 && s.current != Some(s.queue[s.index - 1]) ==>
      && r.time == 0 && r.duration == DurationOf(s.queue[s.index - 1])
      && r.log == s.log + ReportFor(s, Previous) + [Event(s.queue[s.index - 1].id, Play)]
    ensures s.index > 0 && s.current == Some(s.queue[s.index - 1]) ==>
      r.time == s.time && r.duration == s.duration && r.log == s.log + ReportFor(s, Previous)
    ensures s.index <= 0 && s.time > RestartThreshold ==> r == SeekTo(s, 0) && r.index == s.index && r.time == 0
    ensures s.index <= 0 && s.time <= RestartThreshold ==> r == s
  {
    if |s.queue| > 0 && s.index > 0 then
      var prevIndex := s.index - 1;
      LoadSong(s.(index := prevIndex, playing := true, log := s.log + ReportFor(s, Previous)),
               s.queue[prevIndex])
    else if s.time > RestartThreshold then SeekTo(s, 0)
    else s
  }

  /** `handleSongEnd` for the loaded song: report `completed`; with repeat on,
      restart it and report `repeat`; otherwise stop and try the next song. */
  function SongEnd(s: PlayerState): (r: PlayerState)
    requires QueueIndexOk(s) && s.current.Some?
    ensures QueueIndexOk(r)
    ensures r.queue == s.queue && r.repeat == s.repeat && r.volume == s.volume
    ensures s.repeat ==>
      && r.current == s.current && r.time == 0 && r.duration == s.duration && r.playing && r.index == s.index
      && r.log == s.log + [Event(s.current.value.id, Completed), Event(s.current.value.id, Repeat)]
    ensures !s.repeat && !HasNext(s) ==>
      && r.current == s.current && !r.playing && r.time == s.time && r.duration == s.duration && r.index == s.index
      && r.log == s.log + [Event(s.current.value.id, Completed)]
    ensures !s.repeat && HasNext(s) ==>
      r.index == s.index + 1 && r.current == Some(s.queue[s.index + 1]) && r.playing
    ensures !s.repeat && HasNext(s) && s.current != Some(s.queue[s.index + 1]) ==>
      && r.time == 0 && r.duration == DurationOf(s.queue[s.index + 1])
      && r.log == s.log + [Event(s.current.value.id, Completed), Event(s.current.value.id, Skip),
                           Event(s.queue[s.index + 1].id, Play)]
    ensures !s.repeat && HasNext(s) && s.current == Some(s.queue[s.index + 1]) ==>
      && r.time == s.time && r.duration == s.duration
      && r.log == s.log + [Event(s.current.value.id, Completed), Event(s.current.value.id, Skip)]
  {
    var id := s.current.value.id;
    var ended := s.(log := s.log + [Event(id, Completed)]);
    if s.repeat then
      ended.(time := 0, playing := true, log := ended.log + [Event(id, Repeat)])
    else
      PlayNext(ended.(playing := false))
  }

  /** One firing of the 100 ms interval. It is armed only while a song is
      loaded and playing; it adds a tenth of a second, and once the new time
      reaches the duration the time is pinned there and the end of the song
      is handled. */
  function Tick(s: PlayerState): (r: PlayerState)
    requires QueueIndexOk(s)
    ensures QueueIndexOk(r)
    ensures !(s.playing && s.current.Some?) ==> r == s
    ensures s.playing && s.current.Some? && s.time + 1 < s.duration ==> r == s.(time := s.time + 1)
    ensures s.playing && s.current.Some? && s.time + 1 >= s.duration ==> r == SongEnd(s.(time := s.duration))
  {
    if !(s.playing && s.current.Some?) then s
    else
      var newTime := s.time + 1;
      if newTime >= s.duration then SongEnd(s.(time := s.duration))
      else s.(time := newTime)
  }

  /** `toggleRepeat`. */
  function ToggleRepeat(s: PlayerState): (r: PlayerState)
    requires QueueIndexOk(s)
    ensures QueueIndexOk(r)
    ensures r.repeat == !s.repeat && r == s.(repeat := r.repeat)
  {
    s.(repeat := !s.repeat)
  }

  /** `addToQueue(song)`: append, index unmoved. */
  function AddToQueue(s: PlayerState, song: Track): (r: PlayerState)
    requires QueueIndexOk(s)
    ensures QueueIndexOk(r)
    ensures r.queue == s.queue + [song] && r.index == s.index
    ensures r == s.(queue := r.queue)
  {
    s.(queue := s.queue + [song])
  }

  /** `clearQueue`: empty queue, index -1, the loaded song left alone. */
  function ClearQueue(s: PlayerState): (r: PlayerState)
    requires QueueIndexOk(s)
    ensures QueueIndexOk(r)
    ensures r.queue == [] && r.index == -1 && r.current == s.current
    ensures r == s.(queue := [], index := -1)
  {
    s.(queue := [], index := -1)
  }

  /** `handleLikeInteraction(songId, isLiked)`: report `like` or `unlike`. */
  function LikeInteraction(s: PlayerState, songId: string, isLiked: bool): (r: PlayerState)
    requires QueueIndexOk(s)
    ensures QueueIndexOk(r)
    ensures r == s.(log := s.log + [Event(songId, if isLiked then Like else Unlike)])
  {
    s.(log := s.log + [Event(songId, if isLiked then Like else Unlike)])
  }

  // ---------------------------------------------------------------- runs of ticks

  /** `n` firings of the interval in a row. */
  function Ticks(s: PlayerState, n: nat): (r: PlayerState)
    requires QueueIndexOk(s)
    ensures QueueIndexOk(r)
  {
    if n == 0 then s else Tick(Ticks(s, n - 1))
  }

  /** While the song has not reached its end, each tick only advances time. */
  lemma {:induction false} TicksWithinSong(s: PlayerState, k: nat)
    requires QueueIndexOk(s) && s.playing && s.current.Some?
    requires s.time + k < s.duration
    ensures Ticks(s, k) == s.(time := s.time + k)
  {
    if k > 0 {
      TicksWithinSong(s, k - 1);
    }
  }

  /** A playing song reaches its end after exactly `duration - time` ticks,
      and the end is then handled with the time pinned at the duration. */
  lemma TicksToEnd(s: PlayerState)
    requires QueueIndexOk(s) && s.playing && s.current.Some?
    requires s.time < s.duration
    ensures Ticks(s, s.duration - s.time) == SongEnd(s.(time := s.duration))
  {
    var k := s.duration - s.time - 1;
    TicksWithinSong(s, k);
    assert Ticks(s, k + 1) == Tick(s.(time := s.time + k));
  }

  /** Queue `[a, b]`, repeat off: `a` plays for its 30 s (300 ticks), then `b`
      is loaded from 0 and playing, with `completed` and `skip` reported for
      `a` and `play` for `b`. */
  lemma EndOfSongAdvances(a: Track, b: Track)
    requires a.duration == Some(30) && b.duration == Some(40) && a.id != b.id
    ensures var s := PlaySong(Initial(), a, Some([a, b]));
      var r := Ticks(s, 300);
      && r.current == Some(b) && r.playing && r.time == 0 && r.duration == 400 && r.index == 1
      && r.log == [Event(a.id, Play), Event(a.id, Completed), Event(a.id, Skip), Event(b.id, Play)]
  {
    var s := PlaySong(Initial(), a, Some([a, b]));
    assert s.index == 0 && s.time == 0 && s.duration == 300;
    TicksToEnd(s);
  }

  /** The same queue with repeat on: `a` restarts from 0 and keeps playing. */
  lemma EndOfSongRepeats(a: Track, b: Track)
    requires a.duration == Some(30) && b.duration == Some(40) && a.id != b.id
    ensures var s := PlaySong(ToggleRepeat(Initial()), a, Some([a, b]));
      var r := Ticks(s, 300);
      && r.current == Some(a) && r.playing && r.time == 0 && r.index == 0
      && r.log == [Event(a.id, Play), Event(a.id, Completed), Event(a.id, Repeat)]
  {
    var s := PlaySong(ToggleRepeat(Initial()), a, Some([a, b]));
    assert s.index == 0 && s.time == 0 && s.duration == 300 && s.repeat;
    TicksToEnd(s);
  }

  /** At the last song with repeat off, the end of the song stops playback
      and leaves the song and queue position where they were. */
  lemma EndOfQueueStops(s: PlayerState)
    requires QueueIndexOk(s) && s.playing && s.current.Some? && !s.repeat
    requires |s.queue| > 0 && s.index == |s.queue| - 1 && s.time < s.duration
    ensures var r := Ticks(s, s.duration - s.time);
      && !r.playing && r.current == s.current && r.index == s.index && r.time == s.duration
      && r.log == s.log + [Event(s.current.value.id, Completed)]
  {
    TicksToEnd(s);
  }

  /** The selected queue entry need not be the loaded song: playing a song
      without a queue keeps the old index. */
  lemma IndexMayNotMatchSong(a: Track, b: Track)
    requires a != b
    ensures var r := PlaySong(PlaySong(Initial(), a, Some([a])), b, None);
      r.index == 0 && r.current == Some(b) && r.queue[r.index] != b
  {
  }
}
