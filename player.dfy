/** The player provider of src/contexts/PlayerContext.jsx as an object whose
    handlers update its fields in place. Each handler is proved to take the
    state to the transition of the same name in `PlaybackSpec`; the interval
    timer is the explicit `Tick` step. */
module PlayerContext {
  import opened Base
  import opened Entities
  import S = PlaybackSpec

  class Player {
    var currentSong: Option<Track>
    var isPlaying: bool
    var currentTime: int   // tenths of a second
    var duration: int      // tenths of a second
    var volume: real
    var queue: seq<Track>
    var queueIndex: int
    var repeat: bool
    var log: seq<S.Event>  // interaction reports, oldest first

    function State(): S.PlayerState
      reads this
    {
      S.PlayerState(currentSong, isPlaying, currentTime, duration, volume, queue, queueIndex, repeat, log)
    }

    predicate Valid()
      reads this
    {
      S.QueueIndexOk(State())
    }

    constructor ()
      ensures Valid() && State() == S.Initial()
    {
      currentSong := None;
      isPlaying := false;
      currentTime := 0;
      duration := 0;
      volume := S.InitialVolume;
      queue := [];
      queueIndex := -1;
      repeat := false;
      log := [];
    }

    /** `sendInteraction`: the report joins the log; a failed send is logged
        and swallowed, so nothing else changes. */
    method Report(id: string, kind: S.Interaction)
      modifies this`log
      ensures log == old(log) + [S.Event(id, kind)]
    {
      log := log + [S.Event(id, kind)];
    }

    /** The effect keyed on the current song: runs when it changes. */
    method SetCurrentSong(song: Track)
      requires Valid()
      modifies this
      ensures Valid() && State() == S.LoadSong(old(State()), song)
    {
      if currentSong != Some(song) {
        currentSong := Some(song);
        duration := song.duration.GetOr(0) * 10;
        currentTime := 0;
        Report(song.id, S.Play);
      }
    }

    method PlaySong(song: Track, newQueue: Option<seq<Track>>)
      requires Valid()
      modifies this
      ensures Valid() && State() == S.PlaySong(old(State()), song, newQueue)
    {
      isPlaying := true;
      if newQueue.Some? {
        queue := newQueue.value;
        queueIndex := FindIndexById(newQueue.value, song.id);
      }
      SetCurrentSong(song);
    }

    method TogglePlayPause()
      requires Valid()
      modifies this
      ensures Valid() && State() == S.TogglePlayPause(old(State()))
    {
      var newIsPlaying := !isPlaying;
      isPlaying := newIsPlaying;
      if currentSong.Some? {
        Report(currentSong.value.id, if newIsPlaying then S.Resume else S.Pause);
      }
    }

    method Seek(time: int)
      requires Valid()
      modifies this
      ensures Valid() && State() == S.SeekTo(old(State()), time)
    {
      currentTime := time;
      if currentSong.Some? {
        Report(currentSong.value.id, S.Interaction.Seek);
      }
    }

    method ChangeVolume(newVolume: real)
      requires Valid()
      modifies this
      ensures Valid() && State() == S.ChangeVolume(old(State()), newVolume)
    {
      volume := newVolume;
    }

    method PlayNext()
      requires Valid()
      modifies this
      ensures Valid() && State() == S.PlayNext(old(State()))
    {
      if |queue| > 0 && queueIndex < |queue| - 1 {
        var nextIndex := queueIndex + 1;
        queueIndex := nextIndex;
        isPlaying := true;
        if currentSong.Some? {
          Report(currentSong.value.id, S.Skip);
        }
        SetCurrentSong(queue[nextIndex]);
      }
    }

    method PlayPrevious()
      requires Valid()
      modifies this
      ensures Valid() && State() == S.PlayPrevious(old(State()))
    {
      if |queue| > 0 && queueIndex > 0 {
        var prevIndex := queueIndex - 1;
        queueIndex := prevIndex;
        isPlaying := true;
        if currentSong.Some? {
          Report(currentSong.value.id, S.Previous);
        }
        SetCurrentSong(queue[prevIndex]);
      } else if currentTime > S.RestartThreshold {
        Seek(0);
      }
    }

    method HandleSongEnd()
      requires Valid() && currentSong.Some?
      modifies this
      ensures Valid() && State() == S.SongEnd(old(State()))
    {
      var id := currentSong.value.id;
      Report(id, S.Completed);
      if repeat {
        currentTime := 0;
        isPlaying := true;
        Report(id, S.Repeat);
      } else {
        isPlaying := false;
        PlayNext();
      }
    }

    /** One firing of the 100 ms interval, which is armed only while a song is
        loaded and playing. */
    method Tick()
      requires Valid()
      modifies this
      ensures Valid() && State() == S.Tick(old(State()))
    {
      if isPlaying && currentSong.Some? {
        var newTime := currentTime + 1;
        if newTime >= duration {
          currentTime := duration;
          HandleSongEnd();
        } else {
          currentTime := newTime;
        }
      }
    }

    method ToggleRepeat()
      requires Valid()
      modifies this
      ensures Valid() && State() == S.ToggleRepeat(old(State()))
    {
      repeat := !repeat;
    }

    method AddToQueue(song: Track)
      requires Valid()
      modifies this
      ensures Valid() && State() == S.AddToQueue(old(State()), song)
    {
      queue := queue + [song];
    }

    method ClearQueue()
      requires Valid()
      modifies this
      ensures Valid() && State() == S.ClearQueue(old(State()))
    {
      queue := [];
      queueIndex := -1;
    }

    method HandleLikeInteraction(songId: string, isLiked: bool)
      requires Valid()
      modifies this
      ensures Valid() && State() == S.LikeInteraction(old(State()), songId, isLiked)
    {
      Report(songId, if isLiked then S.Like else S.Unlike);
    }
  }
}
