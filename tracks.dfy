/** Track records from the real backend (src/api/realApi.js): their
    normalisation into the application's `Track` shape and the removal of
    repeated ids when the whole catalogue is listed. */
module Tracks {
  import opened Base
  import opened Entities

  /** A track as the backend sends it. Absent string fields are `""`; an
      absent `duration_ms` is `None`. */
  datatype BackendTrack = BackendTrack(
    trackId: string,
    trackName: string,
    artists: string,
    albumName: string,
    coverUrl: string,
    durationMs: Option<int>,
    popularity: Option<int>,
    explicit: Option<bool>,
    trackGenre: string,
    interactionState: string)

  /** Placeholder cover used when the backend gives none. */
  const DefaultCover: string := "/image.jpeg"

  /** Placeholder interaction state used when the backend gives none. */
  const NoState: string := "none"

  /** `transformTrack`: rename the backend fields, turn milliseconds into whole
      seconds rounding down, and fill in the cover and state defaults. */
  function TransformTrack(t: BackendTrack): (r: Track)
    ensures r.id == t.trackId
    ensures r.duration.Some? <==> t.durationMs.Some?
    ensures r.duration.Some? ==>
      r.duration.value * 1000 <= t.durationMs.value < r.duration.value * 1000 + 1000
    ensures r.cover != "" && (t.coverUrl != "" ==> r.cover == t.coverUrl)
    ensures t.coverUrl == "" ==> r.cover == DefaultCover
    ensures r.state != "" && (t.interactionState != "" ==> r.state == t.interactionState)
    ensures t.interactionState == "" ==> r.state == NoState
  {
    Track(
      id := t.trackId,
      title := t.trackName,
      artist := t.artists,
      album := t.albumName,
      cover := if t.coverUrl != "" then t.coverUrl else DefaultCover,
      duration := if t.durationMs.Some? then Some(t.durationMs.value / 1000) else None,
      popularity := t.popularity,
      explicit := t.explicit,
      genre := t.trackGenre,
      state := if t.interactionState != "" then t.interactionState else NoState)
  }

  /** The ids occurring in a list of backend tracks. */
  function IdSet(ts: seq<BackendTrack>): set<string> {
    set t | t in ts :: t.trackId
  }

  /** No id occurs twice. */
  predicate DistinctIds(ts: seq<BackendTrack>) {
    forall i, j :: 0 <= i < j < |ts| ==> ts[i].trackId != ts[j].trackId
  }

  /** The position of the first track with id `id`, or `|ts|` if there is none. */
  function FirstIndex(ts: seq<BackendTrack>, id: string): (i: nat)
    ensures i <= |ts|
    ensures i < |ts| ==> ts[i].trackId == id
    ensures i == |ts| <==> id !in IdSet(ts)
    ensures forall j :: 0 <= j < i ==> ts[j].trackId != id
  {
    if |ts| == 0 then 0
    else if ts[0].trackId == id then 0
    else
      assert IdSet(ts) == {ts[0].trackId} + IdSet(ts[1..]) by {
        assert forall t :: t in ts <==> t == ts[0] || t in ts[1..];
      }
      1 + FirstIndex(ts[1..], id)
  }

  /** The filter of `getSongs` started with `seen` already holding some ids:
      a track is kept when its id has not been seen, and its id is seen from
      then on. */
  function DedupFrom(ts: seq<BackendTrack>, seen: set<string>): (r: seq<BackendTrack>)
    ensures |r| <= |ts|
  {
    if ts == [] then []
    else if ts[0].trackId in seen then DedupFrom(ts[1..], seen)
    else [ts[0]] + DedupFrom(ts[1..], seen + {ts[0].trackId})
  }

  lemma IdSetCons(ts: seq<BackendTrack>)
    requires ts != []
    ensures IdSet(ts) == {ts[0].trackId} + IdSet(ts[1..])
  {
    assert forall t :: t in ts <==> t == ts[0] || t in ts[1..];
  }

  lemma FirstIndexTail(ts: seq<BackendTrack>, id: string)
    requires ts != [] && ts[0].trackId != id
    ensures FirstIndex(ts, id) == 1 + FirstIndex(ts[1..], id)
    ensures FirstIndex(ts, id) < |ts| ==> ts[FirstIndex(ts, id)] == ts[1..][FirstIndex(ts[1..], id)]
  {
  }

  /** Each element of `r` has an id outside `seen` and is the first track of
      `ts` with that id. */
  predicate AllFirstOccurrences(ts: seq<BackendTrack>, r: seq<BackendTrack>, seen: set<string>) {
    forall k :: 0 <= k < |r| ==>
      r[k].trackId !in seen && FirstIndex(ts, r[k].trackId) < |ts| &&
      ts[FirstIndex(ts, r[k].trackId)] == r[k]
  }

  /** Every kept track is the first track of the input with its id. */
  lemma {:induction false} DedupFromFirst(ts: seq<BackendTrack>, seen: set<string>)
    ensures AllFirstOccurrences(ts, DedupFrom(ts, seen), seen)
  {
    if ts != [] {
      var t, rest := ts[0], ts[1..];
      var r := DedupFrom(ts, seen);
      if t.trackId in seen {
        var tail := DedupFrom(rest, seen);
        DedupFromFirst(rest, seen);
        assert r == tail;
        forall k | 0 <= k < |r|
          ensures r[k].trackId !in seen && FirstIndex(ts, r[k].trackId) < |ts|
          ensures ts[FirstIndex(ts, r[k].trackId)] == r[k]
        {
          assert r[k] == tail[k];
          assert tail[k].trackId !in seen;
          FirstIndexTail(ts, r[k].trackId);
        }
      } else {
        var tail := DedupFrom(rest, seen + {t.trackId});
        DedupFromFirst(rest, seen + {t.trackId});
        assert r == [t] + tail;
        forall k | 0 < k < |r|
          ensures r[k].trackId !in seen && FirstIndex(ts, r[k].trackId) < |ts|
          ensures ts[FirstIndex(ts, r[k].trackId)] == r[k]
        {
          assert r[k] == tail[k - 1];
          assert tail[k - 1].trackId !in seen + {t.trackId};
          FirstIndexTail(ts, r[k].trackId);
        }
      }
    }
  }

  /** The elements of `r` come in the order in which their ids first occur in `ts`. */
  predicate InFirstOccurrenceOrder(ts: seq<BackendTrack>, r: seq<BackendTrack>) {
    forall i, j :: 0 <= i < j < |r| ==>
      FirstIndex(ts, r[i].trackId) < FirstIndex(ts, r[j].trackId)
  }

  /** Order, when the first track is dropped: the kept tracks are those of
      the tail. */
  lemma OrderAfterSkip(ts: seq<BackendTrack>, seen: set<string>)
    requires ts != [] && ts[0].trackId in seen
    requires InFirstOccurrenceOrder(ts[1..], DedupFrom(ts[1..], seen))
    requires AllFirstOccurrences(ts[1..], DedupFrom(ts[1..], seen), seen)
    ensures InFirstOccurrenceOrder(ts, DedupFrom(ts, seen))
  {
    var r := DedupFrom(ts, seen);
    assert r == DedupFrom(ts[1..], seen);
    forall i, j | 0 <= i < j < |r|
      ensures FirstIndex(ts, r[i].trackId) < FirstIndex(ts, r[j].trackId)
    {
      FirstIndexTail(ts, r[i].trackId);
      FirstIndexTail(ts, r[j].trackId);
    }
  }

  /** Order, when the first track is kept: it comes first, at position 0 of
      the input, and the rest are those of the tail. */
  lemma OrderAfterKeep(ts: seq<BackendTrack>, seen: set<string>)
    requires ts != [] && ts[0].trackId !in seen
    requires InFirstOccurrenceOrder(ts[1..], DedupFrom(ts[1..], seen + {ts[0].trackId}))
    requires AllFirstOccurrences(ts[1..], DedupFrom(ts[1..], seen + {ts[0].trackId}), seen + {ts[0].trackId})
    ensures InFirstOccurrenceOrder(ts, DedupFrom(ts, seen))
  {
    var t := ts[0];
    var tail := DedupFrom(ts[1..], seen + {t.trackId});
    var r := DedupFrom(ts, seen);
    assert r == [t] + tail;
    forall i, j | 0 <= i < j < |r|
      ensures FirstIndex(ts, r[i].trackId) < FirstIndex(ts, r[j].trackId)
    {
      assert r[j] == tail[j - 1];
      assert r[j].trackId != t.trackId && FirstIndex(ts[1..], r[j].trackId) < |ts[1..]|;
      FirstIndexTail(ts, r[j].trackId);
      if i == 0 {
        assert FirstIndex(ts, r[i].trackId) == 0;
      } else {
        assert r[i] == tail[i - 1];
        assert r[i].trackId != t.trackId;
        assert FirstIndex(ts[1..], r[i].trackId) < FirstIndex(ts[1..], r[j].trackId);
        FirstIndexTail(ts, r[i].trackId);
      }
    }
  }

  /** Kept tracks come in the order of their first occurrences. */
  lemma {:induction false} DedupFromOrder(ts: seq<BackendTrack>, seen: set<string>)
    ensures InFirstOccurrenceOrder(ts, DedupFrom(ts, seen))
  {
    if ts != [] {
      var t := ts[0];
      if t.trackId in seen {
        DedupFromOrder(ts[1..], seen);
        DedupFromFirst(ts[1..], seen);
        OrderAfterSkip(ts, seen);
      } else {
        DedupFromOrder(ts[1..], seen + {t.trackId});
        DedupFromFirst(ts[1..], seen + {t.trackId});
        OrderAfterKeep(ts, seen);
      }
    }
  }

  /** The kept ids are exactly the input ids not seen beforehand. */
  lemma {:induction false} DedupFromIds(ts: seq<BackendTrack>, seen: set<string>)
    ensures IdSet(DedupFrom(ts, seen)) == IdSet(ts) - seen
  {
    if ts != [] {
      var t, rest := ts[0], ts[1..];
      IdSetCons(ts);
      if t.trackId in seen {
        DedupFromIds(rest, seen);
      } else {
        var r := DedupFrom(ts, seen);
        var tail := DedupFrom(rest, seen + {t.trackId});
        DedupFromIds(rest, seen + {t.trackId});
        assert r == [t] + tail;
        IdSetCons(r);
        assert r[1..] == tail;
      }
    }
  }

  /** One step of the filter at position `i`: a track whose id was seen is
      dropped, any other is kept, and its id is seen afterwards. */
  lemma DedupFromStep(ts: seq<BackendTrack>, i: nat, seen: set<string>, done: seq<BackendTrack>)
    requires i < |ts|
    ensures ts[i].trackId in seen ==>
      done + DedupFrom(ts[i..], seen) == done + DedupFrom(ts[i + 1..], seen + {ts[i].trackId})
    ensures ts[i].trackId !in seen ==>
      done + DedupFrom(ts[i..], seen) == (done + [ts[i]]) + DedupFrom(ts[i + 1..], seen + {ts[i].trackId})
  {
    assert ts[i..][0] == ts[i] && ts[i..][1..] == ts[i + 1..];
    if ts[i].trackId in seen {
      assert seen + {ts[i].trackId} == seen;
    } else {
      var rest := DedupFrom(ts[i + 1..], seen + {ts[i].trackId});
      assert done + ([ts[i]] + rest) == (done + [ts[i]]) + rest;
    }
  }

  /** Input that has no repeated id, none of them seen, passes unchanged. */
  lemma {:induction false} DedupFromDistinct(ts: seq<BackendTrack>, seen: set<string>)
    ensures DistinctIds(ts) && IdSet(ts) !! seen ==> DedupFrom(ts, seen) == ts
  {
    if ts != [] && DistinctIds(ts) && IdSet(ts) !! seen {
      IdSetCons(ts);
      var t := ts[0];
      assert t.trackId !in IdSet(ts[1..]) by {
        forall j | 0 <= j < |ts[1..]| ensures ts[1..][j].trackId != t.trackId {
          assert ts[1..][j] == ts[j + 1];
        }
      }
      DedupFromDistinct(ts[1..], seen + {t.trackId});
    }
  }

  /** The de-duplicated track list of `getSongs`. */
  function Dedup(ts: seq<BackendTrack>): (r: seq<BackendTrack>)
    ensures |r| <= |ts|
  {
    DedupFrom(ts, {})
  }

  /** De-duplication keeps exactly the first occurrence of each id, in input
      order: the result has distinct ids, loses no id, is no longer than the
      input, and leaves input with distinct ids unchanged. */
  lemma DedupSpec(ts: seq<BackendTrack>)
    ensures var r := Dedup(ts);
      && (forall k :: 0 <= k < |r| ==>
            FirstIndex(ts, r[k].trackId) < |ts| && ts[FirstIndex(ts, r[k].trackId)] == r[k])
      && (forall i, j :: 0 <= i < j < |r| ==>
            FirstIndex(ts, r[i].trackId) < FirstIndex(ts, r[j].trackId))
      && DistinctIds(r)
      && IdSet(r) == IdSet(ts)
      && |r| <= |ts|
      && (DistinctIds(ts) ==> r == ts)
  {
    DedupFromFirst(ts, {});
    DedupFromOrder(ts, {});
    DedupFromIds(ts, {});
    DedupFromDistinct(ts, {});
  }

  /** The de-duplicated list has no repeated id. */
  lemma DedupDistinct(ts: seq<BackendTrack>)
    ensures DistinctIds(Dedup(ts))
  {
    DedupFromOrder(ts, {});
  }

  /** Running the filter a second time changes nothing. */
  lemma DedupIdempotent(ts: seq<BackendTrack>)
    ensures Dedup(Dedup(ts)) == Dedup(ts)
  {
    DedupSpec(ts);
    DedupSpec(Dedup(ts));
  }

  /** The filter of `getSongs` as the source runs it: one pass, a mutable set of
      ids already seen. */
  method UniqueTracks(tracks: seq<BackendTrack>) returns (unique: seq<BackendTrack>)
    ensures unique == Dedup(tracks)
  {
    var seen: set<string> := {};
    unique := [];
    var i := 0;
    while i < |tracks|
      invariant 0 <= i <= |tracks|
      invariant unique + DedupFrom(tracks[i..], seen) == Dedup(tracks)
    {
      var isDuplicate := tracks[i].trackId in seen;
      DedupFromStep(tracks, i, seen, unique);
      seen := seen + {tracks[i].trackId};
      if !isDuplicate {
        unique := unique + [tracks[i]];
      }
      i := i + 1;
    }
    assert tracks[i..] == [];
  }

  /** `getSongs`: the response body (`null` read as `[]`), de-duplicated by id,
      each track normalised. */
  method GetSongs(data: Option<seq<BackendTrack>>) returns (songs: seq<Track>)
    ensures var u := Dedup(data.GetOr([]));
      |songs| == |u| && forall k :: 0 <= k < |u| ==> songs[k] == TransformTrack(u[k])
    ensures forall i, j :: 0 <= i < j < |songs| ==> songs[i].id != songs[j].id
    ensures forall t :: t in data.GetOr([]) ==> exists k :: 0 <= k < |songs| && songs[k].id == t.trackId
  {
    var tracks := data.GetOr([]);
    var unique := UniqueTracks(tracks);
    DedupDistinct(tracks);
    DedupFromIds(tracks, {});
    songs := seq(|unique|, k requires 0 <= k < |unique| => TransformTrack(unique[k]));
    forall t | t in tracks
      ensures exists k :: 0 <= k < |songs| && songs[k].id == t.trackId
    {
      assert t.trackId in IdSet(unique);
      var u :| u in unique && u.trackId == t.trackId;
      var k :| 0 <= k < |unique| && unique[k] == u;
      assert songs[k].id == t.trackId;
    }
  }
}
