/** The records that travel between the backend, the contexts and the
    components. A field the backend may leave out is `""` (for strings, where
    the code only tests truthiness) or `None`. */
module Entities {
  import opened Base

  /** A track in the application's own shape (the output of `transformTrack`).
      `duration` is whole seconds; `None` stands for the `NaN` that a missing
      `duration_ms` produces. `state` is `"liked"`, `"disliked"`, `"none"` or
      `""` when absent. */
  datatype Track = Track(
    id: string,
    title: string,
    artist: string,
    album: string,
    cover: string,
    duration: Option<int>,
    popularity: Option<int>,
    explicit: Option<bool>,
    genre: string,
    state: string)

  /** A playlist as the mock backend stores it and the data context lists it:
      an ordered list of song ids. */
  datatype Playlist = Playlist(
    id: string,
    ownerId: string,
    name: string,
    description: string,
    songs: seq<string>)

  /** The signed-in user record kept under the `smf_auth_v1` storage key and
      exposed by the auth context: whatever the login call returned, plus the
      liked list the data context writes back into it. */
  datatype AuthRecord = AuthRecord(
    id: string,
    username: string,
    token: string,
    liked: Option<seq<string>>)

  /** `tracks.findIndex(s => s.id === id)`: the first position holding that
      id, or -1. */
  function FindIndexById(q: seq<Track>, id: string): (i: int)
    ensures -1 <= i < |q|
    ensures i == -1 <==> forall j :: 0 <= j < |q| ==> q[j].id != id
    ensures i >= 0 ==> q[i].id == id && forall j :: 0 <= j < i ==> q[j].id != id
  {
    if |q| == 0 then -1
    else if q[0].id == id then 0
    else
      var k := FindIndexById(q[1..], id);
      if k == -1 then -1 else k + 1
  }

  /** `tracks.find(s => s.id === id)`: the first track with that id. */
  function FindById(tracks: seq<Track>, id: string): (r: Option<Track>)
    ensures r.None? <==> forall j :: 0 <= j < |tracks| ==> tracks[j].id != id
    ensures r.Some? ==> r.value.id == id && r.value == tracks[FindIndexById(tracks, id)]
  {
    var i := FindIndexById(tracks, id);
    if i == -1 then None else Some(tracks[i])
  }
}
