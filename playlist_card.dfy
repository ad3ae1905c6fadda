/** A playlist card (src/components/PlaylistCard.jsx): the join of the
    playlist's song ids against the loaded catalogue, and the add button with
    its two guards and the selection reset. */
module PlaylistCard {
  import opened Base
  import opened Entities

  /** The catalogue knows a song with this id. */
  predicate Known(catalog: seq<Track>, id: string) {
    FindById(catalog, id).Some?
  }

  /** What one id contributes: its first catalogue song, or nothing. */
  function Resolve(catalog: seq<Track>, id: string): (r: seq<Track>)
    ensures |r| <= 1
    ensures |r| == 1 <==> exists k :: 0 <= k < |catalog| && catalog[k].id == id
    ensures forall t :: t in r ==> t.id == id && t in catalog
  {
    var found := FindById(catalog, id);
    if found.Some? then [found.value] else []
  }

  /** `playlist.songs.map(id => songs.find(s => s.id === id)).filter(Boolean)`. */
  function PlaylistSongs(ids: seq<string>, catalog: seq<Track>): (r: seq<Track>)
    ensures |r| <= |ids|
  {
    if ids == [] then [] else Resolve(catalog, ids[0]) + PlaylistSongs(ids[1..], catalog)
  }

  /** Every resolved entry is a catalogue song. */
  lemma {:induction false} PlaylistSongsFromCatalog(ids: seq<string>, catalog: seq<Track>)
    ensures forall k :: 0 <= k < |PlaylistSongs(ids, catalog)| ==> PlaylistSongs(ids, catalog)[k] in catalog
  {
    if ids != [] {
      PlaylistSongsFromCatalog(ids[1..], catalog);
    }
  }

  /** When the catalogue knows every id, there is one entry per id, each the
      first catalogue song with that id. */
  lemma {:induction false} PlaylistSongsAllKnown(ids: seq<string>, catalog: seq<Track>)
    requires forall k :: 0 <= k < |ids| ==> Known(catalog, ids[k])
    ensures |PlaylistSongs(ids, catalog)| == |ids|
    ensures forall k :: 0 <= k < |ids| ==>
      Known(catalog, ids[k]) && PlaylistSongs(ids, catalog)[k] == FindById(catalog, ids[k]).value
  {
    if ids != [] {
      PlaylistSongsAllKnown(ids[1..], catalog);
      var r := PlaylistSongs(ids, catalog);
      assert r == [FindById(catalog, ids[0]).value] + PlaylistSongs(ids[1..], catalog);
      forall k | 0 < k < |ids| ensures r[k] == FindById(catalog, ids[k]).value {
        assert ids[1..][k - 1] == ids[k];
      }
    }
  }

  /** One id resolves to its first catalogue entry, or to nothing. */
  lemma PlaylistSongsSingle(id: string, catalog: seq<Track>)
    ensures Known(catalog, id) ==> PlaylistSongs([id], catalog) == [FindById(catalog, id).value]
    ensures !Known(catalog, id) ==> PlaylistSongs([id], catalog) == []
  {
    assert [id][1..] == [];
  }

  /** The join works id by id: joining a concatenation joins each part, so
      with the single-id case it fixes the result, order included. */
  lemma {:induction false} PlaylistSongsAppend(a: seq<string>, b: seq<string>, catalog: seq<Track>)
    ensures PlaylistSongs(a + b, catalog) == PlaylistSongs(a, catalog) + PlaylistSongs(b, catalog)
  {
    if a == [] {
      assert a + b == b;
    } else {
      assert (a + b)[0] == a[0] && (a + b)[1..] == a[1..] + b;
      PlaylistSongsAppend(a[1..], b, catalog);
    }
  }

  /** An id listed twice shows its song twice. */
  lemma DuplicateIdShownTwice(id: string, middle: seq<string>, catalog: seq<Track>)
    requires Known(catalog, id)
    ensures var t := FindById(catalog, id).value;
      PlaylistSongs([id] + middle + [id], catalog) == [t] + PlaylistSongs(middle, catalog) + [t]
  {
    PlaylistSongsAppend([id] + middle, [id], catalog);
    PlaylistSongsAppend([id], middle, catalog);
    PlaylistSongsSingle(id, catalog);
  }

  /** Ids the catalogue does not know are dropped. */
  lemma {:induction false} UnknownIdsDropped(ids: seq<string>, catalog: seq<Track>)
    requires forall k :: 0 <= k < |ids| ==> !Known(catalog, ids[k])
    ensures PlaylistSongs(ids, catalog) == []
  {
    if ids != [] {
      UnknownIdsDropped(ids[1..], catalog);
    }
  }

  /** How a click on the add button ends. */
  datatype AddOutcome =
    | Alerted(message: string)
    | Added(playlistId: string, songId: string)
    | AddFailed(error: string)

  const PleaseLogin: string := "Please login"
  const ChooseSong: string := "Choose a song"

  class Card {
    const playlistId: string
    /** The chosen song id; `None` and `""` both mean no choice. */
    var selected: Option<string>

    constructor (id: string)
      ensures playlistId == id && selected.None?
    {
      playlistId := id;
      selected := None;
    }

    /** The song picker's `onChange`. */
    method Select(value: string)
      modifies this
      ensures selected == Some(value)
    {
      selected := Some(value);
    }

    /** `addSelected`. `added` is what the data context's add call resolved
        to; it is made only when both guards pass. */
    method AddSelected(user: Option<AuthRecord>, added: Result<()>) returns (o: AddOutcome)
      modifies this
      ensures user.None? ==> o == Alerted(PleaseLogin) && selected == old(selected)
      ensures user.Some? && (old(selected).None? || old(selected) == Some("")) ==>
        o == Alerted(ChooseSong) && selected == old(selected)
      ensures user.Some? && old(selected).Some? && old(selected) != Some("") ==>
        if added.Ok? then o == Added(playlistId, old(selected).value) && selected.None?
        else o == AddFailed(added.msg) && selected == old(selected)
    {
      if user.None? {
        return Alerted(PleaseLogin);
      }
      if selected.None? || selected == Some("") {
        return Alerted(ChooseSong);
      }
      var songId := selected.value;
      if added.Err? {
        return AddFailed(added.msg);
      }
      o := Added(playlistId, songId);
      selected := None;
    }
  }
}
