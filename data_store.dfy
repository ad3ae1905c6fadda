/** The data provider of src/contexts/DataContext.jsx: the client-side copies of
    the song catalogue and of the signed-in user's playlists, the loading flag,
    and the stored session record it rewrites after a like toggle. Each backend
    call is a parameter holding what that call resolved to (`Ok`) or the error
    it threw (`Err`); an error propagates and skips the rest of the handler. */
module DataStore {
  import opened Base
  import opened Entities
  import M = MockBackend

  /** `prev.map(p => p.id === updated.id ? updated : p)`. */
  function ReplaceById(ps: seq<Playlist>, updated: Playlist): (r: seq<Playlist>)
    ensures |r| == |ps|
    ensures forall j :: 0 <= j < |ps| && ps[j].id == updated.id ==> r[j] == updated
    ensures forall j :: 0 <= j < |ps| && ps[j].id != updated.id ==> r[j] == ps[j]
  {
    if ps == [] then []
    else [if ps[0].id == updated.id then updated else ps[0]] + ReplaceById(ps[1..], updated)
  }

  /** Replacing with the same record twice is replacing it once. */
  lemma ReplaceByIdIdempotent(ps: seq<Playlist>, updated: Playlist)
    ensures ReplaceById(ReplaceById(ps, updated), updated) == ReplaceById(ps, updated)
  {
  }

  /** A list without that id is left as it is. */
  lemma {:induction false} ReplaceByIdAbsent(ps: seq<Playlist>, updated: Playlist)
    requires forall j :: 0 <= j < |ps| ==> ps[j].id != updated.id
    ensures ReplaceById(ps, updated) == ps
  {
    if ps != [] {
      ReplaceByIdAbsent(ps[1..], updated);
    }
  }

  /** Stored playlists carry pairwise-distinct ids (each is a fresh uuid). */
  predicate DistinctPlaylistIds(all: seq<Playlist>) {
    forall j, k :: 0 <= j < k < |all| ==> all[j].id != all[k].id
  }

  /** No playlist after the first of a store with distinct ids shares its id,
      so neither does any playlist of an owner's list of that tail. */
  lemma TailOwnedLacksHeadId(all: seq<Playlist>, owner: string)
    requires DistinctPlaylistIds(all) && |all| > 0
    ensures forall j :: 0 <= j < |M.OwnedBy(all[1..], owner)| ==> M.OwnedBy(all[1..], owner)[j].id != all[0].id
  {
    var rest := M.OwnedBy(all[1..], owner);
    forall j | 0 <= j < |rest| ensures rest[j].id != all[0].id {
      assert rest[j] in all[1..];
      var k :| 0 <= k < |all[1..]| && all[1..][k] == rest[j];
      assert all[k + 1] == rest[j];
    }
  }

  /** The owner's list of a non-empty store: its first playlist when that one
      is the owner's, then the owner's list of the rest. */
  lemma OwnedByCons(all: seq<Playlist>, owner: string)
    requires all != []
    ensures M.OwnedBy(all, owner) == (if all[0].ownerId == owner then [all[0]] else []) + M.OwnedBy(all[1..], owner)
  {
  }

  /** The first playlist of a store with distinct ids, replaced in the owner's
      list, gives the owner's list of the store with it replaced. */
  lemma ReplaceAtHead(all: seq<Playlist>, owner: string, q: Playlist)
    requires DistinctPlaylistIds(all) && all != []
    requires q.id == all[0].id && q.ownerId == all[0].ownerId
    ensures ReplaceById(M.OwnedBy(all, owner), q) == M.OwnedBy(all[0 := q], owner)
  {
    var head := if all[0].ownerId == owner then [all[0]] else [];
    var rest := M.OwnedBy(all[1..], owner);
    OwnedByCons(all, owner);
    OwnedByCons(all[0 := q], owner);
    assert all[0 := q][1..] == all[1..];
    ReplaceByIdAppend(head, rest, q);
    assert ReplaceById(head, q) == (if q.ownerId == owner then [q] else []);
    TailOwnedLacksHeadId(all, owner);
    ReplaceByIdAbsent(rest, q);
  }

  /** Replacing, in an owner's loaded list, the record at position `i` of the
      store by a record with the same id and owner gives the owner's list of
      the updated store. */
  lemma {:induction false} ReplaceMirrorsStore(all: seq<Playlist>, owner: string, i: nat, q: Playlist)
    requires DistinctPlaylistIds(all)
    requires i < |all| && q.id == all[i].id && q.ownerId == all[i].ownerId
    ensures ReplaceById(M.OwnedBy(all, owner), q) == M.OwnedBy(all[i := q], owner)
  {
    if i == 0 {
      ReplaceAtHead(all, owner, q);
    } else {
      var head := if all[0].ownerId == owner then [all[0]] else [];
      var rest := M.OwnedBy(all[1..], owner);
      OwnedByCons(all, owner);
      OwnedByCons(all[i := q], owner);
      assert all[i := q][0] == all[0];
      assert all[i := q][1..] == all[1..][i - 1 := q];
      ReplaceByIdAppend(head, rest, q);
      assert all[0].id != q.id;
      assert ReplaceById(head, q) == head;
      ReplaceMirrorsStore(all[1..], owner, i - 1, q);
    }
  }

  lemma {:induction false} ReplaceByIdAppend(a: seq<Playlist>, b: seq<Playlist>, q: Playlist)
    ensures ReplaceById(a + b, q) == ReplaceById(a, q) + ReplaceById(b, q)
  {
    if a == [] {
      assert a + b == b;
    } else {
      assert (a + b)[0] == a[0] && (a + b)[1..] == a[1..] + b;
      ReplaceByIdAppend(a[1..], b, q);
    }
  }

  /** After a successful add on the in-memory backend, the client's list of the
      owner's playlists, updated by replace-by-id with the returned playlist,
      equals the list a fresh load would return. */
  lemma AddKeepsClientInStep(all: seq<Playlist>, owner: string, playlistId: string, songId: string)
    requires DistinctPlaylistIds(all)
    requires M.AddSong(all, playlistId, songId).Ok?
    ensures var after := M.AddSong(all, playlistId, songId).value;
      ReplaceById(M.OwnedBy(all, owner), after[M.PlaylistIndex(all, playlistId)]) == M.OwnedBy(after, owner)
  {
    var i := M.PlaylistIndex(all, playlistId);
    var after := M.AddSong(all, playlistId, songId).value;
    assert after == all[i := after[i]];
    ReplaceMirrorsStore(all, owner, i, after[i]);
  }

  /** After a create, the client shows the new playlist first while a fresh
      load lists it last; both hold the same playlists. */
  lemma CreateOrderAgainstReload(all: seq<Playlist>, p: Playlist)
    ensures M.OwnedBy(all + [p], p.ownerId) == M.OwnedBy(all, p.ownerId) + [p]
    ensures multiset([p] + M.OwnedBy(all, p.ownerId)) == multiset(M.OwnedBy(all + [p], p.ownerId))
  {
    M.CreatedPlaylistListedForOwner(all, p, p.ownerId);
  }

  class DataStore {
    var songs: seq<Track>
    var playlists: seq<Playlist>
    var loading: bool
    /** The session record kept in storage (`null` when signed out). */
    var stored: Option<AuthRecord>

    constructor (stored0: Option<AuthRecord>)
      ensures songs == [] && playlists == [] && !loading && stored == stored0
    {
      songs, playlists, loading, stored := [], [], false, stored0;
    }

    /** `loadSongs`: the catalogue is replaced wholesale; when the call throws,
        `loading` stays set and the old list stays. */
    method LoadSongs(fetched: Result<seq<Track>>)
      modifies this`songs, this`loading
      ensures fetched.Ok? ==> songs == fetched.value && !loading
      ensures fetched.Err? ==> songs == old(songs) && loading
    {
      loading := true;
      if fetched.Err? {
        return;
      }
      songs := fetched.value;
      loading := false;
    }

    /** `loadPlaylists`: with no user the list is emptied and nothing is asked
        of the backend; with a user the list is replaced by what the backend
        returns for `user.id`. `requested` is the user id the backend was asked
        about, `None` when it was not called. */
    method LoadPlaylists(user: Option<AuthRecord>, fetched: Result<seq<Playlist>>)
      returns (requested: Option<string>)
      modifies this`playlists, this`loading
      ensures user.None? ==> requested.None? && playlists == [] && loading == old(loading)
      ensures user.Some? ==> requested == Some(user.value.id)
      ensures user.Some? && fetched.Ok? ==> playlists == fetched.value && !loading
      ensures user.Some? && fetched.Err? ==> playlists == old(playlists) && loading
    {
      if user.None? {
        playlists := [];
        return None;
      }
      loading := true;
      requested := Some(user.value.id);
      if fetched.Err? {
        return;
      }
      playlists := fetched.value;
      loading := false;
    }

    /** `createPlaylist`: the created playlist goes in front. */
    method CreatePlaylist(created: Result<Playlist>) returns (r: Result<Playlist>)
      modifies this`playlists
      ensures r == created
      ensures created.Ok? ==> playlists == [created.value] + old(playlists)
      ensures created.Err? ==> playlists == old(playlists)
    {
      if created.Err? {
        return created;
      }
      var p := created.value;
      playlists := [p] + playlists;
      r := Ok(p);
    }

    /** `addSongToPlaylist`: the returned playlist replaces every entry with
        its id. */
    method AddSongToPlaylist(updated: Result<Playlist>)
      modifies this`playlists
      ensures updated.Ok? ==> playlists == ReplaceById(old(playlists), updated.value)
      ensures updated.Err? ==> playlists == old(playlists)
    {
      if updated.Ok? {
        playlists := ReplaceById(playlists, updated.value);
      }
    }

    /** `toggleLike`: the liked list returned by the backend is written into
        the stored session record when there is one, and returned. */
    method ToggleLike(updated: Result<seq<string>>) returns (r: Result<seq<string>>)
      modifies this`stored
      ensures r == updated
      ensures updated.Ok? && old(stored).Some? ==>
        stored == Some(old(stored).value.(liked := Some(updated.value)))
      ensures updated.Err? || old(stored).None? ==> stored == old(stored)
    {
      if updated.Err? {
        return updated;
      }
      var liked := updated.value;
      if stored.Some? {
        var rec := stored.value;
        rec := rec.(liked := Some(liked));
        stored := Some(rec);
      }
      r := Ok(liked);
    }
  }
}
