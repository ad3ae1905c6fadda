/** The in-browser mock backend of src/api/mockApi.js: users, songs and
    playlists kept under three storage keys and updated in place. A key that
    holds nothing is `None` (each operation reads it as `[]`); an operation
    that writes a key makes it `Some`. Fresh ids are parameters. */
module MockBackend {
  import opened Base
  import opened Entities

  /** A stored user. `liked` may be absent in stored data. */
  datatype User = User(id: string, username: string, password: string, liked: Option<seq<string>>)

  /** A song of the mock catalogue. */
  datatype MockSong = MockSong(
    id: string, title: string, artist: string, album: string,
    cover: string, duration: int, audioUrl: string)

  /** What `register` returns. */
  datatype NewUser = NewUser(id: string, username: string)

  /** What `login` returns: the user stripped of the password. */
  datatype LoginUser = LoginUser(id: string, username: string, liked: seq<string>)

  const UsernameExists: string := "Username already exists"
  const InvalidCredentials: string := "Invalid credentials"
  const PlaylistNotFound: string := "Playlist not found"
  const UserNotFound: string := "User not found"

  /** The catalogue written on first start. */
  const InitialSongs: seq<MockSong> := [
    MockSong("s1", "Neon Nights", "Aurora Sky", "Midnight Drive", "https://picsum.photos/seed/s1/200/200", 210, "/audio/song1.mp3"),
    MockSong("s2", "Ocean Eyes", "Blue Harbor", "Shoreline", "https://picsum.photos/seed/s2/200/200", 185, "/audio/song2.mp3"),
    MockSong("s3", "Sunrise Echo", "Holo Tone", "Dawn", "https://picsum.photos/seed/s3/200/200", 240, "/audio/song3.mp3"),
    MockSong("s4", "City Lights", "Nightwalker", "Uptown", "https://picsum.photos/seed/s4/200/200", 200, "/audio/song4.mp3"),
    MockSong("s5", "Moonlight Dance", "Luna Rose", "Stellar", "https://picsum.photos/seed/s5/200/200", 195, "/audio/song5.mp3"),
    MockSong("s6", "Electric Dreams", "Synth Wave", "Retro Future", "https://picsum.photos/seed/s6/200/200", 220, "/audio/song6.mp3")
  ]

  // ---------------------------------------------------------------- lookups

  predicate UsernameTaken(users: seq<User>, username: string) {
    exists i :: 0 <= i < |users| && users[i].username == username
  }

  /** Index of the first user with these credentials, or -1. */
  function CredentialsIndex(users: seq<User>, username: string, password: string): (i: int)
    ensures -1 <= i < |users|
    ensures i == -1 <==> forall j :: 0 <= j < |users| ==> !(users[j].username == username && users[j].password == password)
    ensures i >= 0 ==> users[i].username == username && users[i].password == password
    ensures i >= 0 ==> forall j :: 0 <= j < i ==> !(users[j].username == username && users[j].password == password)
  {
    if |users| == 0 then -1
    else if users[0].username == username && users[0].password == password then 0
    else
      var k := CredentialsIndex(users[1..], username, password);
      if k == -1 then -1 else k + 1
  }

  /** Index of the first user with id `id`, or -1. */
  function UserIndex(users: seq<User>, id: string): (i: int)
    ensures -1 <= i < |users|
    ensures i == -1 <==> forall j :: 0 <= j < |users| ==> users[j].id != id
    ensures i >= 0 ==> users[i].id == id && forall j :: 0 <= j < i ==> users[j].id != id
  {
    if |users| == 0 then -1
    else if users[0].id == id then 0
    else
      var k := UserIndex(users[1..], id);
      if k == -1 then -1 else k + 1
  }

  /** Index of the first playlist with id `id`, or -1. */
  function PlaylistIndex(all: seq<Playlist>, id: string): (i: int)
    ensures -1 <= i < |all|
    ensures i == -1 <==> forall j :: 0 <= j < |all| ==> all[j].id != id
    ensures i >= 0 ==> all[i].id == id && forall j :: 0 <= j < i ==> all[j].id != id
  {
    if |all| == 0 then -1
    else if all[0].id == id then 0
    else
      var k := PlaylistIndex(all[1..], id);
      if k == -1 then -1 else k + 1
  }

  /** Changing what a playlist holds does not move any playlist id, so the
      lookup finds the same position afterwards. */
  lemma PlaylistIndexSameIds(a: seq<Playlist>, b: seq<Playlist>, id: string)
    requires |a| == |b| && forall j :: 0 <= j < |a| ==> a[j].id == b[j].id
    ensures PlaylistIndex(a, id) == PlaylistIndex(b, id)
  {
    var i, k := PlaylistIndex(a, id), PlaylistIndex(b, id);
    if i >= 0 && k >= 0 {
      assert !(i < k) && !(k < i);
    }
  }

  // ---------------------------------------------------------------- list updates

  /** `if (!songs.includes(id)) songs.push(id)`. */
  function AddIfAbsent(songs: seq<string>, id: string): (r: seq<string>)
    ensures id in r
    ensures id in songs ==> r == songs
    ensures id !in songs ==> r == songs + [id]
  {
    if id in songs then songs else songs + [id]
  }

  /** The like toggle: remove every occurrence when present, append when absent. */
  function ToggleMembership(liked: seq<string>, id: string): (r: seq<string>)
    ensures id in r <==> id !in liked
    ensures id in liked ==> r == RemoveAll(liked, id)
    ensures id !in liked ==> r == liked + [id]
  {
    if id in liked then RemoveAll(liked, id) else liked + [id]
  }

  /** Adding a song twice is the same as adding it once. */
  lemma AddIfAbsentIdempotent(songs: seq<string>, id: string)
    ensures AddIfAbsent(AddIfAbsent(songs, id), id) == AddIfAbsent(songs, id)
  {
  }

  /** Removing a song that was just added (and was not there before) gives back
      the original list. */
  lemma RemoveUndoesAdd(songs: seq<string>, id: string)
    requires id !in songs
    ensures RemoveAll(AddIfAbsent(songs, id), id) == songs
  {
    RemoveAllAppend(songs, [id], id);
    assert RemoveAll([id], id) == [];
  }

  /** Toggling a like twice, starting from "not liked", gives back the list. */
  lemma ToggleTwice(liked: seq<string>, id: string)
    requires id !in liked
    ensures ToggleMembership(ToggleMembership(liked, id), id) == liked
  {
    RemoveUndoesAdd(liked, id);
  }

  /** `all.filter(p => p.ownerId === owner)`. */
  function OwnedBy(all: seq<Playlist>, owner: string): (r: seq<Playlist>)
    ensures forall k :: 0 <= k < |r| ==> r[k].ownerId == owner && r[k] in all
    ensures forall j :: 0 <= j < |all| && all[j].ownerId == owner ==> all[j] in r
    ensures |r| <= |all|
  {
    if all == [] then []
    else (if all[0].ownerId == owner then [all[0]] else []) + OwnedBy(all[1..], owner)
  }

  /** The owner filter distributes over concatenation, so it keeps stored order. */
  lemma {:induction false} OwnedByAppend(a: seq<Playlist>, b: seq<Playlist>, owner: string)
    ensures OwnedBy(a + b, owner) == OwnedBy(a, owner) + OwnedBy(b, owner)
  {
    if a == [] {
      assert a + b == b;
    } else {
      assert (a + b)[0] == a[0] && (a + b)[1..] == a[1..] + b;
      OwnedByAppend(a[1..], b, owner);
    }
  }

  /** `all.filter(p => p.id !== id)`. */
  function WithoutPlaylist(all: seq<Playlist>, id: string): (r: seq<Playlist>)
    ensures |r| <= |all|
  {
    if all == [] then []
    else (if all[0].id == id then [] else [all[0]]) + WithoutPlaylist(all[1..], id)
  }

  /** Every kept playlist lacks the id and comes from the list. */
  lemma {:induction false} WithoutPlaylistDrops(all: seq<Playlist>, id: string)
    ensures forall k :: 0 <= k < |WithoutPlaylist(all, id)| ==>
      WithoutPlaylist(all, id)[k].id != id && WithoutPlaylist(all, id)[k] in all
  {
    if all != [] {
      WithoutPlaylistDrops(all[1..], id);
      var r, rest := WithoutPlaylist(all, id), WithoutPlaylist(all[1..], id);
      var head := if all[0].id == id then [] else [all[0]];
      assert r == head + rest;
      assert all == [all[0]] + all[1..];
      forall k | 0 <= k < |r| ensures r[k].id != id && r[k] in all {
        if k < |head| {
          assert r[k] == all[0];
        } else {
          var k' := k - |head|;
          assert r[k] == rest[k'];
          assert rest[k'].id != id && rest[k'] in all[1..];
        }
      }
    }
  }

  /** Every playlist without the id is kept. */
  lemma {:induction false} WithoutPlaylistKeeps(all: seq<Playlist>, id: string)
    ensures forall j :: 0 <= j < |all| && all[j].id != id ==> all[j] in WithoutPlaylist(all, id)
  {
    if all != [] {
      WithoutPlaylistKeeps(all[1..], id);
      var r, rest := WithoutPlaylist(all, id), WithoutPlaylist(all[1..], id);
      assert forall t :: t in rest ==> t in r;
      forall j | 0 < j < |all| && all[j].id != id ensures all[j] in r {
        assert all[1..][j - 1] == all[j];
      }
    }
  }

  /** With nothing to drop the list is unchanged. */
  lemma {:induction false} WithoutPlaylistNoMatch(all: seq<Playlist>, id: string)
    requires forall j :: 0 <= j < |all| ==> all[j].id != id
    ensures WithoutPlaylist(all, id) == all
  {
    if all != [] {
      WithoutPlaylistNoMatch(all[1..], id);
    }
  }

  /** The filter works element by element: filtering a concatenation filters
      each part, so the kept playlists stay in stored order. */
  lemma {:induction false} WithoutPlaylistAppend(a: seq<Playlist>, b: seq<Playlist>, id: string)
    ensures WithoutPlaylist(a + b, id) == WithoutPlaylist(a, id) + WithoutPlaylist(b, id)
  {
    if a == [] {
      assert a + b == b;
    } else {
      assert (a + b)[0] == a[0] && (a + b)[1..] == a[1..] + b;
      WithoutPlaylistAppend(a[1..], b, id);
    }
  }

  /** One playlist is dropped exactly when it has the id. */
  lemma WithoutPlaylistSingle(p: Playlist, id: string)
    ensures WithoutPlaylist([p], id) == if p.id == id then [] else [p]
  {
    assert [p][1..] == [];
  }

  /** The stored playlists after `addSongToPlaylist`: the first playlist with
      that id gains the song if it lacks it. */
  function AddSong(all: seq<Playlist>, playlistId: string, songId: string): (r: Result<seq<Playlist>>)
    ensures r.Err? <==> PlaylistIndex(all, playlistId) == -1
    ensures r.Err? ==> r.msg == PlaylistNotFound
    ensures r.Ok? ==> var i := PlaylistIndex(all, playlistId);
      |r.value| == |all| && r.value[i] == all[i].(songs := AddIfAbsent(all[i].songs, songId))
      && forall j :: 0 <= j < |all| && j != i ==> r.value[j] == all[j]
  {
    var i := PlaylistIndex(all, playlistId);
    if i == -1 then Err(PlaylistNotFound)
    else Ok(all[i := all[i].(songs := AddIfAbsent(all[i].songs, songId))])
  }

  /** The stored playlists after `removeSongFromPlaylist`: the first playlist
      with that id loses every occurrence of the song. */
  function RemoveSong(all: seq<Playlist>, playlistId: string, songId: string): (r: Result<seq<Playlist>>)
    ensures r.Err? <==> PlaylistIndex(all, playlistId) == -1
    ensures r.Err? ==> r.msg == PlaylistNotFound
    ensures r.Ok? ==> var i := PlaylistIndex(all, playlistId);
      |r.value| == |all| && r.value[i] == all[i].(songs := RemoveAll(all[i].songs, songId))
      && forall j :: 0 <= j < |all| && j != i ==> r.value[j] == all[j]
  {
    var i := PlaylistIndex(all, playlistId);
    if i == -1 then Err(PlaylistNotFound)
    else Ok(all[i := all[i].(songs := RemoveAll(all[i].songs, songId))])
  }

  /** The stored users after `toggleLikeSong`. */
  function ToggleLike(users: seq<User>, userId: string, songId: string): (r: Result<seq<User>>)
    ensures r.Err? <==> UserIndex(users, userId) == -1
    ensures r.Err? ==> r.msg == UserNotFound
    ensures r.Ok? ==> var i := UserIndex(users, userId);
      |r.value| == |users|
      && r.value[i] == users[i].(liked := Some(ToggleMembership(users[i].liked.GetOr([]), songId)))
      && forall j :: 0 <= j < |users| && j != i ==> r.value[j] == users[j]
  {
    var i := UserIndex(users, userId);
    if i == -1 then Err(UserNotFound)
    else Ok(users[i := users[i].(liked := Some(ToggleMembership(users[i].liked.GetOr([]), songId)))])
  }

  /** Adding the same song to the same playlist twice stores the same lists as
      adding it once. */
  lemma AddSongIdempotent(all: seq<Playlist>, playlistId: string, songId: string)
    requires AddSong(all, playlistId, songId).Ok?
    ensures AddSong(AddSong(all, playlistId, songId).value, playlistId, songId) == AddSong(all, playlistId, songId)
  {
    var once := AddSong(all, playlistId, songId).value;
    PlaylistIndexSameIds(all, once, playlistId);
    var i := PlaylistIndex(all, playlistId);
    AddIfAbsentIdempotent(all[i].songs, songId);
    assert once[i := once[i].(songs := AddIfAbsent(once[i].songs, songId))] == once;
  }

  /** Adding a song that a playlist lacks and then removing it restores the
      stored playlists. */
  lemma RemoveAfterAdd(all: seq<Playlist>, playlistId: string, songId: string)
    requires AddSong(all, playlistId, songId).Ok?
    requires songId !in all[PlaylistIndex(all, playlistId)].songs
    ensures RemoveSong(AddSong(all, playlistId, songId).value, playlistId, songId) == Ok(all)
  {
    var once := AddSong(all, playlistId, songId).value;
    PlaylistIndexSameIds(all, once, playlistId);
    var i := PlaylistIndex(all, playlistId);
    RemoveUndoesAdd(all[i].songs, songId);
    assert once[i := once[i].(songs := RemoveAll(once[i].songs, songId))] == all;
  }

  /** Two like toggles from "not liked" give the user back the same liked list
      and leave every other user as they were. */
  lemma ToggleLikeTwice(users: seq<User>, userId: string, songId: string)
    requires ToggleLike(users, userId, songId).Ok?
    requires songId !in users[UserIndex(users, userId)].liked.GetOr([])
    ensures var i := UserIndex(users, userId);
      var twice := ToggleLike(ToggleLike(users, userId, songId).value, userId, songId);
      && twice.Ok?
      && twice.value == users[i := users[i].(liked := Some(users[i].liked.GetOr([])))]
  {
    var i := UserIndex(users, userId);
    var once := ToggleLike(users, userId, songId).value;
    var k := UserIndex(once, userId);
    assert k == i by {
      assert once[i].id == userId;
      assert forall j :: 0 <= j < i ==> once[j] == users[j];
    }
    ToggleTwice(users[i].liked.GetOr([]), songId);
  }

  // ---------------------------------------------------------------- the store

  class MockStore {
    var users: Option<seq<User>>
    var songs: Option<seq<MockSong>>
    var playlists: Option<seq<Playlist>>

    /** The store as found in storage, then `ensureInitialData` on module load. */
    constructor (users0: Option<seq<User>>, songs0: Option<seq<MockSong>>, playlists0: Option<seq<Playlist>>)
      ensures users == Some(users0.GetOr([]))
      ensures songs == Some(songs0.GetOr(InitialSongs))
      ensures playlists == Some(playlists0.GetOr([]))
    {
      users, songs, playlists := users0, songs0, playlists0;
      new;
      EnsureInitialData();
    }

    /** Seed each key that holds nothing; keys that hold data are kept. */
    method EnsureInitialData()
      modifies this
      ensures songs == Some(old(songs).GetOr(InitialSongs))
      ensures users == Some(old(users).GetOr([]))
      ensures playlists == Some(old(playlists).GetOr([]))
    {
      if songs.None? { songs := Some(InitialSongs); }
      if users.None? { users := Some([]); }
      if playlists.None? { playlists := Some([]); }
    }

    method Register(username: string, password: string, freshId: string) returns (r: Result<NewUser>)
      modifies this`users
      ensures UsernameTaken(old(users).GetOr([]), username) ==>
        r == Err(UsernameExists) && users == old(users)
      ensures !UsernameTaken(old(users).GetOr([]), username) ==>
        && r == Ok(NewUser(freshId, username))
        && users == Some(old(users).GetOr([]) + [User(freshId, username, password, Some([]))])
    {
      var all := users.GetOr([]);
      if UsernameTaken(all, username) {
        return Err(UsernameExists);
      }
      var user := User(freshId, username, password, Some([]));
      all := all + [user];
      users := Some(all);
      r := Ok(NewUser(user.id, user.username));
    }

    method Login(username: string, password: string) returns (r: Result<LoginUser>)
      ensures var all := users.GetOr([]);
        r.Ok? <==> exists i :: 0 <= i < |all| && all[i].username == username && all[i].password == password
      ensures r.Err? ==> r.msg == InvalidCredentials
      ensures r.Ok? ==> var all := users.GetOr([]); var i := CredentialsIndex(all, username, password);
        r.value == LoginUser(all[i].id, all[i].username, all[i].liked.GetOr([]))
    {
      var all := users.GetOr([]);
      var i := CredentialsIndex(all, username, password);
      if i == -1 {
        return Err(InvalidCredentials);
      }
      var user := all[i];
      r := Ok(LoginUser(user.id, user.username, user.liked.GetOr([])));
    }

    method GetSongs() returns (r: seq<MockSong>)
      ensures songs.Some? ==> r == songs.value
      ensures songs.None? ==> r == []
    {
      r := songs.GetOr([]);
    }

    method GetPlaylistsByUser(userId: string) returns (r: seq<Playlist>)
      ensures r == OwnedBy(playlists.GetOr([]), userId)
      ensures forall k :: 0 <= k < |r| ==> r[k].ownerId == userId
    {
      r := OwnedBy(playlists.GetOr([]), userId);
    }

    method CreatePlaylist(ownerId: string, name: string, description: Option<string>, freshId: string)
      returns (p: Playlist)
      modifies this`playlists
      ensures p == Playlist(freshId, ownerId, name, description.GetOr(""), [])
      ensures playlists == Some(old(playlists).GetOr([]) + [p])
    {
      var all := playlists.GetOr([]);
      p := Playlist(freshId, ownerId, name, description.GetOr(""), []);
      all := all + [p];
      playlists := Some(all);
    }

    method AddSongToPlaylist(playlistId: string, songId: string) returns (r: Result<Playlist>)
      modifies this`playlists
      ensures var after := AddSong(old(playlists).GetOr([]), playlistId, songId);
        && (after.Err? ==> r == Err(PlaylistNotFound) && playlists == old(playlists))
        && (after.Ok? ==>
              playlists == Some(after.value) && r == Ok(after.value[PlaylistIndex(old(playlists).GetOr([]), playlistId)]))
    {
      var all := playlists.GetOr([]);
      var i := PlaylistIndex(all, playlistId);
      if i == -1 {
        return Err(PlaylistNotFound);
      }
      var p := all[i];
      if songId !in p.songs {
        p := p.(songs := p.songs + [songId]);
      }
      all := all[i := p];
      playlists := Some(all);
      r := Ok(p);
    }

    method ToggleLikeSong(userId: string, songId: string) returns (r: Result<seq<string>>)
      modifies this`users
      ensures var after := ToggleLike(old(users).GetOr([]), userId, songId);
        && (after.Err? ==> r == Err(UserNotFound) && users == old(users))
        && (after.Ok? ==>
              users == Some(after.value) && r == Ok(after.value[UserIndex(old(users).GetOr([]), userId)].liked.value))
    {
      var all := users.GetOr([]);
      var i := UserIndex(all, userId);
      if i == -1 {
        return Err(UserNotFound);
      }
      var user := all[i];
      var liked := user.liked.GetOr([]);
      if songId in liked {
        liked := RemoveAll(liked, songId);
      } else {
        liked := liked + [songId];
      }
      user := user.(liked := Some(liked));
      all := all[i := user];
      users := Some(all);
      r := Ok(liked);
    }

    method RemoveSongFromPlaylist(playlistId: string, songId: string) returns (r: Result<Playlist>)
      modifies this`playlists
      ensures var after := RemoveSong(old(playlists).GetOr([]), playlistId, songId);
        && (after.Err? ==> r == Err(PlaylistNotFound) && playlists == old(playlists))
        && (after.Ok? ==>
              playlists == Some(after.value) && r == Ok(after.value[PlaylistIndex(old(playlists).GetOr([]), playlistId)]))
    {
      var all := playlists.GetOr([]);
      var i := PlaylistIndex(all, playlistId);
      if i == -1 {
        return Err(PlaylistNotFound);
      }
      var p := all[i].(songs := RemoveAll(all[i].songs, songId));
      all := all[i := p];
      playlists := Some(all);
      r := Ok(p);
    }

    method DeletePlaylist(playlistId: string) returns (deleted: bool)
      modifies this`playlists
      ensures deleted
      ensures playlists == Some(WithoutPlaylist(old(playlists).GetOr([]), playlistId))
    {
      var all := playlists.GetOr([]);
      playlists := Some(WithoutPlaylist(all, playlistId));
      deleted := true;
    }
  }

  /** A new playlist shows up last in its owner's list and nowhere else. */
  lemma CreatedPlaylistListedForOwner(all: seq<Playlist>, p: Playlist, owner: string)
    ensures p.ownerId == owner ==> OwnedBy(all + [p], owner) == OwnedBy(all, owner) + [p]
    ensures p.ownerId != owner ==> OwnedBy(all + [p], owner) == OwnedBy(all, owner)
  {
    OwnedByAppend(all, [p], owner);
    assert [p][1..] == [];
  }
}
