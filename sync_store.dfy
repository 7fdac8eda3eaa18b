/** The library slice of the persisted store (src/store/useAppStore.ts) and
    the upload/download buttons of src/components/UserMenu.tsx. Every
    library action changes the local lists at once and, when a user is
    signed in, starts a remote call; when the call settles, the action
    marks the sync status and, on failure, rolls its local change back.

    Each action is split at its `await`: the `Begin` half is the method
    named after the action and returns what the continuation captured (a
    `Pending`), and `Complete` is the continuation, run with the outcome of
    the remote call. Other actions may run in between, as they can in the
    browser. The 2-second timer that sets the status back to idle is the
    separate `ResetIdle`. */
module SyncStore {
  import opened Common

  // ---------------------------------------------------------------------
  // The list transforms the actions apply.
  // ---------------------------------------------------------------------

  /** Add the track at the end when absent, remove every copy when present. */
  function ToggleSong(songs: seq<Song>, song: Song): (r: seq<Song>)
    ensures HasSong(songs, song) ==> r == RemoveSong(songs, song)
    ensures !HasSong(songs, song) ==> r == songs + [song]
  {
    if HasSong(songs, song) then RemoveSong(songs, song) else songs + [song]
  }

  /** Toggling flips whether the track is present and leaves the presence of
      every other identity as it was. */
  lemma ToggleSongFlips(songs: seq<Song>, song: Song)
    ensures HasSong(ToggleSong(songs, song), song) <==> !HasSong(songs, song)
    ensures forall x :: !SameSong(x, song) ==> (HasSong(ToggleSong(songs, song), x) <==> HasSong(songs, x))
  {
    var r := ToggleSong(songs, song);
    if !HasSong(songs, song) {
      assert r[|songs|] == song;
    }
    forall x | !SameSong(x, song)
      ensures HasSong(r, x) <==> HasSong(songs, x)
    {
      if HasSong(songs, x) {
        var i :| 0 <= i < |songs| && SameSong(songs[i], x);
        assert songs[i] in songs;
        assert songs[i] in r;
        var j :| 0 <= j < |r| && r[j] == songs[i];
      }
      if HasSong(r, x) {
        var j :| 0 <= j < |r| && SameSong(r[j], x);
        assert r[j] in r;
        assert r[j] in songs;
        var i :| 0 <= i < |songs| && songs[i] == r[j];
      }
    }
  }

  lemma FilterKeepsUnique(songs: seq<Song>, keep: Song -> bool)
    requires UniqueSongs(songs)
    ensures UniqueSongs(Filter(songs, keep))
    decreases |songs|
  {
    if songs != [] {
      FilterKeepsUnique(songs[1..], keep);
      var rest := Filter(songs[1..], keep);
      if keep(songs[0]) {
        var r := [songs[0]] + rest;
        assert Filter(songs, keep) == r;
        forall i, j | 0 <= i < j < |r| ensures !SameSong(r[i], r[j]) {
          if i == 0 {
            assert r[j] in rest;
            assert r[j] in songs[1..];
          }
        }
      } else {
        assert Filter(songs, keep) == rest;
      }
    }
  }

  /** A list without repeated identities keeps that property under toggling. */
  lemma ToggleSongKeepsUnique(songs: seq<Song>, song: Song)
    requires UniqueSongs(songs)
    ensures UniqueSongs(ToggleSong(songs, song))
  {
    if HasSong(songs, song) {
      FilterKeepsUnique(songs, NotSameSong(song));
    } else {
      var r := songs + [song];
      forall i, j | 0 <= i < j < |r| ensures !SameSong(r[i], r[j]) {
        if j == |songs| {
          assert r[i] == songs[i];
        }
      }
    }
  }

  /** Toggling an absent track twice gives the list back exactly. */
  lemma ToggleAbsentTwice(songs: seq<Song>, song: Song)
    requires !HasSong(songs, song)
    ensures ToggleSong(ToggleSong(songs, song), song) == songs
  {
    assert (songs + [song])[|songs|] == song;
    FilterAppend(songs, [song], NotSameSong(song));
    FilterKeepsAll(songs, NotSameSong(song));
    assert Filter([song], NotSameSong(song)) == [];
  }

  /** `playlists.find(p => p.id === id)` */
  function FindPlaylist(playlists: seq<Playlist>, id: string): (r: Option<Playlist>)
    ensures r.Some? <==> HasPlaylist(playlists, id)
    ensures r.Some? ==> r.value in playlists && r.value.id == id
    ensures playlists != [] && playlists[0].id == id ==> r == Some(playlists[0])
  {
    if playlists == [] then None
    else if playlists[0].id == id then Some(playlists[0])
    else FindPlaylist(playlists[1..], id)
  }

  /** The local update of `toggleSongInPlaylist`: the track is toggled in
      every playlist with that id, the others are left alone. */
  function TogglePlaylistSong(playlists: seq<Playlist>, id: string, song: Song): (r: seq<Playlist>)
    ensures |r| == |playlists|
    ensures forall i :: 0 <= i < |r| ==>
      r[i] == if playlists[i].id == id then playlists[i].(songs := ToggleSong(playlists[i].songs, song)) else playlists[i]
  {
    if playlists == [] then []
    else
      var p := playlists[0];
      [if p.id == id then p.(songs := ToggleSong(p.songs, song)) else p] + TogglePlaylistSong(playlists[1..], id, song)
  }

  // ---------------------------------------------------------------------
  // What the continuation of each action captured, and its rollback.
  // ---------------------------------------------------------------------

  datatype Pending =
    | FavoritePending(song: Song, existed: bool)
    | AddPlaylistPending(playlist: Playlist)
    | UpdatePlaylistPending(id: string)
    | DeletePlaylistPending(deleted: Option<Playlist>)
    | PlaylistSongPending(snapshot: seq<Playlist>)

  /** The favorites after a failed call: a removed track is appended again,
      an added one is filtered out, both relative to the list as it is now. */
  function RollbackFavorites(favorites: seq<Song>, p: Pending): seq<Song> {
    match p
    case FavoritePending(song, existed) => if existed then favorites + [song] else RemoveSong(favorites, song)
    case _ => favorites
  }

  /** The playlists after a failed call: an added playlist is filtered out by
      id, a deleted one is appended at the end, a song toggle restores the
      whole list as it was before the toggle, and a rename is kept. */
  function RollbackPlaylists(playlists: seq<Playlist>, p: Pending): seq<Playlist> {
    match p
    case AddPlaylistPending(pl) => RemovePlaylist(playlists, pl.id)
    case DeletePlaylistPending(deleted) =>
      (match deleted case Some(d) => playlists + [d] case None => playlists)
    case PlaylistSongPending(snapshot) => snapshot
    case _ => playlists
  }

  /** What the load of cloud data produced: both lists, or a rejection. */
  datatype PullOutcome = Pulled(favorites: seq<Song>, playlists: seq<Playlist>) | PullFailed(message: Option<string>)

  /** The data an upload sends: the lists as they were on click. */
  datatype UploadRequest = UploadRequest(favorites: seq<Song>, playlists: seq<Playlist>)

  /** `Promise.all` over the two uploads: it succeeds when both do, and
      otherwise rejects with the rejection that came first
      (`favoritesFirst` says which one that was when both fail). */
  function BothUploads(favorites: RemoteOutcome, playlists: RemoteOutcome, favoritesFirst: bool): (r: RemoteOutcome)
    ensures r.Ok? <==> favorites.Ok? && playlists.Ok?
    ensures favorites.Failed? && playlists.Ok? ==> r == favorites
    ensures favorites.Ok? && playlists.Failed? ==> r == playlists
    ensures r == favorites || r == playlists
  {
    if favorites.Failed? && (playlists.Ok? || favoritesFirst) then favorites
    else playlists
  }

  const SyncFailed := "Sync failed"
  const LoadFailed := "Failed to load cloud data"
  const UploadFailed := "上传失败"

  /** The library data and the sync indicator of the store. */
  class DataStore {
    var favorites: seq<Song>
    var playlists: seq<Playlist>
    var syncStatus: SyncStatus
    var syncError: Option<string>

    constructor ()
      ensures favorites == [] && playlists == [] && syncStatus == Idle && syncError == None
    {
      favorites, playlists := [], [];
      syncStatus, syncError := Idle, None;
    }

    /** `set({ syncStatus: 'syncing', syncError: null })` */
    method BeginSync()
      modifies this
      ensures syncStatus == Syncing && syncError == None
      ensures favorites == old(favorites) && playlists == old(playlists)
    {
      syncStatus, syncError := Syncing, None;
    }

    /** `toggleFavorite`, up to its remote call. */
    method ToggleFavorite(song: Song, loggedIn: bool) returns (pending: Option<Pending>)
      modifies this
      ensures favorites == ToggleSong(old(favorites), song)
      ensures playlists == old(playlists)
      ensures loggedIn ==>
        syncStatus == Syncing && syncError == None && pending == Some(FavoritePending(song, HasSong(old(favorites), song)))
      ensures !loggedIn ==> syncStatus == old(syncStatus) && syncError == old(syncError) && pending == None
    {
      var exists_ := HasSong(favorites, song);
      if exists_ {
        favorites := RemoveSong(favorites, song);
      } else {
        favorites := favorites + [song];
      }
      pending := None;
      if loggedIn {
        BeginSync();
        pending := Some(FavoritePending(song, exists_));
      }
    }

    /** `addPlaylist`: the new playlist goes first. */
    method AddPlaylist(playlist: Playlist, loggedIn: bool) returns (pending: Option<Pending>)
      modifies this
      ensures playlists == [playlist] + old(playlists)
      ensures favorites == old(favorites)
      ensures loggedIn ==> syncStatus == Syncing && syncError == None && pending == Some(AddPlaylistPending(playlist))
      ensures !loggedIn ==> syncStatus == old(syncStatus) && syncError == old(syncError) && pending == None
    {
      playlists := [playlist] + playlists;
      pending := None;
      if loggedIn {
        BeginSync();
        pending := Some(AddPlaylistPending(playlist));
      }
    }

    /** `updatePlaylist`: merge the patch into every playlist with that id. */
    method UpdatePlaylist(id: string, patch: PlaylistPatch, loggedIn: bool) returns (pending: Option<Pending>)
      modifies this
      ensures playlists == PatchPlaylists(old(playlists), id, patch)
      ensures favorites == old(favorites)
      ensures loggedIn ==> syncStatus == Syncing && syncError == None && pending == Some(UpdatePlaylistPending(id))
      ensures !loggedIn ==> syncStatus == old(syncStatus) && syncError == old(syncError) && pending == None
    {
      playlists := PatchPlaylists(playlists, id, patch);
      pending := None;
      if loggedIn {
        BeginSync();
        pending := Some(UpdatePlaylistPending(id));
      }
    }

    /** `deletePlaylist`: remember the first playlist with that id, then
        remove every playlist with that id. */
    method DeletePlaylist(id: string, loggedIn: bool) returns (pending: Option<Pending>)
      modifies this
      ensures playlists == RemovePlaylist(old(playlists), id)
      ensures favorites == old(favorites)
      ensures loggedIn ==>
        syncStatus == Syncing && syncError == None && pending == Some(DeletePlaylistPending(FindPlaylist(old(playlists), id)))
      ensures !loggedIn ==> syncStatus == old(syncStatus) && syncError == old(syncError) && pending == None
    {
      var deleted := FindPlaylist(playlists, id);
      playlists := RemovePlaylist(playlists, id);
      pending := None;
      if loggedIn {
        BeginSync();
        pending := Some(DeletePlaylistPending(deleted));
      }
    }

    /** `toggleSongInPlaylist`. The id "favorites" stands for the favorites
        list. Otherwise the list is snapshotted and the track toggled; when
        no playlist has that id there is nothing to send and the status goes
        straight to success. */
    method ToggleSongInPlaylist(playlistId: string, song: Song, loggedIn: bool) returns (pending: Option<Pending>)
      modifies this
      ensures playlistId == "favorites" ==>
        favorites == ToggleSong(old(favorites), song) && playlists == old(playlists)
        && (loggedIn ==> syncStatus == Syncing && pending == Some(FavoritePending(song, HasSong(old(favorites), song))))
      ensures playlistId != "favorites" ==>
        favorites == old(favorites) && playlists == TogglePlaylistSong(old(playlists), playlistId, song)
      ensures playlistId != "favorites" && loggedIn && HasPlaylist(old(playlists), playlistId) ==>
        syncStatus == Syncing && syncError == None && pending == Some(PlaylistSongPending(old(playlists)))
      ensures playlistId != "favorites" && loggedIn && !HasPlaylist(old(playlists), playlistId) ==>
        syncStatus == Success && syncError == None && pending == None
      ensures loggedIn ==> syncError == None
      ensures !loggedIn ==> syncStatus == old(syncStatus) && syncError == old(syncError) && pending == None
    {
      if playlistId == "favorites" {
        pending := ToggleFavorite(song, loggedIn);
        return;
      }
      var prevPlaylists := playlists;
      playlists := TogglePlaylistSong(playlists, playlistId, song);
      pending := None;
      if loggedIn {
        BeginSync();
        if HasPlaylist(playlists, playlistId) {
          pending := Some(PlaylistSongPending(prevPlaylists));
        } else {
          syncStatus := Success;
        }
      }
    }

    /** The continuation of every library action: success marks the status,
        failure records the message and rolls back. */
    method Complete(p: Pending, outcome: RemoteOutcome)
      modifies this
      ensures outcome.Ok? ==>
        syncStatus == Success && syncError == old(syncError) && favorites == old(favorites) && playlists == old(playlists)
      ensures outcome.Failed? ==>
        && syncStatus == Error && syncError == Some(outcome.MessageOr(SyncFailed))
        && favorites == RollbackFavorites(old(favorites), p)
        && playlists == RollbackPlaylists(old(playlists), p)
    {
      if outcome.Ok? {
        syncStatus := Success;
        return;
      }
      syncStatus, syncError := Error, Some(outcome.MessageOr(SyncFailed));
      match p {
        case FavoritePending(song, existed) =>
          if existed {
            favorites := favorites + [song];
          } else {
            favorites := RemoveSong(favorites, song);
          }
        case AddPlaylistPending(pl) =>
          playlists := RemovePlaylist(playlists, pl.id);
        case UpdatePlaylistPending(_) =>
        case DeletePlaylistPending(deleted) =>
          if deleted.Some? {
            playlists := playlists + [deleted.value];
          }
        case PlaylistSongPending(snapshot) =>
          playlists := snapshot;
      }
    }

    /** The timer two seconds after a success: back to idle, whatever the
        status is by then. */
    method ResetIdle()
      modifies this
      ensures syncStatus == Idle
      ensures syncError == old(syncError) && favorites == old(favorites) && playlists == old(playlists)
    {
      syncStatus := Idle;
    }

    /** `loadCloudData`, up to its remote calls; also the download button
        of the user menu when someone is signed in. */
    method BeginLoad()
      modifies this
      ensures syncStatus == Syncing && syncError == None
      ensures favorites == old(favorites) && playlists == old(playlists)
    {
      BeginSync();
    }

    /** The continuation of `loadCloudData`: the cloud copy replaces both
        lists, or the error is recorded and the lists are kept. */
    method CompleteLoad(outcome: PullOutcome)
      modifies this
      ensures outcome.Pulled? ==>
        favorites == outcome.favorites && playlists == outcome.playlists && syncStatus == Success && syncError == None
      ensures outcome.PullFailed? ==>
        && favorites == old(favorites) && playlists == old(playlists)
        && syncStatus == Error && syncError == Some(outcome.message.GetOr(LoadFailed))
    {
      match outcome {
        case Pulled(favs, pls) =>
          favorites, playlists := favs, pls;
          syncStatus, syncError := Success, None;
        case PullFailed(message) =>
          syncStatus, syncError := Error, Some(message.GetOr(LoadFailed));
      }
    }

    /** The download button: nothing without a session, otherwise a load. */
    method Download(loggedIn: bool) returns (started: bool)
      modifies this
      ensures started == loggedIn
      ensures favorites == old(favorites) && playlists == old(playlists)
      ensures loggedIn ==> syncStatus == Syncing && syncError == None
      ensures !loggedIn ==> syncStatus == old(syncStatus) && syncError == old(syncError)
    {
      started := loggedIn;
      if loggedIn {
        BeginLoad();
      }
    }

    /** The upload button: nothing without a session, otherwise both lists
        as they are now are sent to overwrite the cloud copy. */
    method Upload(loggedIn: bool) returns (request: Option<UploadRequest>)
      modifies this
      ensures favorites == old(favorites) && playlists == old(playlists)
      ensures loggedIn ==>
        syncStatus == Syncing && syncError == None && request == Some(UploadRequest(favorites, playlists))
      ensures !loggedIn ==> syncStatus == old(syncStatus) && syncError == old(syncError) && request == None
    {
      request := None;
      if loggedIn {
        BeginSync();
        request := Some(UploadRequest(favorites, playlists));
      }
    }

    /** The continuation of the upload, with the combined outcome of both
        requests. The local lists are never touched. */
    method CompleteUpload(outcome: RemoteOutcome)
      modifies this
      ensures favorites == old(favorites) && playlists == old(playlists)
      ensures outcome.Ok? ==> syncStatus == Success && syncError == old(syncError)
      ensures outcome.Failed? ==> syncStatus == Error && syncError == Some(outcome.MessageOr(UploadFailed))
    {
      if outcome.Ok? {
        syncStatus := Success;
      } else {
        syncStatus, syncError := Error, Some(outcome.MessageOr(UploadFailed));
      }
    }
  }

  // ---------------------------------------------------------------------
  // What the rollbacks restore, and what they do not.
  // ---------------------------------------------------------------------

  /** A failed add of a favorite gives the list back exactly. */
  lemma AddFavoriteRollbackRestores(favorites: seq<Song>, song: Song)
    requires !HasSong(favorites, song)
    ensures RollbackFavorites(ToggleSong(favorites, song), FavoritePending(song, false)) == favorites
  {
    ToggleAbsentTwice(favorites, song);
  }

  /** Appending a track adds exactly its identity. */
  lemma HasSongAppend(songs: seq<Song>, t: Song, x: Song)
    ensures HasSong(songs + [t], x) <==> HasSong(songs, x) || SameSong(t, x)
  {
    var r := songs + [t];
    if HasSong(songs, x) {
      var i :| 0 <= i < |songs| && SameSong(songs[i], x);
      assert r[i] == songs[i];
    }
    if SameSong(t, x) {
      assert r[|songs|] == t;
    }
    if HasSong(r, x) {
      var i :| 0 <= i < |r| && SameSong(r[i], x);
      if i < |songs| {
        assert songs[i] == r[i];
      }
    }
  }

  /** A failed removal restores which tracks are favorites ... */
  lemma RemoveFavoriteRollbackRestoresIdentities(favorites: seq<Song>, song: Song)
    requires HasSong(favorites, song)
    ensures var r := RollbackFavorites(ToggleSong(favorites, song), FavoritePending(song, true));
      forall x :: HasSong(r, x) <==> HasSong(favorites, x)
  {
    var removed := ToggleSong(favorites, song);
    assert RollbackFavorites(removed, FavoritePending(song, true)) == removed + [song];
    ToggleSongFlips(favorites, song);
    forall x ensures HasSong(removed + [song], x) <==> HasSong(favorites, x) {
      HasSongAppend(removed, song, x);
      if SameSong(x, song) {
        var i :| 0 <= i < |favorites| && SameSong(favorites[i], song);
        assert SameSong(favorites[i], x);
      }
    }
  }

  /** ... but not their order: the track comes back at the end. */
  lemma RemoveFavoriteRollbackReorders()
    ensures var a, b := Song("1", "netease", "A", "x"), Song("2", "netease", "B", "y");
      RollbackFavorites(ToggleSong([a, b], a), FavoritePending(a, true)) == [b, a]
  {
    var a, b := Song("1", "netease", "A", "x"), Song("2", "netease", "B", "y");
    assert HasSong([a, b], a) by { assert SameSong([a, b][0], a); }
    var f := Filter([a, b], NotSameSong(a));
    assert f == Filter([b], NotSameSong(a));
    assert Filter([b], NotSameSong(a)) == [b] + Filter([], NotSameSong(a));
  }

  /** Rolling back relative to the current list keeps a concurrent change:
      when the add of `a` fails after `b` was added, `b` stays. */
  lemma FavoriteRollbackKeepsConcurrentAdd(favorites: seq<Song>, a: Song, b: Song)
    requires !HasSong(favorites, a) && !HasSong(favorites, b) && !SameSong(a, b)
    ensures var both := ToggleSong(ToggleSong(favorites, a), b);
      RollbackFavorites(both, FavoritePending(a, false)) == favorites + [b]
  {
    var withA := favorites + [a];
    assert ToggleSong(favorites, a) == withA;
    assert !HasSong(withA, b);
    assert ToggleSong(withA, b) == favorites + [a] + [b];
    FilterAppend(favorites, [a] + [b], NotSameSong(a));
    FilterKeepsAll(favorites, NotSameSong(a));
    assert Filter([a] + [b], NotSameSong(a)) == [b] by {
      assert Filter([a] + [b], NotSameSong(a)) == Filter([b], NotSameSong(a));
      assert Filter([b], NotSameSong(a)) == [b] + Filter([], NotSameSong(a));
    }
    assert favorites + [a] + [b] == favorites + ([a] + [b]);
  }

  /** Overlapping toggles of one track can leave it twice in the list: the
      removal fails after the track was added back, and the rollback appends
      it a second time. */
  lemma OverlappingFavoriteTogglesDuplicate(a: Song)
    ensures var removed := ToggleSong([a], a);
      var readded := ToggleSong(removed, a);
      var r := RollbackFavorites(readded, FavoritePending(a, true));
      r == [a, a] && !UniqueSongs(r)
  {
    assert HasSong([a], a) by { assert SameSong([a][0], a); }
    assert ToggleSong([a], a) == [] by {
      assert Filter([a], NotSameSong(a)) == [] + Filter([], NotSameSong(a));
    }
    assert ToggleSong([], a) == [a];
    assert SameSong([a, a][0], [a, a][1]);
  }

  /** A failed add of a playlist with a fresh id gives the list back exactly. */
  lemma AddPlaylistRollbackRestores(playlists: seq<Playlist>, p: Playlist)
    requires !HasPlaylist(playlists, p.id)
    ensures RollbackPlaylists([p] + playlists, AddPlaylistPending(p)) == playlists
  {
    FilterAppend([p], playlists, OtherPlaylist(p.id));
    RemoveAbsentPlaylist(playlists, p.id);
    assert Filter([p], OtherPlaylist(p.id)) == [] + Filter([], OtherPlaylist(p.id));
  }

  /** The rollback filters by id, so a failed add whose id was already taken
      also removes the playlist that was there before. */
  lemma AddPlaylistRollbackDropsSameId(p: Playlist, q: Playlist)
    requires p.id == q.id
    ensures RollbackPlaylists([p] + [q], AddPlaylistPending(p)) == []
  {
    FilterAppend([p], [q], OtherPlaylist(p.id));
    assert Filter([p], OtherPlaylist(p.id)) == [] + Filter([], OtherPlaylist(p.id));
    assert Filter([q], OtherPlaylist(p.id)) == [] + Filter([], OtherPlaylist(p.id));
  }

  predicate UniqueIds(playlists: seq<Playlist>) {
    forall i, j :: 0 <= i < j < |playlists| ==> playlists[i].id != playlists[j].id
  }

  lemma SameIdSamePlaylist(playlists: seq<Playlist>, p: Playlist, q: Playlist)
    requires UniqueIds(playlists) && p in playlists && q in playlists && p.id == q.id
    ensures p == q
  {
    var i :| 0 <= i < |playlists| && playlists[i] == p;
    var j :| 0 <= j < |playlists| && playlists[j] == q;
    assert i == j;
  }

  /** A failed delete brings the playlist back, at the end of the list; when
      ids are distinct the playlists are again those there were before. */
  lemma DeletePlaylistRollbackRestoresSet(playlists: seq<Playlist>, id: string)
    requires HasPlaylist(playlists, id) && UniqueIds(playlists)
    ensures var r := RollbackPlaylists(RemovePlaylist(playlists, id), DeletePlaylistPending(FindPlaylist(playlists, id)));
      (forall q :: q in r <==> q in playlists) && r[|r| - 1].id == id
  {
    var d := FindPlaylist(playlists, id).value;
    var rest := RemovePlaylist(playlists, id);
    var r := rest + [d];
    assert RollbackPlaylists(rest, DeletePlaylistPending(Some(d))) == r;
    forall q ensures q in r <==> q in playlists {
      if q in playlists && q.id == id {
        SameIdSamePlaylist(playlists, q, d);
      }
    }
  }

  /** A failed song toggle restores the snapshot, so a playlist added while
      the call was pending disappears even though its own sync did not fail. */
  lemma SnapshotRollbackDropsConcurrentAdd(playlists: seq<Playlist>, id: string, song: Song, added: Playlist)
    requires !HasPlaylist(playlists, added.id)
    ensures var during := [added] + TogglePlaylistSong(playlists, id, song);
      var r := RollbackPlaylists(during, PlaylistSongPending(playlists));
      r == playlists && !HasPlaylist(r, added.id)
  {
  }

  /** Toggling a track in one playlist changes no other playlist and keeps
      the target playlist free of repeated tracks. */
  lemma TogglePlaylistSongLocal(playlists: seq<Playlist>, id: string, song: Song, i: nat)
    requires i < |playlists| && UniqueSongs(playlists[i].songs)
    ensures var r := TogglePlaylistSong(playlists, id, song);
      UniqueSongs(r[i].songs)
      && r[i].id == playlists[i].id && r[i].name == playlists[i].name
      && (playlists[i].id != id ==> r[i] == playlists[i])
      && (playlists[i].id == id ==> (HasSong(r[i].songs, song) <==> !HasSong(playlists[i].songs, song)))
  {
    ToggleSongKeepsUnique(playlists[i].songs, song);
    ToggleSongFlips(playlists[i].songs, song);
  }
}
