/** The playlists endpoint, functions/api/user/playlists.ts: one record per
    user under `playlists:<user>`, holding the playlists, the time of the
    last change and a version counter. */
module PlaylistsApi {
  import opened Common
  import opened Kv
  import SyncStore

  function PlaylistsKey(user: string): string {
    "playlists:" + user
  }

  const EmptyPlaylists := PlaylistsData([], 0, 0)

  /** The record a write starts from, or None when the stored value is not a
      playlists record. */
  function ReadPlaylists(entries: map<string, Stored>, key: string): (r: Option<Stored>)
    ensures r.Some? ==> r.value.PlaylistsData?
    ensures key !in entries ==> r == Some(EmptyPlaylists)
    ensures key in entries && entries[key].PlaylistsData? ==> r == Some(entries[key])
  {
    if key !in entries then Some(EmptyPlaylists)
    else if entries[key].PlaylistsData? then Some(entries[key])
    else None
  }

  /** A whole playlist sent as an update overwrites every field. */
  function FullPatch(p: Playlist): (u: PlaylistPatch)
    ensures forall q: Playlist :: q.id == p.id ==> Merge(q, u) == p
  {
    PlaylistPatch(Some(p.id), Some(p.name), Some(p.songs))
  }

  /** How a PUT body is read: a `playlists` array replaces everything;
      otherwise an `id` selects the playlists to merge the body into (a
      track's `id` and `name` fields count as well); otherwise the request
      is invalid. */
  datatype PutKind = BatchReplace(playlists: seq<Playlist>) | PatchById(patch: PlaylistPatch) | InvalidUpdate | UnparsableUpdate

  function ClassifyPut(body: Body): (k: PutKind)
    ensures k.UnparsableUpdate? <==> body.Unparsable?
    ensures k.BatchReplace? <==> body.PlaylistUpdateJson? && body.playlists.Some?
    ensures k.BatchReplace? ==> k.playlists == body.playlists.value
    ensures k.PatchById? ==> k.patch.id.Some? && k.patch.id.value != ""
    ensures body.PlaylistUpdateJson? && body.playlists.None? ==>
      (k.PatchById? <==> body.patch.id.Some? && body.patch.id.value != "") && (k.PatchById? ==> k.patch == body.patch)
  {
    match body
    case Unparsable => UnparsableUpdate
    case PlaylistUpdateJson(playlists, patch) =>
      if playlists.Some? then BatchReplace(playlists.value)
      else if patch.id.Some? && patch.id.value != "" then PatchById(patch)
      else InvalidUpdate
    case PlaylistJson(p) => if p.id != "" then PatchById(FullPatch(p)) else InvalidUpdate
    case TrackJson(s) => if s.id != "" then PatchById(PlaylistPatch(Some(s.id), Some(s.name), None)) else InvalidUpdate
    case _ => InvalidUpdate
  }

  function PlaylistsHandler(entries: map<string, Stored>, req: Request, now: int): Outcome {
    match req.user
    case None => Outcome(Response(401, None), entries)
    case Some(user) =>
      var key := PlaylistsKey(user);
      match req.httpMethod
      case Get => Outcome(Response(200, Some(Lookup(entries, key).GetOr(EmptyPlaylists))), entries)
      case Post =>
        if !req.body.PlaylistJson? then Outcome(Response(500, None), entries)
        else
          (match ReadPlaylists(entries, key)
           case None => Outcome(Response(500, None), entries)
           case Some(data) =>
             var next := PlaylistsData([req.body.playlist] + data.playlists, now, data.version + 1);
             Outcome(Response(200, Some(next)), entries[key := next]))
      case Put =>
        (match ClassifyPut(req.body)
         case UnparsableUpdate => Outcome(Response(500, None), entries)
         case InvalidUpdate => Outcome(Response(400, None), entries)
         case BatchReplace(playlists) =>
           var next := PlaylistsData(playlists, now, 1);
           Outcome(Response(200, Some(next)), entries[key := next])
         case PatchById(patch) =>
           (match ReadPlaylists(entries, key)
            case None => Outcome(Response(500, None), entries)
            case Some(data) =>
              var next := PlaylistsData(PatchPlaylists(data.playlists, patch.id.value, patch), now, data.version + 1);
              Outcome(Response(200, Some(next)), entries[key := next])))
      case Delete =>
        var id := QueryParam(req.query, "id");
        if id.None? then Outcome(Response(400, None), entries)
        else
          (match ReadPlaylists(entries, key)
           case None => Outcome(Response(500, None), entries)
           case Some(data) =>
             var next := PlaylistsData(RemovePlaylist(data.playlists, id.value), now, data.version + 1);
             Outcome(Response(200, Some(next)), entries[key := next]))
      case OtherMethod => Outcome(Response(405, None), entries)
  }

  method HandlePlaylists(kv: KvNamespace, req: Request, now: int) returns (resp: Response)
    modifies kv
    ensures Outcome(resp, kv.entries) == PlaylistsHandler(old(kv.entries), req, now)
  {
    if req.user.None? {
      return Response(401, None);
    }
    var key := PlaylistsKey(req.user.value);
    match req.httpMethod {
      case Get =>
        var stored := kv.Get(key);
        return Response(200, Some(stored.GetOr(EmptyPlaylists)));
      case Post =>
        if !req.body.PlaylistJson? {
          return Response(500, None);
        }
        var raw := kv.Get(key);
        if raw.Some? && !raw.value.PlaylistsData? {
          return Response(500, None);
        }
        var data := raw.GetOr(EmptyPlaylists);
        var playlists, updatedAt, version := data.playlists, data.updatedAt, data.version;
        playlists := [req.body.playlist] + playlists;
        updatedAt := now;
        version := version + 1;
        kv.Put(key, PlaylistsData(playlists, updatedAt, version));
        return Response(200, Some(PlaylistsData(playlists, updatedAt, version)));
      case Put =>
        var kind := ClassifyPut(req.body);
        if kind.UnparsableUpdate? {
          return Response(500, None);
        }
        if kind.BatchReplace? {
          var data := PlaylistsData(kind.playlists, now, 1);
          kv.Put(key, data);
          return Response(200, Some(data));
        }
        if kind.PatchById? {
          var raw := kv.Get(key);
          if raw.Some? && !raw.value.PlaylistsData? {
            return Response(500, None);
          }
          var data := raw.GetOr(EmptyPlaylists);
          var playlists, updatedAt, version := data.playlists, data.updatedAt, data.version;
          playlists := PatchPlaylists(playlists, kind.patch.id.value, kind.patch);
          updatedAt := now;
          version := version + 1;
          kv.Put(key, PlaylistsData(playlists, updatedAt, version));
          return Response(200, Some(PlaylistsData(playlists, updatedAt, version)));
        }
        return Response(400, None);
      case Delete =>
        var id := QueryParam(req.query, "id");
        if id.None? {
          return Response(400, None);
        }
        var raw := kv.Get(key);
        if raw.Some? && !raw.value.PlaylistsData? {
          return Response(500, None);
        }
        var data := raw.GetOr(EmptyPlaylists);
        var playlists, updatedAt, version := data.playlists, data.updatedAt, data.version;
        playlists := RemovePlaylist(playlists, id.value);
        updatedAt := now;
        version := version + 1;
        kv.Put(key, PlaylistsData(playlists, updatedAt, version));
        return Response(200, Some(PlaylistsData(playlists, updatedAt, version)));
      case OtherMethod =>
        return Response(405, None);
    }
  }

  /** Only the user's own playlists record is ever written, a failed request
      writes nothing, and without a valid token the answer is 401. */
  lemma PlaylistsTouchOwnKey(entries: map<string, Stored>, req: Request, now: int)
    ensures var o := PlaylistsHandler(entries, req, now);
      && (req.user.None? ==> o.response.status == 401)
      && (o.response.status != 200 ==> o.entries == entries)
      && (o.entries == entries || (req.user.Some? && PlaylistsKey(req.user.value) in o.entries
            && o.entries == entries[PlaylistsKey(req.user.value) := o.entries[PlaylistsKey(req.user.value)]]))
  {
  }

  /** Creating does not check for duplicates: posting the same playlist
      twice stores it twice. */
  lemma PlaylistsPostTwiceDuplicates(entries: map<string, Stored>, user: string, p: Playlist, q: map<string, string>, now1: int, now2: int)
    requires var key := PlaylistsKey(user); key in entries ==> entries[key].PlaylistsData?
    ensures var req := Request(Post, Some(user), q, PlaylistJson(p));
      var once := PlaylistsHandler(entries, req, now1);
      var twice := PlaylistsHandler(once.entries, req, now2);
      var stored := twice.entries[PlaylistsKey(user)].playlists;
      |stored| >= 2 && stored[0] == p && stored[1] == p
  {
  }

  /** A batch upload replaces the list and resets the version to 1, whatever
      was stored before. */
  lemma PlaylistsBatchResetsVersion(entries: map<string, Stored>, user: string, pls: seq<Playlist>, patch: PlaylistPatch,
                                    q: map<string, string>, now: int)
    ensures var o := PlaylistsHandler(entries, Request(Put, Some(user), q, PlaylistUpdateJson(Some(pls), patch)), now);
      o.response.status == 200 && o.entries[PlaylistsKey(user)] == PlaylistsData(pls, now, 1)
  {
  }

  /** The server follows the client. Starting from the same list, each
      playlist action and the request it sends leave the stored list equal
      to the local one: create (POST of the playlist), rename (PUT of
      `{ id, ...updates }`) and delete (DELETE with the id). */
  lemma PlaylistsFollowClient(entries: map<string, Stored>, user: string, p: Playlist, id: string, updates: PlaylistPatch, now: int)
    requires id != "" && updates.id.None?
    requires var key := PlaylistsKey(user); key in entries && entries[key].PlaylistsData?
    ensures var key := PlaylistsKey(user);
      var local := entries[key].playlists;
      var created := PlaylistsHandler(entries, Request(Post, Some(user), map[], PlaylistJson(p)), now);
      var renamed := PlaylistsHandler(entries, Request(Put, Some(user), map[], PlaylistUpdateJson(None, updates.(id := Some(id)))), now);
      var deleted := PlaylistsHandler(entries, Request(Delete, Some(user), map["id" := id], Unparsable), now);
      && created.entries[key].playlists == [p] + local
      && renamed.entries[key].playlists == PatchPlaylists(local, id, updates)
      && deleted.entries[key].playlists == RemovePlaylist(local, id)
  {
    var key := PlaylistsKey(user);
    var local := entries[key].playlists;
    assert QueryParam(map["id" := id], "id") == Some(id);
    var sent := updates.(id := Some(id));
    var server := PatchPlaylists(local, id, sent);
    var client := PatchPlaylists(local, id, updates);
    assert |server| == |client|;
    forall i | 0 <= i < |server| ensures server[i] == client[i] {
      if local[i].id == id {
        assert Merge(local[i], sent) == Merge(local[i], updates);
      }
    }
  }

  /** With distinct ids, `find` returns the one playlist with that id. */
  lemma {:induction false} FindUniqueId(playlists: seq<Playlist>, id: string, i: nat)
    requires SyncStore.UniqueIds(playlists) && i < |playlists| && playlists[i].id == id
    ensures SyncStore.FindPlaylist(playlists, id) == Some(playlists[i])
  {
    if i > 0 {
      assert playlists[0].id != id;
      FindUniqueId(playlists[1..], id, i - 1);
    }
  }

  /** Merging the toggled playlist into the stored list by id gives the
      toggled list, when ids are distinct. */
  lemma ToggleThenPatchAgree(stored: seq<Playlist>, id: string, song: Song, i: nat)
    requires SyncStore.UniqueIds(stored) && i < |stored| && stored[i].id == id
    ensures var local := SyncStore.TogglePlaylistSong(stored, id, song);
      SyncStore.FindPlaylist(local, id) == Some(local[i])
      && PatchPlaylists(stored, id, FullPatch(local[i])) == local
  {
    var local := SyncStore.TogglePlaylistSong(stored, id, song);
    assert SyncStore.UniqueIds(local) by {
      forall a, b | 0 <= a < b < |local| ensures local[a].id != local[b].id {
        assert local[a].id == stored[a].id && local[b].id == stored[b].id;
      }
    }
    FindUniqueId(local, id, i);
    var server := PatchPlaylists(stored, id, FullPatch(local[i]));
    forall k | 0 <= k < |server| ensures server[k] == local[k] {
      if stored[k].id == id {
        assert k == i;
      }
    }
  }

  /** A PUT of a whole playlist with a non-empty id merges it by id into
      the stored list. */
  lemma PutPlaylistMerges(entries: map<string, Stored>, user: string, p: Playlist, now: int)
    requires p.id != ""
    requires var key := PlaylistsKey(user); key in entries && entries[key].PlaylistsData?
    ensures var key := PlaylistsKey(user);
      var o := PlaylistsHandler(entries, Request(Put, Some(user), map[], PlaylistJson(p)), now);
      key in o.entries && o.entries[key].PlaylistsData?
      && o.entries[key].playlists == PatchPlaylists(entries[key].playlists, p.id, FullPatch(p))
  {
    assert ClassifyPut(PlaylistJson(p)) == PatchById(FullPatch(p));
  }

  /** Adding or removing a track in a playlist sends the whole updated
      playlist; with distinct ids the stored list then equals the local one. */
  lemma PlaylistsFollowSongToggle(entries: map<string, Stored>, user: string, id: string, song: Song, now: int)
    requires id != ""
    requires var key := PlaylistsKey(user); key in entries && entries[key].PlaylistsData?
    requires SyncStore.UniqueIds(entries[PlaylistsKey(user)].playlists)
    requires HasPlaylist(entries[PlaylistsKey(user)].playlists, id)
    ensures var key := PlaylistsKey(user);
      var local := SyncStore.TogglePlaylistSong(entries[key].playlists, id, song);
      var updated := SyncStore.FindPlaylist(local, id);
      updated.Some? &&
      var o := PlaylistsHandler(entries, Request(Put, Some(user), map[], PlaylistJson(updated.value)), now);
      o.entries[key].playlists == local
  {
    var key := PlaylistsKey(user);
    var stored := entries[key].playlists;
    var i :| 0 <= i < |stored| && stored[i].id == id;
    ToggleThenPatchAgree(stored, id, song, i);
    var local := SyncStore.TogglePlaylistSong(stored, id, song);
    assert local[i].id == id;
    PutPlaylistMerges(entries, user, local[i], now);
  }
}
