/** The favorites endpoint, functions/api/user/favorites.ts: one record per
    user under `favorites:<user>`, holding the list of favorite tracks, the
    time of the last change and a version counter. */
module FavoritesApi {
  import opened Common
  import opened Kv
  import SyncStore

  function FavoritesKey(user: string): string {
    "favorites:" + user
  }

  const EmptyFavorites := FavoritesData([], 0, 0)

  /** The record a write starts from: the stored one, the empty record when
      there is none, or None when the stored value is not a favorites record. */
  function ReadFavorites(entries: map<string, Stored>, key: string): (r: Option<Stored>)
    ensures r.Some? ==> r.value.FavoritesData?
    ensures key !in entries ==> r == Some(EmptyFavorites)
    ensures key in entries && entries[key].FavoritesData? ==> r == Some(entries[key])
  {
    if key !in entries then Some(EmptyFavorites)
    else if entries[key].FavoritesData? then Some(entries[key])
    else None
  }

  /** The whole handler: its response and the namespace after it, for a
      request arriving at server time `now`. */
  function FavoritesHandler(entries: map<string, Stored>, req: Request, now: int): Outcome {
    match req.user
    case None => Outcome(Response(401, None), entries)
    case Some(user) =>
      var key := FavoritesKey(user);
      match req.httpMethod
      case Get => Outcome(Response(200, Some(Lookup(entries, key).GetOr(EmptyFavorites))), entries)
      case Post =>
        if !req.body.TrackJson? then Outcome(Response(500, None), entries)
        else
          var song := req.body.song;
          (match ReadFavorites(entries, key)
           case None => Outcome(Response(500, None), entries)
           case Some(data) =>
             if HasSong(data.songs, song) then Outcome(Response(200, Some(data)), entries)
             else
               var next := FavoritesData(data.songs + [song], now, data.version + 1);
               Outcome(Response(200, Some(next)), entries[key := next]))
      case Delete =>
        var id, platform := QueryParam(req.query, "id"), QueryParam(req.query, "platform");
        if id.None? || platform.None? then Outcome(Response(400, None), entries)
        else
          (match ReadFavorites(entries, key)
           case None => Outcome(Response(500, None), entries)
           case Some(data) =>
             var next := FavoritesData(RemoveSong(data.songs, Song(id.value, platform.value, "", "")), now, data.version + 1);
             Outcome(Response(200, Some(next)), entries[key := next]))
      case Put =>
        if req.body.Unparsable? then Outcome(Response(500, None), entries)
        else
          var next := FavoritesData(SongsField(req.body).GetOr([]), now, 1);
          Outcome(Response(200, Some(next)), entries[key := next])
      case OtherMethod => Outcome(Response(405, None), entries)
  }

  /** The handler as the worker runs it: read the record, change its fields
      one by one, write it back. */
  method HandleFavorites(kv: KvNamespace, req: Request, now: int) returns (resp: Response)
    modifies kv
    ensures Outcome(resp, kv.entries) == FavoritesHandler(old(kv.entries), req, now)
  {
    if req.user.None? {
      return Response(401, None);
    }
    var key := FavoritesKey(req.user.value);
    if req.httpMethod == Get {
      var stored := kv.Get(key);
      return Response(200, Some(stored.GetOr(EmptyFavorites)));
    }
    if req.httpMethod == Post {
      if !req.body.TrackJson? {
        return Response(500, None);
      }
      var song := req.body.song;
      var raw := kv.Get(key);
      if raw.Some? && !raw.value.FavoritesData? {
        return Response(500, None);
      }
      var data := raw.GetOr(EmptyFavorites);
      var songs, updatedAt, version := data.songs, data.updatedAt, data.version;
      if !HasSong(songs, song) {
        songs := songs + [song];
        updatedAt := now;
        version := version + 1;
        kv.Put(key, FavoritesData(songs, updatedAt, version));
      }
      return Response(200, Some(FavoritesData(songs, updatedAt, version)));
    }
    if req.httpMethod == Delete {
      var id, platform := QueryParam(req.query, "id"), QueryParam(req.query, "platform");
      if id.None? || platform.None? {
        return Response(400, None);
      }
      var raw := kv.Get(key);
      if raw.Some? && !raw.value.FavoritesData? {
        return Response(500, None);
      }
      var data := raw.GetOr(EmptyFavorites);
      var songs, updatedAt, version := data.songs, data.updatedAt, data.version;
      songs := RemoveSong(songs, Song(id.value, platform.value, "", ""));
      updatedAt := now;
      version := version + 1;
      kv.Put(key, FavoritesData(songs, updatedAt, version));
      return Response(200, Some(FavoritesData(songs, updatedAt, version)));
    }
    if req.httpMethod == Put {
      if req.body.Unparsable? {
        return Response(500, None);
      }
      var data := FavoritesData(SongsField(req.body).GetOr([]), now, 1);
      kv.Put(key, data);
      return Response(200, Some(data));
    }
    return Response(405, None);
  }

  /** Without a valid token nothing is read or written. */
  lemma FavoritesRequireUser(entries: map<string, Stored>, req: Request, now: int)
    requires req.user.None?
    ensures FavoritesHandler(entries, req, now) == Outcome(Response(401, None), entries)
  {
  }

  /** A request only ever touches its own user's favorites record, and a
      request that fails leaves the namespace as it was. */
  lemma FavoritesTouchOwnKey(entries: map<string, Stored>, req: Request, now: int)
    ensures var o := FavoritesHandler(entries, req, now);
      && (o.response.status != 200 ==> o.entries == entries)
      && (o.entries == entries || (req.user.Some? && FavoritesKey(req.user.value) in o.entries
            && o.entries == entries[FavoritesKey(req.user.value) := o.entries[FavoritesKey(req.user.value)]]))
  {
  }

  /** Adding a track that is already a favorite writes nothing, so adding
      twice is the same as adding once. */
  lemma FavoritesPostIdempotent(entries: map<string, Stored>, user: string, song: Song, q: map<string, string>, now1: int, now2: int)
    ensures var req := Request(Post, Some(user), q, TrackJson(song));
      var once := FavoritesHandler(entries, req, now1);
      FavoritesHandler(once.entries, req, now2).entries == once.entries
  {
    var key := FavoritesKey(user);
    var req := Request(Post, Some(user), q, TrackJson(song));
    var once := FavoritesHandler(entries, req, now1);
    match ReadFavorites(entries, key)
    case None =>
    case Some(data) =>
      if !HasSong(data.songs, song) {
        assert once.entries[key].songs == data.songs + [song];
        assert (data.songs + [song])[|data.songs|] == song;
        assert HasSong(once.entries[key].songs, song);
      }
  }

  /** Adding and removing keep a list without repeated tracks free of them. */
  lemma FavoritesKeepUnique(entries: map<string, Stored>, req: Request, now: int)
    requires req.user.Some? && (req.httpMethod == Post || req.httpMethod == Delete)
    requires var key := FavoritesKey(req.user.value);
      key in entries ==> entries[key].FavoritesData? && UniqueSongs(entries[key].songs)
    ensures var key := FavoritesKey(req.user.value);
      var o := FavoritesHandler(entries, req, now);
      key in o.entries ==> o.entries[key].FavoritesData? && UniqueSongs(o.entries[key].songs)
  {
    var key := FavoritesKey(req.user.value);
    match ReadFavorites(entries, key)
    case None =>
    case Some(data) =>
      if req.httpMethod == Post && req.body.TrackJson? {
        SyncStore.ToggleSongKeepsUnique(data.songs, req.body.song);
      }
      if req.httpMethod == Delete && QueryParam(req.query, "id").Some? && QueryParam(req.query, "platform").Some? {
        var gone := Song(QueryParam(req.query, "id").value, QueryParam(req.query, "platform").value, "", "");
        SyncStore.FilterKeepsUnique(data.songs, NotSameSong(gone));
      }
  }

  /** A removal is written and counted even when it matched nothing. */
  lemma FavoritesDeleteAlwaysCounts(entries: map<string, Stored>, user: string, q: map<string, string>, body: Body, now: int)
    requires QueryParam(q, "id").Some? && QueryParam(q, "platform").Some?
    requires var key := FavoritesKey(user); key in entries && entries[key].FavoritesData?
    ensures var key := FavoritesKey(user);
      var o := FavoritesHandler(entries, Request(Delete, Some(user), q, body), now);
      o.response.status == 200 && o.entries[key].version == entries[key].version + 1
      && o.entries[key].updatedAt == now
  {
  }

  /** A whole-list PUT replaces the record, whatever was stored, with the
      body's `songs` (an empty list when the field is missing), the request
      time and version 1; a body that does not parse is a 500 and writes
      nothing. */
  lemma FavoritesPutReplaces(entries: map<string, Stored>, user: string, q: map<string, string>, body: Body, now: int)
    ensures var key := FavoritesKey(user);
      var o := FavoritesHandler(entries, Request(Put, Some(user), q, body), now);
      && (body.Unparsable? ==> o == Outcome(Response(500, None), entries))
      && (!body.Unparsable? ==>
            && o.response.status == 200
            && o.entries == entries[key := FavoritesData(SongsField(body).GetOr([]), now, 1)]
            && o.response.data == Some(o.entries[key]))
  {
  }

  /** The version is not monotone: a batch upload resets it to 1, so a
      record at any version above 1 goes back down. */
  lemma FavoritesVersionCanDecrease(entries: map<string, Stored>, user: string, q: map<string, string>, body: Body, now: int)
    requires !body.Unparsable?
    requires var key := FavoritesKey(user); key in entries && entries[key].FavoritesData? && entries[key].version > 1
    ensures var key := FavoritesKey(user);
      var o := FavoritesHandler(entries, Request(Put, Some(user), q, body), now);
      o.response.status == 200 && o.entries[key].version == 1 < entries[key].version
  {
    FavoritesPutReplaces(entries, user, q, body, now);
  }

  /** The server follows the client: when the stored list equals the local
      favorites, the request a toggle sends (an add for a new track, a
      removal by id and platform otherwise) leaves the stored list equal
      to the toggled local list. */
  lemma FavoritesFollowToggle(entries: map<string, Stored>, user: string, song: Song, now: int)
    requires song.id != "" && song.platform != ""
    requires var key := FavoritesKey(user); key in entries && entries[key].FavoritesData?
    ensures var key := FavoritesKey(user);
      var local := entries[key].songs;
      var req := if HasSong(local, song)
        then Request(Delete, Some(user), map["id" := song.id, "platform" := song.platform], Unparsable)
        else Request(Post, Some(user), map[], TrackJson(song));
      var o := FavoritesHandler(entries, req, now);
      o.response.status == 200 && o.entries[key].songs == SyncStore.ToggleSong(local, song)
  {
    var key := FavoritesKey(user);
    var local := entries[key].songs;
    if HasSong(local, song) {
      var q := map["id" := song.id, "platform" := song.platform];
      assert QueryParam(q, "id") == Some(song.id);
      assert QueryParam(q, "platform") == Some(song.platform);
      RemoveSameIdentity(local, Song(song.id, song.platform, "", ""), song);
    }
  }
}
