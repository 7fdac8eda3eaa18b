/** What the user-data endpoints under functions/api/user/ share: the
    request as the handlers see it once the token has been checked, the
    records they keep in the key-value namespace, their responses, and the
    namespace itself.

    Token verification is not modelled: `user` is the subject of a valid
    token, or None when the token is missing, forged or expired. Request
    bodies are given already decoded; `Unparsable` stands for a body on
    which `request.json()` throws. Records are kept decoded as well;
    `Unreadable` stands for a stored value the handlers cannot use. */
module Kv {
  import opened Common

  datatype HttpMethod = Get | Post | Put | Delete | OtherMethod

  /** A decoded request body. */
  datatype Body =
    | Unparsable
    | TrackJson(song: Song)
    | PlaylistJson(playlist: Playlist)
    | SongListJson(songs: Option<seq<Song>>)
    | PlaylistUpdateJson(playlists: Option<seq<Playlist>>, patch: PlaylistPatch)

  datatype Request = Request(
    httpMethod: HttpMethod,
    user: Option<string>,
    query: map<string, string>,
    body: Body)

  /** One play of a track: the track and the server time it was recorded. */
  datatype HistoryItem = HistoryItem(song: Song, playedAt: int)

  /** A stored value. */
  datatype Stored =
    | FavoritesData(songs: seq<Song>, updatedAt: int, version: int)
    | PlaylistsData(playlists: seq<Playlist>, updatedAt: int, version: int)
    | HistoryData(items: seq<HistoryItem>)
    | Unreadable

  /** A response: its status and, for JSON responses, the data it carries. */
  datatype Response = Response(status: int, data: Option<Stored>)

  /** What a handler does: its response and the namespace afterwards. */
  datatype Outcome = Outcome(response: Response, entries: map<string, Stored>)

  /** `url.searchParams.get(name)` tested with `!`: absent and empty both fail. */
  function QueryParam(query: map<string, string>, name: string): (r: Option<string>)
    ensures r.Some? <==> name in query && query[name] != ""
    ensures r.Some? ==> r.value == query[name]
  {
    if name in query && query[name] != "" then Some(query[name]) else None
  }

  /** The `songs` field of a decoded body, if it has one. */
  function SongsField(body: Body): Option<seq<Song>> {
    match body
    case SongListJson(songs) => songs
    case PlaylistJson(p) => Some(p.songs)
    case PlaylistUpdateJson(_, patch) => patch.songs
    case _ => None
  }

  /** The value stored under `key`, if any. */
  function Lookup(entries: map<string, Stored>, key: string): Option<Stored> {
    if key in entries then Some(entries[key]) else None
  }

  /** The key-value namespace the handlers share. */
  class KvNamespace {
    var entries: map<string, Stored>

    constructor (initial: map<string, Stored>)
      ensures entries == initial
    {
      entries := initial;
    }

    method Get(key: string) returns (v: Option<Stored>)
      ensures v.Some? <==> key in entries
      ensures v.Some? ==> v.value == entries[key]
    {
      if key in entries {
        v := Some(entries[key]);
      } else {
        v := None;
      }
    }

    method Put(key: string, v: Stored)
      modifies this
      ensures entries == old(entries)[key := v]
    {
      entries := entries[key := v];
    }

    method Delete(key: string)
      modifies this
      ensures entries == old(entries) - {key}
    {
      entries := entries - {key};
    }
  }
}
