/** Values shared by the client store, the player and the server handlers:
    tracks and their identity, playlists and their partial updates, the
    generic list filter the source spells `xs.filter(...)`, and the outcome
    of a remote call. */
module Common {

  datatype Option<T> = None | Some(value: T) {
    function GetOr(default: T): T {
      match this
      case Some(v) => v
      case None => default
    }
  }

  function Min(a: int, b: int): int { if a <= b then a else b }
  function Max(a: int, b: int): int { if a >= b then a else b }

  /** A track. Only `id` and `platform` take part in identity; the other
      attributes are carried along unchanged. */
  datatype Song = Song(id: string, platform: string, name: string, artist: string)

  /** The identity test used everywhere: same provider-local id on the same platform. */
  predicate SameSong(a: Song, b: Song) {
    a.id == b.id && a.platform == b.platform
  }

  /** `songs.some(s => s.id === song.id && s.platform === song.platform)` */
  predicate HasSong(songs: seq<Song>, song: Song) {
    exists i :: 0 <= i < |songs| && SameSong(songs[i], song)
  }

  /** No two entries share an identity. */
  predicate UniqueSongs(songs: seq<Song>) {
    forall i, j :: 0 <= i < j < |songs| ==> !SameSong(songs[i], songs[j])
  }

  /** A user playlist. Any further attributes of the source's playlists are not modelled. */
  datatype Playlist = Playlist(id: string, name: string, songs: seq<Song>)

  /** A partial playlist: the fields that are present overwrite, as `{ ...p, ...updates }` does. */
  datatype PlaylistPatch = PlaylistPatch(id: Option<string>, name: Option<string>, songs: Option<seq<Song>>)

  function Merge(p: Playlist, u: PlaylistPatch): (r: Playlist)
    ensures r.id == u.id.GetOr(p.id)
    ensures r.name == u.name.GetOr(p.name)
    ensures r.songs == u.songs.GetOr(p.songs)
  {
    Playlist(u.id.GetOr(p.id), u.name.GetOr(p.name), u.songs.GetOr(p.songs))
  }

  predicate HasPlaylist(playlists: seq<Playlist>, id: string) {
    exists i :: 0 <= i < |playlists| && playlists[i].id == id
  }

  /** Outcome of one awaited remote call: success, or a rejection whose
      message is None when the thrown value was not an `Error`. */
  datatype RemoteOutcome = Ok | Failed(message: Option<string>) {
    /** `error instanceof Error ? error.message : fallback` */
    function MessageOr(fallback: string): string
      requires Failed?
    {
      message.GetOr(fallback)
    }
  }

  datatype SyncStatus = Idle | Syncing | Success | Error

  // ---------------------------------------------------------------------
  // Filtering, the one list transform that every component uses.
  // ---------------------------------------------------------------------

  /** `s.filter(keep)`: the entries satisfying `keep`, in their original order. */
  function Filter<T(==,!new)>(s: seq<T>, keep: T -> bool): (r: seq<T>)
    ensures |r| <= |s|
    ensures forall x :: x in r <==> x in s && keep(x)
  {
    if s == [] then []
    else (if keep(s[0]) then [s[0]] else []) + Filter(s[1..], keep)
  }

  lemma {:induction false} FilterAppend<T(!new)>(a: seq<T>, b: seq<T>, keep: T -> bool)
    ensures Filter(a + b, keep) == Filter(a, keep) + Filter(b, keep)
  {
    if a == [] {
      assert a + b == b;
    } else {
      assert (a + b)[1..] == a[1..] + b;
      FilterAppend(a[1..], b, keep);
    }
  }

  /** Filtering a list whose entries are all kept gives the list back. */
  lemma {:induction false} FilterKeepsAll<T(!new)>(s: seq<T>, keep: T -> bool)
    requires forall i :: 0 <= i < |s| ==> keep(s[i])
    ensures Filter(s, keep) == s
  {
    if s != [] {
      FilterKeepsAll(s[1..], keep);
    }
  }

  /** Filtering depends only on which entries the predicate keeps. */
  lemma {:induction false} FilterSameKeep<T(!new)>(s: seq<T>, f: T -> bool, g: T -> bool)
    requires forall i :: 0 <= i < |s| ==> f(s[i]) == g(s[i])
    ensures Filter(s, f) == Filter(s, g)
  {
    if s != [] {
      FilterSameKeep(s[1..], f, g);
    }
  }

  /** `a` can be obtained from `b` by deleting entries: relative order is kept. */
  ghost predicate IsSubsequence<T>(a: seq<T>, b: seq<T>)
    decreases |b|
  {
    a == [] || (b != [] && if a[0] == b[0] then IsSubsequence(a[1..], b[1..]) else IsSubsequence(a, b[1..]))
  }

  lemma {:induction false} FilterIsSubsequence<T(!new)>(s: seq<T>, keep: T -> bool)
    ensures IsSubsequence(Filter(s, keep), s)
  {
    if s != [] {
      FilterIsSubsequence(s[1..], keep);
      if keep(s[0]) {
        assert Filter(s, keep) == [s[0]] + Filter(s[1..], keep);
      } else {
        assert Filter(s, keep) == Filter(s[1..], keep);
        SubsequenceOfTail(Filter(s[1..], keep), s);
      }
    }
  }

  lemma {:induction false} SubsequenceOfTail<T>(a: seq<T>, b: seq<T>)
    requires b != [] && IsSubsequence(a, b[1..])
    ensures IsSubsequence(a, b)
    decreases |b|, 0
  {
    if a != [] && a[0] == b[0] {
      SubsequenceDropHead(a, b[1..]);
    }
  }

  lemma {:induction false} SubsequenceDropHead<T>(a: seq<T>, b: seq<T>)
    requires a != [] && IsSubsequence(a, b)
    ensures IsSubsequence(a[1..], b)
    decreases |b|, 1
  {
    if a[1..] != [] {
      if a[0] == b[0] {
        SubsequenceOfTail(a[1..], b);
      } else {
        SubsequenceDropHead(a, b[1..]);
        SubsequenceOfTail(a[1..], b);
      }
    }
  }

  /** A prefix of a subsequence is a subsequence. */
  lemma {:induction false} PrefixOfSubsequence<T>(a: seq<T>, b: seq<T>, k: nat)
    requires k <= |a| && IsSubsequence(a, b)
    ensures IsSubsequence(a[..k], b)
    decreases |b|
  {
    if k > 0 {
      if a[0] == b[0] {
        assert a[..k][1..] == a[1..][..k - 1];
        PrefixOfSubsequence(a[1..], b[1..], k - 1);
      } else {
        PrefixOfSubsequence(a, b[1..], k);
      }
    }
  }

  // ---------------------------------------------------------------------
  // The identity filters built on Filter.
  // ---------------------------------------------------------------------

  function NotSameSong(song: Song): Song -> bool {
    (s: Song) => !SameSong(s, song)
  }

  /** `songs.filter(s => !(s.id === song.id && s.platform === song.platform))` */
  function RemoveSong(songs: seq<Song>, song: Song): (r: seq<Song>)
    ensures !HasSong(r, song)
    ensures forall x :: x in r <==> x in songs && !SameSong(x, song)
  {
    var r := Filter(songs, NotSameSong(song));
    forall i | 0 <= i < |r| ensures !SameSong(r[i], song) {
      assert r[i] in r;
    }
    r
  }

  /** Removing an identity that is not present changes nothing. */
  lemma RemoveAbsentSong(songs: seq<Song>, song: Song)
    requires !HasSong(songs, song)
    ensures RemoveSong(songs, song) == songs
  {
    FilterKeepsAll(songs, NotSameSong(song));
  }

  /** Removal goes by identity only: any two records of the same track remove the same entries. */
  lemma RemoveSameIdentity(songs: seq<Song>, a: Song, b: Song)
    requires SameSong(a, b)
    ensures RemoveSong(songs, a) == RemoveSong(songs, b)
  {
    FilterSameKeep(songs, NotSameSong(a), NotSameSong(b));
  }

  function OtherPlaylist(id: string): Playlist -> bool {
    (p: Playlist) => p.id != id
  }

  /** `playlists.filter(p => p.id !== id)` */
  function RemovePlaylist(playlists: seq<Playlist>, id: string): (r: seq<Playlist>)
    ensures !HasPlaylist(r, id)
    ensures forall p :: p in r <==> p in playlists && p.id != id
  {
    var r := Filter(playlists, OtherPlaylist(id));
    forall i | 0 <= i < |r| ensures r[i].id != id {
      assert r[i] in r;
    }
    r
  }

  lemma RemoveAbsentPlaylist(playlists: seq<Playlist>, id: string)
    requires !HasPlaylist(playlists, id)
    ensures RemovePlaylist(playlists, id) == playlists
  {
    FilterKeepsAll(playlists, OtherPlaylist(id));
  }

  /** `playlists.map(p => p.id === id ? { ...p, ...u } : p)` */
  function PatchPlaylists(playlists: seq<Playlist>, id: string, u: PlaylistPatch): (r: seq<Playlist>)
    ensures |r| == |playlists|
    ensures forall i :: 0 <= i < |r| ==>
      r[i] == if playlists[i].id == id then Merge(playlists[i], u) else playlists[i]
  {
    if playlists == [] then []
    else [if playlists[0].id == id then Merge(playlists[0], u) else playlists[0]]
         + PatchPlaylists(playlists[1..], id, u)
  }
}
