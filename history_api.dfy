/** The play-history endpoint, functions/api/user/history.ts: a list of
    plays under `history:<user>`, newest first, at most one hundred. */
module HistoryApi {
  import opened Common
  import opened Kv

  const MaxHistory := 100

  function HistoryKey(user: string): string {
    "history:" + user
  }

  /** The stored plays, none when nothing is stored, or None when the stored
      value is not a list of plays. */
  function ReadHistory(entries: map<string, Stored>, key: string): (r: Option<seq<HistoryItem>>)
    ensures key !in entries ==> r == Some([])
    ensures key in entries ==> (r.Some? <==> entries[key].HistoryData?)
    ensures key in entries && entries[key].HistoryData? ==> r == Some(entries[key].items)
  {
    if key !in entries then Some([])
    else if entries[key].HistoryData? then Some(entries[key].items)
    else None
  }

  /** Record one play: it goes first, and the list is cut at one hundred. */
  function Prepend(items: seq<HistoryItem>, item: HistoryItem): (r: seq<HistoryItem>)
    ensures |r| == Min(MaxHistory, |items| + 1)
    ensures r[0] == item
    ensures r[1..] == items[..|r| - 1]
  {
    var next := [item] + items;
    if |next| > MaxHistory then next[..MaxHistory] else next
  }

  function HistoryHandler(entries: map<string, Stored>, req: Request, now: int): Outcome {
    match req.user
    case None => Outcome(Response(401, None), entries)
    case Some(user) =>
      var key := HistoryKey(user);
      match req.httpMethod
      case Get => Outcome(Response(200, Some(Lookup(entries, key).GetOr(HistoryData([])))), entries)
      case Post =>
        if !req.body.TrackJson? then Outcome(Response(500, None), entries)
        else
          (match ReadHistory(entries, key)
           case None => Outcome(Response(500, None), entries)
           case Some(items) =>
             var next := HistoryData(Prepend(items, HistoryItem(req.body.song, now)));
             Outcome(Response(200, Some(next)), entries[key := next]))
      case Delete => Outcome(Response(200, None), entries - {key})
      case _ => Outcome(Response(405, None), entries)
  }

  method HandleHistory(kv: KvNamespace, req: Request, now: int) returns (resp: Response)
    modifies kv
    ensures Outcome(resp, kv.entries) == HistoryHandler(old(kv.entries), req, now)
  {
    if req.user.None? {
      return Response(401, None);
    }
    var key := HistoryKey(req.user.value);
    match req.httpMethod {
      case Get =>
        var stored := kv.Get(key);
        return Response(200, Some(stored.GetOr(HistoryData([]))));
      case Post =>
        if !req.body.TrackJson? {
          return Response(500, None);
        }
        var raw := kv.Get(key);
        if raw.Some? && !raw.value.HistoryData? {
          return Response(500, None);
        }
        var history := if raw.Some? then raw.value.items else [];
        history := [HistoryItem(req.body.song, now)] + history;
        if |history| > MaxHistory {
          history := history[..MaxHistory];
        }
        kv.Put(key, HistoryData(history));
        return Response(200, Some(HistoryData(history)));
      case Delete =>
        kv.Delete(key);
        return Response(200, None);
      case _ =>
        return Response(405, None);
    }
  }

  /** Only the user's own history is ever written or removed, a request that
      fails writes nothing, and without a valid token the answer is 401. */
  lemma HistoryTouchOwnKey(entries: map<string, Stored>, req: Request, now: int)
    ensures var o := HistoryHandler(entries, req, now);
      && (req.user.None? ==> o.response.status == 401)
      && (o.response.status != 200 ==> o.entries == entries)
      && (forall k :: (req.user.None? || k != HistoryKey(req.user.value)) ==>
            (k in o.entries <==> k in entries) && (k in entries ==> o.entries[k] == entries[k]))
  {
  }

  /** Clearing and then reading gives an empty history. */
  lemma HistoryClearThenRead(entries: map<string, Stored>, user: string, q: map<string, string>, b: Body, now1: int, now2: int)
    ensures var cleared := HistoryHandler(entries, Request(Delete, Some(user), q, b), now1);
      HistoryHandler(cleared.entries, Request(Get, Some(user), q, b), now2).response == Response(200, Some(HistoryData([])))
  {
  }

  /** Plays are kept newest first: when every stored play is no later than
      the new one, the list stays ordered by time, newest first. */
  predicate NewestFirst(items: seq<HistoryItem>) {
    forall i, j :: 0 <= i < j < |items| ==> items[i].playedAt >= items[j].playedAt
  }

  lemma HistoryStaysNewestFirst(items: seq<HistoryItem>, song: Song, now: int)
    requires NewestFirst(items) && (items != [] ==> items[0].playedAt <= now)
    ensures NewestFirst(Prepend(items, HistoryItem(song, now)))
  {
    var r := Prepend(items, HistoryItem(song, now));
    forall i, j | 0 <= i < j < |r| ensures r[i].playedAt >= r[j].playedAt {
      assert r[j] == items[j - 1];
      if i > 0 {
        assert r[i] == items[i - 1];
      } else if j > 1 {
        assert items[0].playedAt >= items[j - 1].playedAt;
      }
    }
  }

  /** Recording a play leaves at most one hundred entries, the new play first. */
  lemma HistoryIsBounded(entries: map<string, Stored>, user: string, song: Song, q: map<string, string>, now: int)
    requires var key := HistoryKey(user); key in entries ==> entries[key].HistoryData?
    ensures var o := HistoryHandler(entries, Request(Post, Some(user), q, TrackJson(song)), now);
      var key := HistoryKey(user);
      o.response.status == 200 && key in o.entries && o.entries[key].HistoryData?
      && 1 <= |o.entries[key].items| <= MaxHistory
      && o.entries[key].items[0] == HistoryItem(song, now)
  {
  }
}
