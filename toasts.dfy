/** The notification stack of src/App.tsx: at most three toasts are shown,
    the oldest are dropped first. The id is the clock reading when the toast
    was added, so it is a parameter here. */
module Toasts {
  import opened Common

  datatype ToastKind = SuccessToast | ErrorToast | InfoToast
  datatype Toast = Toast(id: string, kind: ToastKind, message: string)

  const MaxToasts := 3

  /** `addToast`: append, then keep only the last three. */
  function AddToast(prev: seq<Toast>, t: Toast): (r: seq<Toast>)
    ensures |r| == Min(MaxToasts, |prev| + 1)
    ensures r[|r| - 1] == t
    ensures r == (prev + [t])[|prev| + 1 - |r|..]
  {
    var next := prev + [t];
    if |next| > MaxToasts then next[|next| - MaxToasts..] else next
  }

  /** `removeToast`: drop every toast with that id. */
  function RemoveToast(prev: seq<Toast>, id: string): (r: seq<Toast>)
    ensures |r| <= |prev|
    ensures forall t :: t in r <==> t in prev && t.id != id
  {
    Filter(prev, (t: Toast) => t.id != id)
  }

  /** The stack after a run of additions. */
  function AddAll(prev: seq<Toast>, ts: seq<Toast>): seq<Toast>
    decreases |ts|
  {
    if ts == [] then prev else AddAll(AddToast(prev, ts[0]), ts[1..])
  }

  /** The newest entries of `s`, at most three of them. */
  function Newest(s: seq<Toast>): (r: seq<Toast>)
    ensures |r| == Min(MaxToasts, |s|)
  {
    s[|s| - Min(MaxToasts, |s|)..]
  }

  lemma NewestOfNewest(a: seq<Toast>, b: seq<Toast>)
    ensures Newest(Newest(a) + b) == Newest(a + b)
  {
    var l, r := Newest(Newest(a) + b), Newest(a + b);
    forall i | 0 <= i < |l| ensures l[i] == r[i] {
      var k := |a + b| - |r| + i;
      if k >= |a| {
        assert r[i] == b[k - |a|];
      }
    }
  }

  /** One addition keeps the newest three of the old stack and the new toast. */
  lemma AddToastIsNewest(prev: seq<Toast>, t: Toast)
    ensures AddToast(prev, t) == Newest(prev + [t])
  {
  }

  /** Whatever was shown before (at most three toasts), the stack after a
      run of additions is the newest three of everything, in order: older
      toasts are evicted first. */
  lemma {:induction false} AddAllKeepsNewest(prev: seq<Toast>, ts: seq<Toast>)
    requires |prev| <= MaxToasts
    ensures AddAll(prev, ts) == Newest(prev + ts)
    decreases |ts|
  {
    if ts == [] {
      assert prev + ts == prev;
    } else {
      var t, rest := ts[0], ts[1..];
      var next := AddToast(prev, t);
      assert prev + [t] + rest == prev + ts by {
        assert ts == [t] + rest;
      }
      calc {
        AddAll(prev, ts);
        AddAll(next, rest);
        { AddAllKeepsNewest(next, rest); }
        Newest(next + rest);
        { AddToastIsNewest(prev, t); }
        Newest(Newest(prev + [t]) + rest);
        { NewestOfNewest(prev + [t], rest); }
        Newest(prev + [t] + rest);
        Newest(prev + ts);
      }
    }
  }

  /** Once at least three toasts follow, the older ones are out of the newest three. */
  lemma NewestOfLongTail(prev: seq<Toast>, ts: seq<Toast>)
    requires |ts| >= MaxToasts
    ensures Newest(prev + ts) == ts[|ts| - MaxToasts..]
  {
    var all := prev + ts;
    var l, r := Newest(all), ts[|ts| - MaxToasts..];
    forall i | 0 <= i < |l| ensures l[i] == r[i] {
      assert l[i] == all[|prev| + |ts| - MaxToasts + i];
    }
  }

  /** After three or more additions, exactly the latest three are shown. */
  lemma LatestThreeStay(prev: seq<Toast>, ts: seq<Toast>)
    requires |prev| <= MaxToasts && |ts| >= MaxToasts
    ensures AddAll(prev, ts) == ts[|ts| - MaxToasts..]
  {
    AddAllKeepsNewest(prev, ts);
    NewestOfLongTail(prev, ts);
  }
}
