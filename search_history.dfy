/** The search history of src/components/SearchView.tsx: the most recent
    distinct search terms, newest first, at most fifty. The copy kept in
    local storage is not modelled; the history is the list in state. */
module SearchHistory {
  import opened Common
  import opened Search

  const MaxHistoryItems := 50

  /** `kw || keyword`: an explicit term wins unless it is missing or empty. */
  function SearchTerm(kw: Option<string>, keyword: string): (r: string)
    ensures kw.Some? && kw.value != "" ==> r == kw.value
    ensures kw == None || kw == Some("") ==> r == keyword
  {
    match kw
    case Some(k) => if k != "" then k else keyword
    case None => keyword
  }

  function NotTerm(term: string): string -> bool {
    (h: string) => h != term
  }

  /** The history update of `handleSearch`: the term moves to the front,
      other terms keep their order, and the list is cut at fifty. */
  function RecordSearch(history: seq<string>, term: string): (r: seq<string>)
    ensures 1 <= |r| <= MaxHistoryItems
    ensures r[0] == term
    ensures term !in r[1..]
  {
    var f := Filter(history, NotTerm(term));
    var moved := [term] + f;
    var r := moved[..Min(MaxHistoryItems, |moved|)];
    assert r[1..] == f[..|r| - 1];
    assert term !in f;
    assert forall x :: x in f[..|r| - 1] ==> x in f;
    r
  }

  /** `deleteHistoryItem`: every copy of the item goes, nothing else does. */
  function DeleteItem(history: seq<string>, item: string): (r: seq<string>)
    ensures item !in r
    ensures forall h :: h in r <==> h in history && h != item
    ensures IsSubsequence(r, history)
  {
    FilterIsSubsequence(history, NotTerm(item));
    Filter(history, NotTerm(item))
  }

  /** What the user can do to the history. */
  datatype HistoryAction = SearchFor(kw: Option<string>) | DeleteEntry(item: string) | ClearAll

  /** The history after one action, given the keyword in the search box.
      A blank search changes nothing; clearing (after confirmation) empties it. */
  function Apply(history: seq<string>, keyword: string, action: HistoryAction): (r: seq<string>)
    ensures |r| <= Max(|history|, MaxHistoryItems)
  {
    match action
    case SearchFor(kw) =>
      var term := SearchTerm(kw, keyword);
      if IsBlank(term) then history else RecordSearch(history, term)
    case DeleteEntry(item) => DeleteItem(history, item)
    case ClearAll => []
  }

  predicate NoDuplicates(s: seq<string>) {
    forall i, j :: 0 <= i < j < |s| ==> s[i] != s[j]
  }

  /** The terms after the first are earlier history in its order: recording
      a search never reorders the other terms. */
  lemma RecordSearchKeepsOrder(history: seq<string>, term: string)
    ensures IsSubsequence(RecordSearch(history, term)[1..], history)
  {
    var f := Filter(history, NotTerm(term));
    var r := RecordSearch(history, term);
    FilterIsSubsequence(history, NotTerm(term));
    assert r[1..] == f[..|r| - 1];
    PrefixOfSubsequence(f, history, |r| - 1);
  }

  /** Nothing is lost below the cap: every other term survives when the
      history had room. */
  lemma RecordSearchKeepsOthers(history: seq<string>, term: string, h: string)
    requires |history| < MaxHistoryItems && h in history && h != term
    ensures h in RecordSearch(history, term)
  {
    var f := Filter(history, NotTerm(term));
    assert h in f;
    assert RecordSearch(history, term) == [term] + f;
  }

  lemma {:induction false} FilterKeepsNoDuplicates(s: seq<string>, keep: string -> bool)
    requires NoDuplicates(s)
    ensures NoDuplicates(Filter(s, keep))
  {
    if s != [] {
      FilterKeepsNoDuplicates(s[1..], keep);
      var rest := Filter(s[1..], keep);
      if keep(s[0]) {
        assert s[0] !in s[1..];
        assert s[0] !in rest;
        assert Filter(s, keep) == [s[0]] + rest;
      } else {
        assert Filter(s, keep) == rest;
      }
    }
  }

  /** Each term appears at most once, whatever the history held before;
      only the duplicates already there can survive. */
  lemma RecordSearchKeepsDistinct(history: seq<string>, term: string)
    requires NoDuplicates(history)
    ensures NoDuplicates(RecordSearch(history, term))
  {
    var f := Filter(history, NotTerm(term));
    FilterKeepsNoDuplicates(history, NotTerm(term));
    var moved := [term] + f;
    assert term !in f;
    assert NoDuplicates(moved) by {
      forall i, j | 0 <= i < j < |moved| ensures moved[i] != moved[j] {
        if i == 0 {
          assert moved[j] == f[j - 1];
          assert f[j - 1] in f;
        } else {
          assert moved[i] == f[i - 1] && moved[j] == f[j - 1];
        }
      }
    }
  }

  /** Searching the newest term again changes nothing: recording is idempotent. */
  lemma RecordSearchTwice(history: seq<string>, term: string)
    ensures RecordSearch(RecordSearch(history, term), term) == RecordSearch(history, term)
  {
    var r := RecordSearch(history, term);
    assert r == [term] + r[1..];
    FilterAppend([term], r[1..], NotTerm(term));
    assert Filter([term], NotTerm(term)) == [];
    assert forall i :: 0 <= i < |r[1..]| ==> NotTerm(term)(r[1..][i]) by {
      forall i | 0 <= i < |r[1..]| ensures r[1..][i] != term {
        assert r[1..][i] in r[1..];
      }
    }
    FilterKeepsAll(r[1..], NotTerm(term));
    assert Filter(r, NotTerm(term)) == r[1..];
  }
}
