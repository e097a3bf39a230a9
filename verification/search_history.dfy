/**
 The search-history ledger of app/store/search.store.ts: a most-recent-first
 list of trimmed, non-empty, pairwise distinct queries holding at most ten
 entries, with a five-entry "recent searches" view.
 */
module SearchHistory {

  import opened JsString

  /** The ledger keeps only the last ten searches. */
  const MaxEntries: nat := 10

  /** The `recentSearches` getter shows the first five entries. */
  const RecentCount: nat := 5

  function Min(a: nat, b: nat): nat {
    if a <= b then a else b
  }

  predicate Distinct(h: seq<string>) {
    forall i, j :: 0 <= i < j < |h| ==> h[i] != h[j]
  }

  /** What `addToHistory` ever stores: a trimmed, non-empty query. */
  predicate WellFormedEntry(e: string) {
    e != [] && IsTrimmed(e)
  }

  /** The ledger invariant. */
  predicate Valid(h: seq<string>) {
    && |h| <= MaxEntries
    && Distinct(h)
    && forall i :: 0 <= i < |h| ==> WellFormedEntry(h[i])
  }

  /** `addToHistory(query)`: a query whose trim is empty, or whose trim is
      already recorded, leaves the ledger as it is; otherwise the trimmed
      query goes to the front and the ledger is cut back to ten entries. */
  function AddToHistory(h: seq<string>, query: string): (r: seq<string>)
    ensures Trim(query) == [] ==> r == h
    ensures Trim(query) in h ==> r == h
    ensures Trim(query) != [] && Trim(query) !in h ==>
              && |r| == Min(|h| + 1, MaxEntries)
              && r[0] == Trim(query)
              && r[1..] == h[..|r| - 1]
  {
    var t := Trim(query);
    if t != [] && t !in h then
      var grown := [t] + h;
      if |grown| > MaxEntries then grown[..MaxEntries] else grown
    else
      h
  }

  /** `addToHistory` keeps the ledger invariant. */
  lemma AddPreservesValid(h: seq<string>, query: string)
    requires Valid(h)
    ensures Valid(AddToHistory(h, query))
  {
    var t := Trim(query);
    var r := AddToHistory(h, query);
    if t != [] && t !in h {
      forall i, j | 0 <= i < j < |r|
        ensures r[i] != r[j]
      {
        if i == 0 {
          assert r[j] == h[j - 1];
        } else {
          assert r[i] == h[i - 1] && r[j] == h[j - 1];
        }
      }
      forall i | 0 <= i < |r|
        ensures WellFormedEntry(r[i])
      {
        if i > 0 {
          assert r[i] == h[i - 1];
        }
      }
    }
  }

  /** Nothing but the new query enters the ledger, the new query is
      recorded whenever its trim is non-empty, and while the ledger has room
      no old entry is lost. */
  lemma AddMembership(h: seq<string>, query: string, x: string)
    ensures x in AddToHistory(h, query) ==> x in h || x == Trim(query)
    ensures Trim(query) != [] ==> Trim(query) in AddToHistory(h, query)
    ensures |h| < MaxEntries && x in h ==> x in AddToHistory(h, query)
  {
    var r := AddToHistory(h, query);
    var t := Trim(query);
    if t != [] && t !in h {
      if x in r {
        var k :| 0 <= k < |r| && r[k] == x;
        if k > 0 {
          assert x == h[k - 1];
        }
      }
      if |h| < MaxEntries && x in h {
        var k :| 0 <= k < |h| && h[k] == x;
        assert r[k + 1] == x;
      }
    }
  }

  /** Recording a query into a full ledger drops the oldest entry and keeps
      the other nine in order behind the new one. */
  lemma AddToFullEvictsOldest(h: seq<string>, query: string)
    requires Valid(h) && |h| == MaxEntries
    requires Trim(query) != [] && Trim(query) !in h
    ensures AddToHistory(h, query) == [Trim(query)] + h[..MaxEntries - 1]
    ensures h[MaxEntries - 1] !in AddToHistory(h, query)
  {
    var r := AddToHistory(h, query);
    assert r == [Trim(query)] + r[1..];
  }

  /** Recording the same query again changes nothing. */
  lemma AddIdempotent(h: seq<string>, query: string)
    ensures AddToHistory(AddToHistory(h, query), query) == AddToHistory(h, query)
  {
    AddMembership(h, query, Trim(query));
  }

  /** Only the trimmed text of a query matters. */
  lemma AddIgnoresPadding(h: seq<string>, query: string)
    ensures AddToHistory(h, Trim(query)) == AddToHistory(h, query)
  {
    TrimIdempotent(query);
  }

  /** Recording a query with non-whitespace text twice into an empty ledger
      leaves exactly its trimmed text, once. */
  lemma AddTwiceFromEmpty(query: string)
    requires Trim(query) != []
    ensures AddToHistory(AddToHistory([], query), query) == [Trim(query)]
  {
    var t := Trim(query);
    var once := AddToHistory([], query);
    assert |once| == 1 && once[0] == t;
    assert once == [t];
    AddIdempotent([], query);
  }

  /** `recentSearches`: `slice(0, 5)` of the ledger. */
  function RecentSearches(h: seq<string>): (r: seq<string>)
    ensures |r| == Min(RecentCount, |h|)
    ensures forall i :: 0 <= i < |r| ==> r[i] == h[i]
  {
    if |h| <= RecentCount then h else h[..RecentCount]
  }

  /** The recent view of a valid ledger is itself a valid ledger. */
  lemma RecentOfValid(h: seq<string>)
    requires Valid(h)
    ensures Valid(RecentSearches(h))
  {
  }

  /** After a new query is recorded it heads the recent view. */
  lemma RecentAfterAdd(h: seq<string>, query: string)
    requires Trim(query) != [] && Trim(query) !in h
    ensures RecentSearches(AddToHistory(h, query))[0] == Trim(query)
  {
  }

  /** The ledger after recording `qs` in order, starting from an empty one. */
  function Replay(qs: seq<string>): seq<string>
  {
    if qs == [] then [] else AddToHistory(Replay(qs[..|qs| - 1]), qs[|qs| - 1])
  }

  /** Any sequence of queries leaves a valid ledger. */
  lemma {:induction false} ReplayValid(qs: seq<string>)
    ensures Valid(Replay(qs))
  {
    if qs != [] {
      ReplayValid(qs[..|qs| - 1]);
      AddPreservesValid(Replay(qs[..|qs| - 1]), qs[|qs| - 1]);
    }
  }

  /** Recording an already trimmed, non-empty, unrecorded query puts it in
      front of the ledger and keeps at most ten entries. */
  lemma AddFresh(h: seq<string>, q: string)
    requires WellFormedEntry(q) && q !in h
    ensures AddToHistory(h, q) == ([q] + h)[..Min(|h| + 1, MaxEntries)]
  {
    TrimOfTrimmed(q);
  }

  /** The ledger holds the last `|h|` queries of `qs`, newest first. */
  predicate NewestFirst(h: seq<string>, qs: seq<string>) {
    && |h| <= |qs|
    && forall i :: 0 <= i < |h| ==> h[i] == qs[|qs| - 1 - i]
  }

  /** One step of ReplayDistinct: a fresh query recorded on top of the most
      recent earlier queries. */
  lemma AddFreshNewestFirst(h: seq<string>, init: seq<string>, q: string)
    requires NewestFirst(h, init) && |h| == Min(|init|, MaxEntries)
    requires WellFormedEntry(q) && q !in init
    ensures var r := AddToHistory(h, q);
            NewestFirst(r, init + [q]) && |r| == Min(|init| + 1, MaxEntries)
  {
    var qs := init + [q];
    assert q !in h by {
      forall k | 0 <= k < |h|
        ensures h[k] != q
      {
        assert h[k] == init[|init| - 1 - k];
      }
    }
    AddFresh(h, q);
    var r := AddToHistory(h, q);
    forall i | 0 <= i < |r|
      ensures r[i] == qs[|qs| - 1 - i]
    {
      if i > 0 {
        assert r[i] == h[i - 1] == init[|init| - i];
      }
    }
  }

  /** Reference behaviour: after recording pairwise distinct, already trimmed,
      non-empty queries, the ledger holds the (at most) ten most recent ones,
      newest first. In particular the eleventh distinct query evicts the first. */
  lemma {:induction false} ReplayDistinct(qs: seq<string>)
    requires Distinct(qs)
    requires forall i :: 0 <= i < |qs| ==> WellFormedEntry(qs[i])
    ensures |Replay(qs)| == Min(|qs|, MaxEntries)
    ensures NewestFirst(Replay(qs), qs)
  {
    if qs != [] {
      var init := qs[..|qs| - 1];
      var q := qs[|qs| - 1];
      assert qs == init + [q];
      ReplayDistinct(init);
      assert q !in init by {
        forall k | 0 <= k < |init|
          ensures init[k] != q
        {
          assert init[k] == qs[k];
        }
      }
      AddFreshNewestFirst(Replay(init), init, q);
    }
  }
}
