/** The trending loader's deduplication: one pass over the ranked entries
    served by the analytics collaborator, keeping the first entry for each
    movie id and dropping later ones, without reordering. */
module Trending {

  /** One ranked entry of the trending list: its document key, the catalog
      movie id it counts searches for, and the fields the trending section
      displays. */
  datatype TrendingEntry = TrendingEntry(docId: string, movieId: int, title: string, posterUrl: string)

  /** The movie ids occurring in `s`. */
  function Ids(s: seq<TrendingEntry>): set<int>
  {
    set i | 0 <= i < |s| :: s[i].movieId
  }

  ghost predicate DistinctIds(s: seq<TrendingEntry>)
  {
    forall i, j :: 0 <= i < j < |s| ==> s[i].movieId != s[j].movieId
  }

  /** The position of the first entry of `s` carrying `id`. */
  function FirstIndex(s: seq<TrendingEntry>, id: int): (k: nat)
    requires id in Ids(s)
    ensures k < |s| && s[k].movieId == id
    ensures forall j :: 0 <= j < k ==> s[j].movieId != id
    decreases |s|
  {
    if s[0].movieId == id then 0
    else
      assert id in Ids(s[1..]) by {
        var i :| 0 <= i < |s| && s[i].movieId == id;
        assert s[1..][i - 1] == s[i];
      }
      1 + FirstIndex(s[1..], id)
  }

  /** The deduplicated list, defined over prefixes the way the loop builds
      it: the last entry of a prefix is appended exactly when its id has not
      been seen earlier in that prefix. */
  function Dedup(s: seq<TrendingEntry>): seq<TrendingEntry>
    decreases |s|
  {
    if |s| == 0 then []
    else if s[|s| - 1].movieId in Ids(s[..|s| - 1]) then Dedup(s[..|s| - 1])
    else Dedup(s[..|s| - 1]) + [s[|s| - 1]]
  }

  /** The loop of the trending loader: a `seen` set of ids and an output
      list that grows by one entry whenever an unseen id comes by. */
  method UniqueTrending(movies: seq<TrendingEntry>) returns (unique: seq<TrendingEntry>)
    ensures unique == Dedup(movies)
    ensures DistinctIds(unique)
    ensures Ids(unique) == Ids(movies)
  {
    unique := [];
    var seen: set<int> := {};
    for i := 0 to |movies|
      invariant unique == Dedup(movies[..i])
      invariant seen == Ids(movies[..i])
    {
      assert movies[..i + 1][..i] == movies[..i];
      IdsSnoc(movies[..i], movies[i]);
      assert movies[..i] + [movies[i]] == movies[..i + 1];
      if movies[i].movieId !in seen {
        unique := unique + [movies[i]];
        seen := seen + {movies[i].movieId};
      }
    }
    assert movies[..|movies|] == movies;
    DedupDistinct(movies);
    DedupIds(movies);
  }

  lemma IdsSnoc(s: seq<TrendingEntry>, e: TrendingEntry)
    ensures Ids(s + [e]) == Ids(s) + {e.movieId}
  {
    var t := s + [e];
    forall id | id in Ids(t) ensures id in Ids(s) + {e.movieId} {
      var i :| 0 <= i < |t| && t[i].movieId == id;
      if i < |s| { assert s[i] == t[i]; }
    }
    forall id | id in Ids(s) ensures id in Ids(t) {
      var i :| 0 <= i < |s| && s[i].movieId == id;
      assert t[i] == s[i];
    }
    assert t[|s|] == e;
  }

  /** Extending a sequence does not move the first occurrence of an id
      already present. */
  lemma FirstIndexSnoc(s: seq<TrendingEntry>, e: TrendingEntry, id: int)
    requires id in Ids(s)
    ensures id in Ids(s + [e])
    ensures FirstIndex(s + [e], id) == FirstIndex(s, id)
  {
    IdsSnoc(s, e);
    var k := FirstIndex(s, id);
    var t := s + [e];
    assert t[k] == s[k];
    forall j | 0 <= j < |s| ensures t[j] == s[j] { }
  }

  /** An id seen for the first time at the end of a sequence has its first
      occurrence there. */
  lemma FirstIndexNew(s: seq<TrendingEntry>, e: TrendingEntry)
    requires e.movieId !in Ids(s)
    ensures e.movieId in Ids(s + [e])
    ensures FirstIndex(s + [e], e.movieId) == |s|
  {
    IdsSnoc(s, e);
    var t := s + [e];
    forall j | 0 <= j < |s| ensures t[j].movieId != e.movieId {
      assert t[j] == s[j];
      assert s[j].movieId in Ids(s);
    }
  }

  /** Deduplication keeps every id of the input and invents none. */
  lemma {:induction false} DedupIds(s: seq<TrendingEntry>)
    ensures Ids(Dedup(s)) == Ids(s)
    decreases |s|
  {
    if |s| > 0 {
      var init, last := s[..|s| - 1], s[|s| - 1];
      assert init + [last] == s;
      DedupIds(init);
      IdsSnoc(init, last);
      if last.movieId !in Ids(init) {
        IdsSnoc(Dedup(init), last);
      }
    }
  }

  /** No two entries of the deduplicated list share a movie id. */
  lemma {:induction false} DedupDistinct(s: seq<TrendingEntry>)
    ensures DistinctIds(Dedup(s))
    decreases |s|
  {
    if |s| > 0 {
      var init, last := s[..|s| - 1], s[|s| - 1];
      DedupDistinct(init);
      if last.movieId !in Ids(init) {
        DedupIds(init);
        var d := Dedup(init);
        var d' := d + [last];
        forall i, j | 0 <= i < j < |d'| ensures d'[i].movieId != d'[j].movieId {
          if j == |d| {
            assert d'[i] == d[i];
            assert d[i].movieId in Ids(d);
          } else {
            assert d'[i] == d[i] && d'[j] == d[j];
          }
        }
      }
    }
  }

  /** Every kept entry is the first entry of the input carrying its id. */
  lemma {:induction false} DedupKeepsFirstOccurrences(s: seq<TrendingEntry>)
    ensures forall k :: 0 <= k < |Dedup(s)| ==>
      Dedup(s)[k].movieId in Ids(s) && s[FirstIndex(s, Dedup(s)[k].movieId)] == Dedup(s)[k]
    decreases |s|
  {
    if |s| > 0 {
      var init, last := s[..|s| - 1], s[|s| - 1];
      assert init + [last] == s;
      DedupKeepsFirstOccurrences(init);
      var d := Dedup(init);
      forall k | 0 <= k < |d|
        ensures d[k].movieId in Ids(s) && s[FirstIndex(s, d[k].movieId)] == d[k]
      {
        FirstIndexSnoc(init, last, d[k].movieId);
        assert s[FirstIndex(init, d[k].movieId)] == init[FirstIndex(init, d[k].movieId)];
      }
      if last.movieId !in Ids(init) {
        FirstIndexNew(init, last);
        var d' := d + [last];
        forall k | 0 <= k < |d'|
          ensures d'[k].movieId in Ids(s) && s[FirstIndex(s, d'[k].movieId)] == d'[k]
        {
          if k < |d| { assert d'[k] == d[k]; }
        }
      }
    }
  }

  /** The entries of `d` carry ids of `s` and come in the order of those
      ids' first occurrences in `s`. */
  ghost predicate InFirstOccurrenceOrder(d: seq<TrendingEntry>, s: seq<TrendingEntry>)
  {
    forall k, l :: 0 <= k < l < |d| ==>
      d[k].movieId in Ids(s) && d[l].movieId in Ids(s) &&
      FirstIndex(s, d[k].movieId) < FirstIndex(s, d[l].movieId)
  }

  lemma OrderSnoc(d: seq<TrendingEntry>, init: seq<TrendingEntry>, last: TrendingEntry)
    requires InFirstOccurrenceOrder(d, init)
    requires Ids(d) <= Ids(init)
    ensures InFirstOccurrenceOrder(d, init + [last])
    ensures last.movieId !in Ids(init) ==> InFirstOccurrenceOrder(d + [last], init + [last])
  {
    var s := init + [last];
    forall k | 0 <= k < |d|
      ensures d[k].movieId in Ids(init) && d[k].movieId in Ids(s)
      ensures FirstIndex(s, d[k].movieId) == FirstIndex(init, d[k].movieId)
    {
      assert d[k].movieId in Ids(d);
      FirstIndexSnoc(init, last, d[k].movieId);
    }
    if last.movieId !in Ids(init) {
      FirstIndexNew(init, last);
      var d' := d + [last];
      forall k, l | 0 <= k < l < |d'|
        ensures d'[k].movieId in Ids(s) && d'[l].movieId in Ids(s) &&
          FirstIndex(s, d'[k].movieId) < FirstIndex(s, d'[l].movieId)
      {
        assert d'[k] == d[k];
        if l < |d| { assert d'[l] == d[l]; }
      }
    }
  }

  /** Kept entries appear in the order of their ids' first occurrences. */
  lemma {:induction false} DedupPreservesOrder(s: seq<TrendingEntry>)
    ensures InFirstOccurrenceOrder(Dedup(s), s)
    decreases |s|
  {
    if |s| > 0 {
      var init, last := s[..|s| - 1], s[|s| - 1];
      assert init + [last] == s;
      DedupPreservesOrder(init);
      DedupIds(init);
      OrderSnoc(Dedup(init), init, last);
    }
  }

  /** `idx` picks out, in increasing positions of `b`, the elements of `a`. */
  ghost predicate Embeds(a: seq<TrendingEntry>, b: seq<TrendingEntry>, idx: seq<int>)
  {
    && |idx| == |a|
    && (forall k :: 0 <= k < |idx| ==> 0 <= idx[k] < |b| && b[idx[k]] == a[k])
    && (forall k, l :: 0 <= k < l < |idx| ==> idx[k] < idx[l])
  }

  ghost predicate IsSubsequence(a: seq<TrendingEntry>, b: seq<TrendingEntry>)
  {
    exists idx :: Embeds(a, b, idx)
  }

  /** The deduplicated list is a subsequence of the input, embedded at the
      first occurrence of each kept id. */
  lemma DedupIsSubsequence(s: seq<TrendingEntry>)
    ensures IsSubsequence(Dedup(s), s)
  {
    var d := Dedup(s);
    DedupKeepsFirstOccurrences(s);
    DedupPreservesOrder(s);
    var idx := seq(|d|, k requires 0 <= k < |d| => FirstIndex(s, d[k].movieId));
    assert Embeds(d, s, idx);
    assert exists idx' :: Embeds(d, s, idx');
  }

  /** A list whose ids are already distinct is left as it is. */
  lemma {:induction false} DedupOfDistinct(s: seq<TrendingEntry>)
    requires DistinctIds(s)
    ensures Dedup(s) == s
    decreases |s|
  {
    if |s| > 0 {
      var init, last := s[..|s| - 1], s[|s| - 1];
      assert DistinctIds(init);
      assert last.movieId !in Ids(init) by {
        forall i | 0 <= i < |init| ensures init[i].movieId != last.movieId {
          assert s[i] == init[i];
        }
      }
      DedupOfDistinct(init);
      assert init + [last] == s;
    }
  }

  /** Running the loader's deduplication twice gives what running it once
      gives. */
  lemma DedupIdempotent(s: seq<TrendingEntry>)
    ensures Dedup(Dedup(s)) == Dedup(s)
  {
    DedupDistinct(s);
    DedupOfDistinct(Dedup(s));
  }

  lemma {:induction false} DistinctIdsCount(s: seq<TrendingEntry>)
    requires DistinctIds(s)
    ensures |Ids(s)| == |s|
    decreases |s|
  {
    if |s| > 0 {
      var init, last := s[..|s| - 1], s[|s| - 1];
      assert init + [last] == s;
      assert DistinctIds(init);
      IdsSnoc(init, last);
      DistinctIdsCount(init);
      assert last.movieId !in Ids(init) by {
        forall i | 0 <= i < |init| ensures init[i].movieId != last.movieId {
          assert s[i] == init[i];
        }
      }
    }
  }

  /** The deduplicated list holds exactly one entry per distinct id. */
  lemma DedupLength(s: seq<TrendingEntry>)
    ensures |Dedup(s)| == |Ids(s)|
  {
    DedupDistinct(s);
    DedupIds(s);
    DistinctIdsCount(Dedup(s));
  }

  /** Ranked entries with ids 7, 3, 7, 9, 3 keep the first 7, the first 3
      and the 9, in that order. */
  lemma DedupExample()
    ensures var e7, e3, e7', e9, e3' :=
        TrendingEntry("a", 7, "", ""), TrendingEntry("b", 3, "", ""), TrendingEntry("c", 7, "", ""),
        TrendingEntry("d", 9, "", ""), TrendingEntry("e", 3, "", "");
      Dedup([e7, e3, e7', e9, e3']) == [e7, e3, e9]
  {
    var e7, e3, e7', e9, e3' :=
      TrendingEntry("a", 7, "", ""), TrendingEntry("b", 3, "", ""), TrendingEntry("c", 7, "", ""),
      TrendingEntry("d", 9, "", ""), TrendingEntry("e", 3, "", "");
    var s := [e7, e3, e7', e9, e3'];
    IdsSnoc([], e7);
    IdsSnoc([e7], e3);
    IdsSnoc([e7, e3], e7');
    IdsSnoc([e7, e3, e7'], e9);
    assert s[..1] == [e7] && s[..2] == [e7, e3] && s[..3] == [e7, e3, e7'] && s[..4] == [e7, e3, e7', e9];
    assert [e7][..0] == [] && [e7, e3][..1] == [e7] && [e7, e3, e7'][..2] == [e7, e3];
    assert [e7, e3, e7', e9][..3] == [e7, e3, e7'];
    assert Dedup(s[..1]) == [e7];
    assert Dedup(s[..2]) == [e7, e3];
    assert Dedup(s[..3]) == [e7, e3];
    assert Dedup(s[..4]) == [e7, e3, e9];
  }
}
