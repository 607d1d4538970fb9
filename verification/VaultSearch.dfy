/** Bounded document search: the best few of a scan, against a full ranking. Scores
    are an abstract total order. */
module VaultSearch {
  import opened Basics

  /** A stored document as the scan scores it; an unreadable one stops the scan. */
  datatype Doc = Doc(id: Id, score: real, readable: bool)

  datatype Found = Found(docs: seq<Doc>) | Corrupt

  /** Score descending, then id ascending. */
  predicate Better(a: Doc, b: Doc) {
    if a.score != b.score then a.score > b.score else a.id < b.id
  }

  ghost predicate DistinctIds(docs: seq<Doc>) {
    forall i, j :: 0 <= i < j < |docs| ==> docs[i].id != docs[j].id
  }

  /** A text query drops the documents it does not match at all. */
  predicate Matches(textual: bool, d: Doc) {
    !(textual && d.score == 0.0)
  }

  function Matching(textual: bool, docs: seq<Doc>): seq<Doc> {
    if docs == [] then []
    else
      var n := |docs| - 1;
      Matching(textual, docs[..n]) + if Matches(textual, docs[n]) then [docs[n]] else []
  }

  lemma {:induction false} MatchingMembers(textual: bool, docs: seq<Doc>)
    requires DistinctIds(docs)
    ensures DistinctIds(Matching(textual, docs))
    ensures forall d :: d in Matching(textual, docs) <==> d in docs && Matches(textual, d)
    decreases |docs|
  {
    if docs != [] {
      var n := |docs| - 1;
      MatchingMembers(textual, docs[..n]);
      assert docs == docs[..n] + [docs[n]];
      var front := Matching(textual, docs[..n]);
      forall k | 0 <= k < |front| ensures front[k].id != docs[n].id {
        assert front[k] in docs[..n];
      }
    }
  }

  /** `kept` holds exactly the best `limit` of `all`: as many as there are, each
      better than everything left out. */
  ghost predicate IsTop(kept: seq<Doc>, all: seq<Doc>, limit: nat) {
    && DistinctIds(kept) && |kept| == Min(limit, |all|)
    && (forall d :: d in kept ==> d in all)
    && (forall k, d :: k in kept && d in all && d !in kept ==> Better(k, d))
  }

  lemma BetterTotal(a: Doc, b: Doc)
    requires a.id != b.id
    ensures Better(a, b) <==> !Better(b, a)
  {
  }

  /** The place of the worst kept document. */
  method Worst(kept: seq<Doc>) returns (w: nat)
    requires kept != [] && DistinctIds(kept)
    ensures w < |kept| && forall k :: 0 <= k < |kept| && k != w ==> Better(kept[k], kept[w])
  {
    w := 0;
    var i := 1;
    while i < |kept|
      invariant 1 <= i <= |kept| && 0 <= w < i
      invariant forall k :: 0 <= k < i && k != w ==> Better(kept[k], kept[w])
    {
      if Better(kept[w], kept[i]) {
        w := i;
      }
      i := i + 1;
    }
  }

  lemma TopGrows(kept: seq<Doc>, all: seq<Doc>, limit: nat, d: Doc)
    requires IsTop(kept, all, limit) && |kept| < limit && DistinctIds(all + [d])
    ensures IsTop(kept + [d], all + [d], limit)
  {
    forall k | 0 <= k < |kept| ensures kept[k].id != d.id {
      assert kept[k] in all;
      var i :| 0 <= i < |all| && all[i] == kept[k];
      assert (all + [d])[i] == all[i] && (all + [d])[|all|] == d;
    }
    SameWhenAllKept(kept, all);
  }

  /** As many distinct documents as there are leaves none out. */
  lemma {:induction false} SameWhenAllKept(kept: seq<Doc>, all: seq<Doc>)
    requires DistinctIds(kept) && |kept| == |all| && forall d :: d in kept ==> d in all
    ensures forall d :: d in all ==> d in kept
    decreases |kept|
  {
    if kept != [] {
      var n := |kept| - 1;
      assert kept[n] in all;
      var i :| 0 <= i < |all| && all[i] == kept[n];
      var rest := all[..i] + all[i + 1..];
      forall d | d in kept[..n] ensures d in rest {
        var j :| 0 <= j < n && kept[j] == d;
        assert d in all && d.id != kept[n].id;
        var m :| 0 <= m < |all| && all[m] == d;
        assert m != i;
        assert m < i ==> rest[m] == d;
        assert m > i ==> rest[m - 1] == d;
      }
      SameWhenAllKept(kept[..n], rest);
      forall d | d in all ensures d in kept {
        var m :| 0 <= m < |all| && all[m] == d;
        if m != i {
          assert m < i ==> rest[m] == d;
          assert m > i ==> rest[m - 1] == d;
          assert d in kept[..n];
        }
      }
    }
  }

  lemma NotKept(kept: seq<Doc>, all: seq<Doc>, limit: nat, d: Doc)
    requires IsTop(kept, all, limit) && DistinctIds(all + [d])
    ensures d !in all && forall k :: 0 <= k < |kept| ==> kept[k].id != d.id
  {
    forall i | 0 <= i < |all| ensures all[i].id != d.id {
      assert (all + [d])[i] == all[i] && (all + [d])[|all|] == d;
    }
    forall k | 0 <= k < |kept| ensures kept[k].id != d.id { assert kept[k] in all; }
  }

  lemma TopReplaces(kept: seq<Doc>, all: seq<Doc>, limit: nat, d: Doc, w: nat)
    requires IsTop(kept, all, limit) && |kept| == limit && DistinctIds(all + [d])
    requires w < |kept| && Better(d, kept[w]) && forall k :: 0 <= k < |kept| && k != w ==> Better(kept[k], kept[w])
    ensures IsTop(kept[w := d], all + [d], limit)
  {
    NotKept(kept, all, limit, d);
    var after := kept[w := d];
    forall x | x in after ensures x in all + [d] {
      if x != d {
        var k :| 0 <= k < |after| && after[k] == x;
        assert kept[k] == x;
      }
    }
    forall k, x | k in after && x in all + [d] && x !in after ensures Better(k, x) {
      var i :| 0 <= i < |after| && after[i] == k;
      assert after[w] == d;
      if x in kept {
        var j :| 0 <= j < |kept| && kept[j] == x;
        assert after[j] == if j == w then d else x;
      } else {
        assert kept[w] in kept && Better(kept[w], x);
        assert i != w ==> kept[i] in kept;
      }
    }
  }

  lemma TopStays(kept: seq<Doc>, all: seq<Doc>, limit: nat, d: Doc, w: nat)
    requires IsTop(kept, all, limit) && |kept| == limit && DistinctIds(all + [d])
    requires w < |kept| && !Better(d, kept[w]) && forall k :: 0 <= k < |kept| && k != w ==> Better(kept[k], kept[w])
    ensures IsTop(kept, all + [d], limit)
  {
    NotKept(kept, all, limit, d);
    BetterTotal(d, kept[w]);
    forall k, x | k in kept && x in all + [d] && x !in kept ensures Better(k, x) {
      var i :| 0 <= i < |kept| && kept[i] == k;
    }
  }

  /** Places `x` after everything that scores at least as much. */
  function Insert(sorted: seq<Doc>, x: Doc): seq<Doc> {
    if sorted == [] || sorted[|sorted| - 1].score >= x.score then sorted + [x]
    else Insert(sorted[..|sorted| - 1], x) + [sorted[|sorted| - 1]]
  }

  function Sorted(docs: seq<Doc>): seq<Doc> {
    if docs == [] then [] else Insert(Sorted(docs[..|docs| - 1]), docs[|docs| - 1])
  }

  ghost predicate Descending(docs: seq<Doc>) {
    forall i, j :: 0 <= i < j < |docs| ==> docs[i].score >= docs[j].score
  }

  lemma {:induction false} InsertAt(sorted: seq<Doc>, x: Doc, j: nat)
    requires j <= |sorted| && (j > 0 ==> sorted[j - 1].score >= x.score)
    requires forall k :: j <= k < |sorted| ==> sorted[k].score < x.score
    ensures Insert(sorted, x) == sorted[..j] + [x] + sorted[j..]
    decreases |sorted|
  {
    if j < |sorted| {
      var n := |sorted| - 1;
      InsertAt(sorted[..n], x, j);
      assert sorted[..n][j..] + [sorted[n]] == sorted[j..];
    } else {
      assert sorted[..j] + [x] + sorted[j..] == sorted + [x];
    }
  }

  lemma {:induction false} InsertIsPermutation(sorted: seq<Doc>, x: Doc)
    ensures multiset(Insert(sorted, x)) == multiset(sorted) + multiset{x}
    decreases |sorted|
  {
    if sorted != [] {
      var n := |sorted| - 1;
      assert sorted == sorted[..n] + [sorted[n]];
      if sorted[n].score < x.score {
        InsertIsPermutation(sorted[..n], x);
      }
    }
  }

  lemma {:induction false} InsertDescends(sorted: seq<Doc>, x: Doc)
    requires Descending(sorted)
    ensures Descending(Insert(sorted, x))
    decreases |sorted|
  {
    if sorted != [] && sorted[|sorted| - 1].score < x.score {
      var n := |sorted| - 1;
      InsertDescends(sorted[..n], x);
      var front := Insert(sorted[..n], x);
      InsertIsPermutation(sorted[..n], x);
      forall k | 0 <= k < |front| ensures front[k].score >= sorted[n].score {
        assert front[k] in multiset(front);
      }
    }
  }

  /** The sort's result: a permutation in non-increasing score. */
  lemma {:induction false} SortedIsSorted(docs: seq<Doc>)
    ensures multiset(Sorted(docs)) == multiset(docs) && Descending(Sorted(docs))
    decreases |docs|
  {
    if docs != [] {
      var n := |docs| - 1;
      SortedIsSorted(docs[..n]);
      assert docs == docs[..n] + [docs[n]];
      InsertIsPermutation(Sorted(docs[..n]), docs[n]);
      InsertDescends(Sorted(docs[..n]), docs[n]);
    }
  }

  lemma {:induction false} InsertLength(sorted: seq<Doc>, x: Doc)
    ensures |Insert(sorted, x)| == |sorted| + 1
    decreases |sorted|
  {
    if sorted != [] && sorted[|sorted| - 1].score < x.score {
      InsertLength(sorted[..|sorted| - 1], x);
    }
  }

  lemma {:induction false} SortedLength(docs: seq<Doc>)
    ensures |Sorted(docs)| == |docs|
    decreases |docs|
  {
    if docs != [] {
      SortedLength(docs[..|docs| - 1]);
      InsertLength(Sorted(docs[..|docs| - 1]), docs[|docs| - 1]);
    }
  }

  /** The in-place sort. */
  method SortResults(items: array<Doc>)
    modifies items
    ensures items[..] == Sorted(old(items[..]))
  {
    ghost var was := items[..];
    var i := Min(1, items.Length);
    ghost var front := was[..i];
    assert i == 1 ==> front == [was[0]] && front[..0] == [];
    while i < items.Length
      invariant Min(1, items.Length) <= i <= items.Length
      invariant items[..i] == front && front == Sorted(was[..i])
      invariant forall k :: i <= k < items.Length ==> items[k] == was[k]
    {
      SortedIsSorted(was[..i]);
      SortedStep(was, i);
      MoveUp(items, i, front);
      front := Insert(front, was[i]);
      i := i + 1;
    }
    assert was[..i] == was && items[..i] == items[..];
  }

  lemma SortedStep(docs: seq<Doc>, i: nat)
    requires i < |docs|
    ensures Sorted(docs[..i + 1]) == Insert(Sorted(docs[..i]), docs[i])
  {
    assert docs[..i + 1][..i] == docs[..i];
  }

  /** `x` has been moved up to `j`, past what it outscores. */
  ghost predicate Moved(s: seq<Doc>, front: seq<Doc>, x: Doc, j: nat) {
    && j <= |front| && |s| == |front| + 1 && s[j] == x
    && (forall k :: 0 <= k < j ==> s[k] == front[k])
    && (forall k :: j < k < |s| ==> s[k] == front[k - 1] && s[k].score < x.score)
  }

  lemma MovedOn(s: seq<Doc>, t: seq<Doc>, front: seq<Doc>, x: Doc, j: nat)
    requires 0 < j && Moved(s, front, x, j) && s[j].score > s[j - 1].score && t == s[j := s[j - 1]][j - 1 := s[j]]
    ensures Moved(t, front, x, j - 1)
  {
  }

  /** The inner loop: one item moves up past everything it outscores. */
  method MoveUp(items: array<Doc>, i: nat, ghost front: seq<Doc>)
    requires i < items.Length && items[..i] == front && Descending(front)
    modifies items
    ensures items[..i + 1] == Insert(front, old(items[i]))
    ensures forall k :: i < k < items.Length ==> items[k] == old(items[k])
  {
    ghost var x := items[i];
    var j := i;
    while j > 0 && items[j].score > items[j - 1].score
      invariant 0 <= j <= i && Moved(items[..i + 1], front, x, j)
      invariant forall k :: i < k < items.Length ==> items[k] == old(items[k])
    {
      ghost var before := items[..i + 1];
      items[j], items[j - 1] := items[j - 1], items[j];
      MovedOn(before, items[..i + 1], front, x, j);
      j := j - 1;
    }
    Placed(items[..i + 1], front, x, j);
    InsertAt(front, x, j);
  }

  lemma Placed(s: seq<Doc>, front: seq<Doc>, x: Doc, j: nat)
    requires j <= |front| && |s| == |front| + 1 && s[j] == x
    requires forall k :: 0 <= k < j ==> s[k] == front[k]
    requires forall k :: j < k < |s| ==> s[k] == front[k - 1]
    ensures s == front[..j] + [x] + front[j..]
    ensures forall k :: j <= k < |front| ==> front[k] == s[k + 1]
  {
  }

  /** One matching document: kept while there is room, or instead of a worse one. */
  method Consider(kept: seq<Doc>, ghost all: seq<Doc>, d: Doc, limit: nat) returns (after: seq<Doc>)
    requires limit > 0 && IsTop(kept, all, limit) && DistinctIds(all + [d])
    ensures IsTop(after, all + [d], limit)
  {
    if |kept| < limit {
      TopGrows(kept, all, limit, d);
      return kept + [d];
    }
    var w := Worst(kept);
    if Better(d, kept[w]) {
      TopReplaces(kept, all, limit, d, w);
      after := kept[w := d];
    } else {
      TopStays(kept, all, limit, d, w);
      after := kept;
    }
  }

  method SortedCopy(kept: seq<Doc>) returns (r: seq<Doc>)
    ensures r == Sorted(kept)
  {
    var items := new Doc[|kept|](k requires 0 <= k < |kept| => kept[k]);
    assert items[..] == kept;
    SortResults(items);
    r := items[..];
  }

  /** A search result, in plain scores and ids: at most `limit` distinct stored
      documents by non-increasing score; of the others, the ones a text query does
      not match at all, and the ones every returned document outranks, by a higher
      score or by the same score and a smaller id. These exist only if the limit is
      reached. */
  ghost predicate Answers(found: seq<Doc>, docs: seq<Doc>, textual: bool, limit: nat) {
    && |found| <= limit && DistinctIds(found) && Descending(found)
    && (forall k :: k in found ==> k in docs && (textual ==> k.score != 0.0))
    && (forall d :: d in docs && d !in found && (textual ==> d.score != 0.0) ==>
          && |found| == limit
          && forall k :: k in found ==> k.score > d.score || (k.score == d.score && k.id < d.id))
  }

  lemma TopAnswers(kept: seq<Doc>, docs: seq<Doc>, textual: bool, limit: nat)
    requires DistinctIds(docs) && IsTop(kept, Matching(textual, docs), limit) && Descending(kept)
    ensures Answers(kept, docs, textual, limit)
  {
    MatchingMembers(textual, docs);
    forall d | d in docs && d !in kept && (textual ==> d.score != 0.0)
      ensures |kept| == limit && forall k :: k in kept ==> k.score > d.score || (k.score == d.score && k.id < d.id)
    {
      assert d in Matching(textual, docs);
      if |kept| < limit {
        SameWhenAllKept(kept, Matching(textual, docs));
      }
      forall k | k in kept ensures k.score > d.score || (k.score == d.score && k.id < d.id) {
        assert Better(k, d);
      }
    }
  }

  /** The scan. Over readable documents with distinct ids the result is exactly the
      best `limit` matching ones, in non-increasing score; any unreadable document
      fails the search. */
  method Search(docs: seq<Doc>, textual: bool, asked: int, maxResults: nat) returns (r: Found)
    requires DistinctIds(docs) && maxResults > 0
    ensures r.Corrupt? <==> exists d :: d in docs && !d.readable
    ensures var limit := if asked <= 0 || asked > maxResults then maxResults else asked;
            r.Found? ==> Answers(r.docs, docs, textual, limit) && IsTop(r.docs, Matching(textual, docs), limit)
  {
    var limit: nat := if asked <= 0 || asked > maxResults then maxResults else asked;
    var kept := [];
    var i := 0;
    while i < |docs|
      invariant 0 <= i <= |docs| && IsTop(kept, Matching(textual, docs[..i]), limit)
      invariant forall d :: d in docs[..i] ==> d.readable
    {
      var d := docs[i];
      assert docs[..i + 1][..i] == docs[..i] && docs[..i + 1] == docs[..i] + [d];
      if !d.readable {
        return Corrupt;
      }
      MatchingMembers(textual, docs[..i + 1]);
      if Matches(textual, d) {
        kept := Consider(kept, Matching(textual, docs[..i]), d, limit);
      }
      i := i + 1;
    }
    assert docs[..i] == docs;
    SortedIsSorted(kept);
    SortedKeepsTop(kept, Matching(textual, docs), limit);
    TopAnswers(Sorted(kept), docs, textual, limit);
    var sorted := SortedCopy(kept);
    r := Found(sorted);
  }

  /** Sorting changes nothing about which documents were kept. */
  lemma SortedKeepsTop(kept: seq<Doc>, all: seq<Doc>, limit: nat)
    requires IsTop(kept, all, limit)
    ensures IsTop(Sorted(kept), all, limit)
  {
    var s := Sorted(kept);
    SortedIsSorted(kept);
    SortedLength(kept);
    PermutationMembers(kept, s);
    PermutationDistinct(kept, s);
  }

  lemma PermutationMembers(a: seq<Doc>, b: seq<Doc>)
    requires multiset(a) == multiset(b)
    ensures forall d :: d in a <==> d in b
  {
    forall d ensures d in a <==> d in b {
      assert d in a <==> d in multiset(a);
    }
  }

  lemma {:induction false} DistinctCounts(a: seq<Doc>, d: Doc)
    requires DistinctIds(a)
    ensures multiset(a)[d] <= 1
    decreases |a|
  {
    if a != [] {
      var n := |a| - 1;
      DistinctCounts(a[..n], d);
      assert a == a[..n] + [a[n]];
      if d == a[n] {
        assert d !in a[..n];
      }
    }
  }

  lemma TwiceCounts(a: seq<Doc>, i: nat, j: nat)
    requires i < j < |a| && a[i] == a[j]
    ensures multiset(a)[a[i]] >= 2
  {
    assert a == a[..i] + [a[i]] + a[i + 1..j] + [a[j]] + a[j + 1..];
  }

  lemma PermutationDistinct(a: seq<Doc>, b: seq<Doc>)
    requires DistinctIds(a) && multiset(a) == multiset(b)
    ensures DistinctIds(b)
  {
    PermutationMembers(a, b);
    forall i, j | 0 <= i < j < |b| ensures b[i].id != b[j].id {
      assert b[i] in a && b[j] in a;
      if b[i] == b[j] {
        TwiceCounts(b, i, j);
        DistinctCounts(a, b[i]);
      }
    }
  }

  /** The full ranking: a permutation in which each document is better than the
      next ones. */
  ghost predicate Ranking(ranked: seq<Doc>, all: seq<Doc>) {
    && |ranked| == |all| && DistinctIds(ranked) && (forall d :: d in ranked <==> d in all)
    && forall i, j :: 0 <= i < j < |ranked| ==> Better(ranked[i], ranked[j])
  }

  /** Bounded search agrees with full ranking: what is kept is the ranking's front. */
  lemma TopIsTheRankingsFront(kept: seq<Doc>, all: seq<Doc>, limit: nat, ranked: seq<Doc>)
    requires IsTop(kept, all, limit) && DistinctIds(all) && Ranking(ranked, all)
    ensures forall d :: d in kept <==> d in ranked[..Min(limit, |ranked|)]
  {
    var n := Min(limit, |ranked|);
    var front := ranked[..n];
    forall d | d in kept ensures d in front {
      var k :| 0 <= k < |ranked| && ranked[k] == d;
      if k >= n {
        FrontFills(kept, all, limit, ranked, k);
      }
    }
    SameWhenAllKept(kept, front);
  }

  /** A kept document cannot rank beyond the front: some front document would have
      been left out for it. */
  lemma FrontFills(kept: seq<Doc>, all: seq<Doc>, limit: nat, ranked: seq<Doc>, k: nat)
    requires IsTop(kept, all, limit) && DistinctIds(all) && Ranking(ranked, all)
    requires k < |ranked| && ranked[k] in kept
    ensures k < Min(limit, |ranked|)
  {
    var n := Min(limit, |ranked|);
    if k >= n {
      forall i | 0 <= i < n ensures ranked[i] in kept {
        assert Better(ranked[i], ranked[k]);
        BetterTotal(ranked[i], ranked[k]);
      }
      var wider := ranked[..n] + [ranked[k]];
      assert forall d :: d in wider ==> d in kept;
      assert DistinctIds(wider);
      TooMany(wider, kept);
    }
  }

  lemma {:induction false} TooMany(a: seq<Doc>, b: seq<Doc>)
    requires DistinctIds(a) && forall d :: d in a ==> d in b
    ensures |a| <= |b|
    decreases |a|
  {
    if a != [] {
      var n := |a| - 1;
      assert a[n] in b;
      var i :| 0 <= i < |b| && b[i] == a[n];
      var rest := b[..i] + b[i + 1..];
      forall d | d in a[..n] ensures d in rest {
        var j :| 0 <= j < n && a[j] == d;
        assert d in b && d != a[n];
        var m :| 0 <= m < |b| && b[m] == d;
        assert m < i ==> rest[m] == d;
        assert m > i ==> rest[m - 1] == d;
      }
      TooMany(a[..n], rest);
    }
  }

  /** Places `x` before everything it is better than. */
  function Place(ranked: seq<Doc>, x: Doc): seq<Doc> {
    if ranked == [] then [x] else if Better(x, ranked[0]) then [x] + ranked else [ranked[0]] + Place(ranked[1..], x)
  }

  /** The full ranking of a list of documents. */
  function Ranked(docs: seq<Doc>): seq<Doc> {
    if docs == [] then [] else Place(Ranked(docs[..|docs| - 1]), docs[|docs| - 1])
  }

  ghost predicate Best(ranked: seq<Doc>) {
    forall i, j :: 0 <= i < j < |ranked| ==> Better(ranked[i], ranked[j])
  }

  lemma {:induction false} PlaceRanks(ranked: seq<Doc>, x: Doc)
    requires Best(ranked) && forall i :: 0 <= i < |ranked| ==> ranked[i].id != x.id
    ensures Best(Place(ranked, x)) && |Place(ranked, x)| == |ranked| + 1
    ensures forall d :: d in Place(ranked, x) <==> d in ranked || d == x
    decreases |ranked|
  {
    if ranked != [] && !Better(x, ranked[0]) {
      PlaceRanks(ranked[1..], x);
      BetterTotal(x, ranked[0]);
      var rest := Place(ranked[1..], x);
      forall i | 0 <= i < |rest| ensures Better(ranked[0], rest[i]) {
        assert rest[i] in rest;
        if rest[i] != x {
          assert rest[i] in ranked[1..];
        }
      }
    }
  }

  /** Every list with distinct ids has a ranking. */
  lemma {:induction false} RankedIsRanking(docs: seq<Doc>)
    requires DistinctIds(docs)
    ensures Ranking(Ranked(docs), docs)
    decreases |docs|
  {
    if docs != [] {
      var n := |docs| - 1;
      RankedIsRanking(docs[..n]);
      var before := Ranked(docs[..n]);
      forall i | 0 <= i < |before| ensures before[i].id != docs[n].id {
        assert before[i] in docs[..n];
      }
      PlaceRanks(before, docs[n]);
      assert docs == docs[..n] + [docs[n]];
      BestIsDistinct(Ranked(docs), docs);
    }
  }

  lemma BestIsDistinct(ranked: seq<Doc>, docs: seq<Doc>)
    requires Best(ranked) && DistinctIds(docs) && forall d :: d in ranked ==> d in docs
    ensures DistinctIds(ranked)
  {
    forall i, j | 0 <= i < j < |ranked| ensures ranked[i].id != ranked[j].id {
      assert ranked[i] in docs && ranked[j] in docs;
      assert Better(ranked[i], ranked[j]);
    }
  }

  /** Bounded search agrees with full ranking, on every list: what a search keeps is
      the front of the ranking of the matching documents. */
  lemma KeptIsRankedFront(kept: seq<Doc>, textual: bool, docs: seq<Doc>, limit: nat)
    requires DistinctIds(docs) && IsTop(kept, Matching(textual, docs), limit)
    ensures var ranked := Ranked(Matching(textual, docs));
            Ranking(ranked, Matching(textual, docs)) && forall d :: d in kept <==> d in ranked[..Min(limit, |ranked|)]
  {
    MatchingMembers(textual, docs);
    RankedIsRanking(Matching(textual, docs));
    TopIsTheRankingsFront(kept, Matching(textual, docs), limit, Ranked(Matching(textual, docs)));
  }
}
