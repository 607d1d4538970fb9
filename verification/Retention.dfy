/** The journal's shape and its bounded cleanup. Rows are kept in insertion
    order; cleanup deletes through the creation-time index, oldest first. */
module Retention {
  import opened Basics
  import opened Relay

  const CLEANUP_BATCH: nat := 256

  /** Sequence numbers of a chat that the journal still holds. */
  ghost function Retained(rows: seq<Row>, chat: Id): set<nat> {
    set i | 0 <= i < |rows| && rows[i].chat == chat :: rows[i].num
  }

  /** Insertion order gives each chat strictly increasing numbers. */
  ghost predicate Ordered(rows: seq<Row>) {
    forall i, j :: 0 <= i < j < |rows| && rows[i].chat == rows[j].chat ==> rows[i].num < rows[j].num
  }

  /** A chat's retained events are a contiguous range ending at its head. */
  ghost predicate SuffixOf(rows: seq<Row>, chat: Id, head: nat) {
    && (forall n :: n in Retained(rows, chat) ==> 1 <= n <= head)
    && (forall n, m: nat :: n in Retained(rows, chat) && n <= m <= head ==> m in Retained(rows, chat))
  }

  /** The clock never went back within a chat. */
  ghost predicate ClockKept(rows: seq<Row>) {
    forall i, j :: 0 <= i < j < |rows| && rows[i].chat == rows[j].chat ==> rows[i].at <= rows[j].at
  }

  ghost predicate WellFormed(rows: seq<Row>, heads: map<Id, nat>) {
    && Ordered(rows)
    && (forall i :: 0 <= i < |rows| ==> rows[i].chat in heads)
    && (forall c :: c in heads ==> SuffixOf(rows, c, heads[c]))
  }

  /** Index order: creation time, then insertion. */
  predicate IndexFirst(rows: seq<Row>, k: nat) {
    && k < |rows|
    && (forall j :: 0 <= j < k ==> rows[k].at < rows[j].at)
    && (forall j :: k < j < |rows| ==> rows[k].at <= rows[j].at)
  }

  function RemoveAt(rows: seq<Row>, k: nat): seq<Row>
    requires k < |rows|
  {
    rows[..k] + rows[k + 1..]
  }

  /** Everything at or after the cutoff, in order. */
  function Since(rows: seq<Row>, cutoff: int): (r: seq<Row>) {
    if rows == [] then []
    else
      var n := |rows| - 1;
      if rows[n].at < cutoff then Since(rows[..n], cutoff) else Since(rows[..n], cutoff) + [rows[n]]
  }

  lemma {:induction false} SinceMembers(rows: seq<Row>, cutoff: int)
    ensures forall r :: r in Since(rows, cutoff) <==> r in rows && r.at >= cutoff
    decreases |rows|
  {
    if rows != [] {
      var n := |rows| - 1;
      SinceMembers(rows[..n], cutoff);
      assert rows == rows[..n] + [rows[n]];
    }
  }

  lemma {:induction false} SinceAppend(a: seq<Row>, b: seq<Row>, cutoff: int)
    ensures Since(a + b, cutoff) == Since(a, cutoff) + Since(b, cutoff)
    decreases |b|
  {
    if b == [] {
      assert a + b == a;
    } else {
      var n := |b| - 1;
      SinceAppend(a, b[..n], cutoff);
      assert (a + b)[..|a| + n] == a + b[..n];
    }
  }

  /** Removing an expired row does not change what survives the cutoff. */
  lemma SinceRemove(rows: seq<Row>, k: nat, cutoff: int)
    requires k < |rows| && rows[k].at < cutoff
    ensures Since(RemoveAt(rows, k), cutoff) == Since(rows, cutoff)
  {
    assert rows == (rows[..k] + [rows[k]]) + rows[k + 1..];
    SinceAppend(rows[..k] + [rows[k]], rows[k + 1..], cutoff);
    SinceAppend(rows[..k], [rows[k]], cutoff);
    assert Since([rows[k]], cutoff) == Since([], cutoff) by { assert [rows[k]][..0] == []; }
    SinceAppend(rows[..k], rows[k + 1..], cutoff);
  }

  lemma {:induction false} SinceWhole(rows: seq<Row>, cutoff: int)
    requires forall r :: r in rows ==> r.at >= cutoff
    ensures Since(rows, cutoff) == rows
    decreases |rows|
  {
    if rows != [] {
      var n := |rows| - 1;
      SinceWhole(rows[..n], cutoff);
      assert rows == rows[..n] + [rows[n]];
    }
  }

  lemma RetainedRemove(rows: seq<Row>, k: nat, c: Id)
    requires k < |rows| && Ordered(rows)
    ensures Retained(RemoveAt(rows, k), c)
         == Retained(rows, c) - (if c == rows[k].chat then {rows[k].num} else {})
  {
    var t := RemoveAt(rows, k);
    forall n | n in Retained(t, c) ensures n in Retained(rows, c) && (c == rows[k].chat ==> n != rows[k].num) {
      var i :| 0 <= i < |t| && t[i].chat == c && t[i].num == n;
    }
    forall n | n in Retained(rows, c) && !(c == rows[k].chat && n == rows[k].num) ensures n in Retained(t, c) {
      var i :| 0 <= i < |rows| && rows[i].chat == c && rows[i].num == n;
      assert t[if i < k then i else i - 1] == rows[i];
    }
  }

  /** Deleting the index-first row keeps every chat a contiguous suffix, as long
      as clocks never go back. */
  lemma RemoveOldestKeeps(rows: seq<Row>, heads: map<Id, nat>, k: nat)
    requires WellFormed(rows, heads) && ClockKept(rows) && IndexFirst(rows, k)
    ensures WellFormed(RemoveAt(rows, k), heads) && ClockKept(RemoveAt(rows, k))
  {
    forall c | c in heads ensures SuffixOf(RemoveAt(rows, k), c, heads[c]) {
      assert SuffixOf(rows, c, heads[c]);
      RetainedRemove(rows, k, c);
      if c == rows[k].chat {
        forall n | n in Retained(rows, c) ensures rows[k].num <= n { }
      }
    }
  }

  /** Appending the next number of a chat keeps the journal's shape. */
  lemma AppendKeeps(rows: seq<Row>, heads: map<Id, nat>, row: Row)
    requires WellFormed(rows, heads) && row.chat in heads && row.num == heads[row.chat] + 1
    ensures WellFormed(rows + [row], heads[row.chat := row.num])
    ensures ClockKept(rows) && (forall i :: 0 <= i < |rows| ==> rows[i].at <= row.at) ==> ClockKept(rows + [row])
  {
    var t := rows + [row];
    assert forall i :: 0 <= i < |rows| ==> rows[i].num in Retained(rows, rows[i].chat);
    forall c | c in heads ensures SuffixOf(t, c, heads[row.chat := row.num][c]) {
      assert Retained(t, c) == Retained(rows, c) + (if c == row.chat then {row.num} else {}) by {
        forall n | n in Retained(rows, c) ensures n in Retained(t, c) {
          var i :| 0 <= i < |rows| && rows[i].chat == c && rows[i].num == n;
          assert t[i] == rows[i];
        }
        assert t[|rows|] == row;
      }
    }
  }

  /** Without a monotone clock the promise fails: a whole-cutoff deletion keeps
      every chat contiguous for every cutoff exactly when each chat's creation
      times never decrease. */
  lemma ContiguousIffClockKept(rows: seq<Row>, heads: map<Id, nat>)
    requires WellFormed(rows, heads)
    ensures ClockKept(rows) <==>
            forall cutoff: int, c :: c in heads ==> SuffixOf(Since(rows, cutoff), c, heads[c])
  {
    if ClockKept(rows) {
      forall cutoff: int, c | c in heads ensures SuffixOf(Since(rows, cutoff), c, heads[c]) {
        SinceSuffix(rows, heads, cutoff, c);
      }
    } else {
      var i, j :| 0 <= i < j < |rows| && rows[i].chat == rows[j].chat && rows[i].at > rows[j].at;
      SinceHole(rows, heads, i, j);
    }
  }

  lemma RetainedSince(rows: seq<Row>, cutoff: int, c: Id, n: nat)
    ensures n in Retained(Since(rows, cutoff), c) <==>
            exists i :: 0 <= i < |rows| && rows[i].chat == c && rows[i].num == n && rows[i].at >= cutoff
  {
    SinceMembers(rows, cutoff);
    var s := Since(rows, cutoff);
    if n in Retained(s, c) {
      var k :| 0 <= k < |s| && s[k].chat == c && s[k].num == n;
      assert s[k] in rows;
    }
    if i :| 0 <= i < |rows| && rows[i].chat == c && rows[i].num == n && rows[i].at >= cutoff {
      assert rows[i] in s;
    }
  }

  lemma SinceSuffix(rows: seq<Row>, heads: map<Id, nat>, cutoff: int, c: Id)
    requires WellFormed(rows, heads) && ClockKept(rows) && c in heads
    ensures SuffixOf(Since(rows, cutoff), c, heads[c])
  {
    var s := Since(rows, cutoff);
    forall n | n in Retained(s, c) ensures n in Retained(rows, c) { RetainedSince(rows, cutoff, c, n); }
    forall n, m: nat | n in Retained(s, c) && n <= m <= heads[c] ensures m in Retained(s, c) {
      RetainedSince(rows, cutoff, c, n);
      RetainedSince(rows, cutoff, c, m);
      var i :| 0 <= i < |rows| && rows[i].chat == c && rows[i].num == n && rows[i].at >= cutoff;
      assert m in Retained(rows, c);
      var j :| 0 <= j < |rows| && rows[j].chat == c && rows[j].num == m;
      assert i <= j;
    }
  }

  /** A clock that goes back opens a hole at the cutoff between the two rows. */
  lemma SinceHole(rows: seq<Row>, heads: map<Id, nat>, i: nat, j: nat)
    requires WellFormed(rows, heads)
    requires i < j < |rows| && rows[i].chat == rows[j].chat && rows[i].at > rows[j].at
    ensures !SuffixOf(Since(rows, rows[j].at + 1), rows[i].chat, heads[rows[i].chat])
  {
    var c, cutoff := rows[i].chat, rows[j].at + 1;
    assert rows[j].num in Retained(rows, c);
    RetainedSince(rows, cutoff, c, rows[i].num);
    RetainedSince(rows, cutoff, c, rows[j].num);
    forall k | 0 <= k < |rows| && rows[k].chat == c && rows[k].num == rows[j].num ensures k == j {
    }
  }

  lemma {:induction false} SomeFirst(rows: seq<Row>) returns (k: nat)
    requires rows != []
    ensures IndexFirst(rows, k)
  {
    var n := |rows| - 1;
    if n == 0 {
      k := 0;
    } else {
      k := SomeFirst(rows[..n]);
      if rows[n].at < rows[k].at {
        k := n;
      }
    }
  }

  /** The table without the row that the creation-time index lists first. */
  ghost function DropFirst(rows: seq<Row>): (r: seq<Row>)
    requires rows != []
    ensures |r| == |rows| - 1
  {
    RemoveAt(rows, FirstIndex(rows))
  }

  ghost function FirstIndex(rows: seq<Row>): (k: nat)
    requires rows != []
    ensures IndexFirst(rows, k)
  {
    FirstExists(rows);
    var k: nat :| IndexFirst(rows, k);
    k
  }

  lemma FirstExists(rows: seq<Row>)
    requires rows != []
    ensures exists k: nat :: IndexFirst(rows, k)
  {
    var k := SomeFirst(rows);
  }

  /** What is left without the `n` rows that the index lists first. */
  ghost function WithoutFirst(rows: seq<Row>, n: nat): (r: seq<Row>)
    requires n <= |rows|
    ensures |r| == |rows| - n
  {
    if n == 0 then rows else DropFirst(WithoutFirst(rows, n - 1))
  }

  lemma FirstIsUnique(rows: seq<Row>, j: nat, k: nat)
    requires IndexFirst(rows, j) && IndexFirst(rows, k)
    ensures j == k
  {
    var x, y := rows[j], rows[k];
  }

  lemma DropFirstIs(rows: seq<Row>, k: nat)
    requires IndexFirst(rows, k)
    ensures rows != [] && DropFirst(rows) == RemoveAt(rows, k)
  {
    FirstIsUnique(rows, FirstIndex(rows), k);
  }

  /** A sound table after `n` of its rows, all expired, were deleted. */
  ghost predicate Drained(was: seq<Row>, rows: seq<Row>, heads: map<Id, nat>, n: int, cutoff: int) {
    && WellFormed(rows, heads) && ClockKept(rows)
    && 0 <= n <= |was| && rows == WithoutFirst(was, n)
    && Since(rows, cutoff) == Since(was, cutoff)
  }

  /** One expired row less. */
  lemma DrainOne(was: seq<Row>, rows: seq<Row>, heads: map<Id, nat>, n: nat, k: nat, cutoff: int)
    requires Drained(was, rows, heads, n, cutoff) && IndexFirst(rows, k) && rows[k].at < cutoff
    ensures Drained(was, RemoveAt(rows, k), heads, n + 1, cutoff)
  {
    RemoveOldestKeeps(rows, heads, k);
    SinceRemove(rows, k, cutoff);
    DropFirstIs(rows, k);
  }

  lemma DrainMore(was: seq<Row>, between: seq<Row>, rows: seq<Row>, heads: map<Id, nat>, m: nat, n: nat, cutoff: int)
    requires Drained(was, between, heads, m, cutoff) && Drained(between, rows, heads, n, cutoff)
    ensures Drained(was, rows, heads, m + n, cutoff)
  {
    WithoutFirstSplit(was, m, n);
  }

  /** When not even the oldest row has expired, nothing is left to delete. */
  lemma NothingExpired(was: seq<Row>, rows: seq<Row>, k: nat, cutoff: int)
    requires Since(rows, cutoff) == Since(was, cutoff)
    requires rows == [] || (IndexFirst(rows, k) && rows[k].at >= cutoff)
    ensures rows == Since(was, cutoff)
  {
    assert forall i :: 0 <= i < |rows| ==> rows[i].at >= cutoff;
    SinceWhole(rows, cutoff);
  }

  ghost predicate InOrder(rows: seq<Row>, x: Row, y: Row) {
    exists a, b :: 0 <= a < b < |rows| && rows[a] == x && rows[b] == y
  }

  /** Rows that stay are rows that were there, in their old order. */
  lemma {:induction false} WithoutFirstKeepsOrder(rows: seq<Row>, n: nat, i: nat, j: nat)
    requires n <= |rows| && i < j < |rows| - n
    ensures InOrder(rows, WithoutFirst(rows, n)[i], WithoutFirst(rows, n)[j])
  {
    if n > 0 {
      var rest := WithoutFirst(rows, n - 1);
      var k := FirstIndex(rest);
      DropFirstIs(rest, k);
      WithoutFirstKeepsOrder(rows, n - 1, if i < k then i else i + 1, if j < k then j else j + 1);
    }
  }

  /** Deleting in two parts is deleting at once. */
  lemma {:induction false} WithoutFirstSplit(rows: seq<Row>, m: nat, n: nat)
    requires m + n <= |rows|
    ensures WithoutFirst(WithoutFirst(rows, m), n) == WithoutFirst(rows, m + n)
  {
    if n > 0 {
      WithoutFirstSplit(rows, m, n - 1);
    }
  }

  /** The events table, cleaned in place. */
  class EventTable {
    var rows: seq<Row>
    ghost const heads: map<Id, nat>

    ghost predicate Valid()
      reads this
    {
      WellFormed(rows, heads) && ClockKept(rows)
    }

    constructor (rows: seq<Row>, ghost heads: map<Id, nat>)
      requires WellFormed(rows, heads) && ClockKept(rows)
      ensures Valid() && this.rows == rows && this.heads == heads
    {
      this.rows := rows;
      this.heads := heads;
    }

    /** The row the creation-time index lists first. */
    method Oldest() returns (k: nat)
      requires rows != []
      ensures IndexFirst(rows, k)
    {
      k := 0;
      var i := 1;
      while i < |rows|
        invariant 1 <= i <= |rows| && k < i
        invariant forall j :: 0 <= j < k ==> rows[k].at < rows[j].at
        invariant forall j :: k < j < i ==> rows[k].at <= rows[j].at
      {
        if rows[i].at < rows[k].at {
          k := i;
        }
        i := i + 1;
      }
    }

    /** One bounded DELETE: exactly the `deleted` rows the index lists first go, at
        most `limit` and all expired. Fewer than `limit` means none is left; what
        survives the cutoff is untouched and chats stay contiguous. */
    method DeleteRetentionBatch(cutoff: int, limit: nat) returns (deleted: nat)
      requires Valid()
      modifies this
      ensures Valid()
      ensures deleted <= limit && Drained(old(rows), rows, heads, deleted, cutoff)
      ensures deleted < limit ==> rows == Since(old(rows), cutoff)
    {
      ghost var was := rows;
      deleted := 0;
      while deleted < limit && rows != []
        invariant deleted <= limit && Drained(was, rows, heads, deleted, cutoff)
      {
        var k := Oldest();
        if rows[k].at >= cutoff {
          NothingExpired(was, rows, k, cutoff);
          return;
        }
        DrainOne(was, rows, heads, deleted, k, cutoff);
        rows := RemoveAt(rows, k);
        deleted := deleted + 1;
      }
      if rows == [] {
        NothingExpired(was, rows, 0, cutoff);
      }
    }

    /** Batches until one comes back short; `patience` batches at most before
        the cleanup's context expires. Either way only expired, index-first rows are
        gone and chats stay contiguous. */
    method CleanupRetention(cutoff: int, patience: nat) returns (finished: bool)
      requires Valid()
      modifies this
      ensures Valid()
      ensures Drained(old(rows), rows, heads, |old(rows)| - |rows|, cutoff)
      ensures finished ==> rows == Since(old(rows), cutoff)
    {
      ghost var was, gone: nat := rows, 0;
      var more := true;
      var left := patience;
      while more && left > 0
        invariant Drained(was, rows, heads, gone, cutoff)
        invariant !more ==> rows == Since(was, cutoff)
        decreases left
      {
        ghost var between := rows;
        var deleted := DeleteRetentionBatch(cutoff, CLEANUP_BATCH);
        DrainMore(was, between, rows, heads, gone, deleted, cutoff);
        gone := gone + deleted;
        more := deleted == CLEANUP_BATCH;
        left := left - 1;
      }
      finished := !more;
    }
  }
}
