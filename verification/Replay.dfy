/** Cursor paging over the journal: which rows one page holds, how they are
    projected, and what a subscription writes over a whole run. */
module Replay {
  import opened Basics
  import opened Relay
  import opened Retention

  const FLUSH_LIMIT: nat := 100

  datatype Event = Event(num: nat, kind: Kind, message: Option<Message>)

  function MinNum(rows: seq<Row>, chat: Id): Option<nat> {
    if rows == [] then None
    else
      var rest := MinNum(rows[1..], chat);
      if rows[0].chat != chat then rest
      else if rest.Some? && rest.value < rows[0].num then rest
      else Some(rows[0].num)
  }

  lemma {:induction false} MinNumIsLeast(rows: seq<Row>, chat: Id)
    ensures var m := MinNum(rows, chat);
            && (m.None? ==> Retained(rows, chat) == {})
            && (m.Some? ==> m.value in Retained(rows, chat) && forall n :: n in Retained(rows, chat) ==> m.value <= n)
  {
    if rows != [] {
      MinNumIsLeast(rows[1..], chat);
      forall n ensures n in Retained(rows, chat) <==> n in Retained(rows[1..], chat) || (rows[0].chat == chat && n == rows[0].num) {
        if n in Retained(rows, chat) {
          var i :| 0 <= i < |rows| && rows[i].chat == chat && rows[i].num == n;
          assert i > 0 ==> rows[1..][i - 1] == rows[i];
        }
        if n in Retained(rows[1..], chat) {
          var i :| 0 <= i < |rows| - 1 && rows[1..][i].chat == chat && rows[1..][i].num == n;
          assert rows[i + 1] == rows[1..][i];
        }
      }
    }
  }

  /** The chat's rows after a cursor, in journal order. */
  function After(rows: seq<Row>, chat: Id, after: int): seq<Row> {
    if rows == [] then []
    else
      var n := |rows| - 1;
      var front := After(rows[..n], chat, after);
      if rows[n].chat == chat && rows[n].num > after then front + [rows[n]] else front
  }

  lemma {:induction false} AfterMembers(rows: seq<Row>, chat: Id, after: int)
    ensures forall r :: r in After(rows, chat, after) <==> r in rows && r.chat == chat && r.num > after
    decreases |rows|
  {
    if rows != [] {
      var n := |rows| - 1;
      AfterMembers(rows[..n], chat, after);
      assert rows == rows[..n] + [rows[n]];
    }
  }

  ghost predicate Increasing(s: seq<Row>) {
    forall i, j :: 0 <= i < j < |s| ==> s[i].num < s[j].num
  }

  lemma {:induction false} AfterIncreasing(rows: seq<Row>, chat: Id, after: int)
    requires Ordered(rows)
    ensures Increasing(After(rows, chat, after))
    decreases |rows|
  {
    if rows != [] {
      var n := |rows| - 1;
      AfterIncreasing(rows[..n], chat, after);
      AfterMembers(rows[..n], chat, after);
      var front := After(rows[..n], chat, after);
      forall k | 0 <= k < |front| && rows[n].chat == chat ensures front[k].num < rows[n].num {
        assert front[k] in rows[..n];
        var i :| 0 <= i < n && rows[..n][i] == front[k];
        assert rows[i] == front[k];
      }
    }
  }

  ghost predicate HasNum(s: seq<Row>, n: int) {
    exists i :: 0 <= i < |s| && s[i].num == n
  }

  /** An increasing enumeration of an interval is the interval in order. */
  lemma {:induction false} EnumeratesInterval(s: seq<Row>, lo: int, hi: int, k: nat)
    requires Increasing(s)
    requires forall i :: 0 <= i < |s| ==> lo < s[i].num <= hi
    requires forall n: int :: lo < n <= hi ==> HasNum(s, n)
    requires k <= |s|
    ensures forall j :: 0 <= j < k ==> s[j].num == lo + 1 + j
    ensures k == |s| && lo <= hi ==> |s| == hi - lo
  {
    if k > 0 {
      EnumeratesInterval(s, lo, hi, k - 1);
      var n := lo + k;
      assert k > 1 ==> s[k - 2].num == n - 1 < s[k - 1].num;
      assert HasNum(s, n);
      var i :| 0 <= i < |s| && s[i].num == n;
      assert i >= k - 1;
    }
    assert k == |s| && lo + 1 + k <= hi ==> HasNum(s, lo + 1 + k);
  }

  /** From a retained successor on, the rows are the whole range to the head. */
  lemma AfterIsRange(rows: seq<Row>, heads: map<Id, nat>, chat: Id, after: int)
    requires WellFormed(rows, heads) && chat in heads && after < heads[chat]
    requires after >= 0 && after + 1 in Retained(rows, chat)
    ensures var s := After(rows, chat, after);
            |s| == heads[chat] - after && forall k :: 0 <= k < |s| ==> s[k].num == after + 1 + k
  {
    var s := After(rows, chat, after);
    AfterIncreasing(rows, chat, after);
    AfterMembers(rows, chat, after);
    forall i | 0 <= i < |s| ensures after < s[i].num <= heads[chat] {
      assert s[i] in rows;
      assert s[i].num in Retained(rows, chat);
    }
    forall n: int | after < n <= heads[chat] ensures HasNum(s, n) {
      assert n in Retained(rows, chat);
      var i :| 0 <= i < |rows| && rows[i].chat == chat && rows[i].num == n;
      assert rows[i] in s;
    }
    EnumeratesInterval(s, after, heads[chat], |s|);
  }

  /** Where a page starts once history before the join is skipped. */
  function Start(after: int, joined: int): int {
    Max(after, joined - 1)
  }

  /** The rows of one page, decided from two reads: the head, the join point and
      the oldest number from the first, the rows themselves from the second. */
  function PageRows(current: nat, joined: int, minimum: Option<nat>, rows: seq<Row>, chat: Id, after: int, limit: int)
    : Result<seq<Row>>
  {
    if limit < 1 || limit > 200 then Fail(Err(400, EventLimit))
    else
      var from := Start(after, joined);
      // The oldest number is only read for a cursor behind the head.
      var oldest := if current > after then minimum else None;
      if from < current && (oldest.None? || from + 1 < oldest.value) then Fail(Err(410, CursorExpired))
      else if from > current then Fail(Err(400, CursorAhead))
      else if from == current then Ok([])
      else
        var s := After(rows, chat, from);
        if current - from == 1 || limit == 1 then
          Ok(if s != [] && s[0].num <= current then s[..1] else [])
        else Ok(s[..Min(limit, |s|)])
  }

  ghost predicate Contiguous(page: seq<Row>, from: int) {
    forall k :: 0 <= k < |page| ==> page[k].num == from + 1 + k
  }

  /** Later rows: the same journal with only appends since the first read. */
  ghost predicate Appended(rows: seq<Row>, heads: map<Id, nat>, rows2: seq<Row>, heads2: map<Id, nat>) {
    rows <= rows2 && heads.Keys == heads2.Keys && forall c :: c in heads ==> heads[c] <= heads2[c]
  }

  /** Gap freedom: every successful page is the contiguous range right after
      max(cursor, joined - 1), never empty while events remain, and a short page
      reaches at least the head the request first saw. */
  lemma PageIsGapFree(rows: seq<Row>, heads: map<Id, nat>, rows2: seq<Row>, heads2: map<Id, nat>,
                      joined: int, chat: Id, after: int, limit: int)
    requires WellFormed(rows, heads) && WellFormed(rows2, heads2) && Appended(rows, heads, rows2, heads2)
    requires chat in heads && after >= 0
    requires PageRows(heads[chat], joined, MinNum(rows, chat), rows2, chat, after, limit).Ok?
    ensures var page := PageRows(heads[chat], joined, MinNum(rows, chat), rows2, chat, after, limit).value;
            var from := Start(after, joined);
            && from <= heads[chat] && |page| <= limit && Contiguous(page, from)
            && (page == [] <==> from == heads[chat])
            && (|page| < limit ==> from + |page| >= heads[chat])
            && from + |page| <= heads2[chat]
  {
    var from := Start(after, joined);
    MinNumIsLeast(rows, chat);
    if from < heads[chat] {
      assert SuffixOf(rows, chat, heads[chat]);
      assert from + 1 in Retained(rows, chat);
      AfterIsRange(rows2, heads2, chat, from);
    }
  }

  /** The cursor errors: one beyond the head, and one whose next event has been
      deleted; every other page of a sane size is served. */
  lemma CursorErrors(rows: seq<Row>, heads: map<Id, nat>, rows2: seq<Row>, joined: int, chat: Id, after: int, limit: int)
    requires WellFormed(rows, heads) && chat in heads && after >= 0 && 1 <= limit <= 200
    ensures var r := PageRows(heads[chat], joined, MinNum(rows, chat), rows2, chat, after, limit);
            var from := Start(after, joined);
            && (r == Fail(Err(400, CursorAhead)) <==> from > heads[chat])
            && (r == Fail(Err(410, CursorExpired)) <==> from < heads[chat] && from + 1 !in Retained(rows, chat))
            && (r.Fail? ==> r.error == Err(400, CursorAhead) || r.error == Err(410, CursorExpired))
  {
    MinNumIsLeast(rows, chat);
    assert SuffixOf(rows, chat, heads[chat]);
  }

  /** The two reads are not one snapshot. Whatever retention did in between, a
      successful page is contiguous exactly when it is empty or the row right
      after its start was still there at the second read. */
  lemma PageContiguousIff(current: nat, joined: int, minimum: Option<nat>, rows2: seq<Row>, heads2: map<Id, nat>,
                          chat: Id, after: int, limit: int)
    requires WellFormed(rows2, heads2) && chat in heads2 && after >= 0
    requires PageRows(current, joined, minimum, rows2, chat, after, limit).Ok?
    ensures var page := PageRows(current, joined, minimum, rows2, chat, after, limit).value;
            var from := Start(after, joined);
            Contiguous(page, from) <==> page == [] || from + 1 in Retained(rows2, chat)
  {
    var page := PageRows(current, joined, minimum, rows2, chat, after, limit).value;
    var from := Start(after, joined);
    AfterMembers(rows2, chat, from);
    if page != [] {
      assert page[0] in After(rows2, chat, from);
      assert page[0] in rows2 && page[0].num in Retained(rows2, chat);
      if from + 1 in Retained(rows2, chat) {
        assert SuffixOf(rows2, chat, heads2[chat]);
        AfterIsRange(rows2, heads2, chat, from);
      }
    }
  }

  function Note(n: nat): Row {
    Row(0, n, OtherEvent, None, 0)
  }

  lemma NotesWellFormed()
    ensures WellFormed([Note(1), Note(2)], map[0 := 2]) && WellFormed([Note(2)], map[0 := 2])
  {
    var rows1, rows2 := [Note(1), Note(2)], [Note(2)];
    assert Retained(rows1, 0) == {1, 2} by { assert rows1[0].num == 1 && rows1[1].num == 2; }
    assert Retained(rows2, 0) == {2} by { assert rows2[0].num == 2; }
  }

  /** A retention commit between the reads can open a gap in a page. */
  lemma RetentionBetweenReadsGaps()
    ensures var rows1, rows2 := [Note(1), Note(2)], [Note(2)];
            && WellFormed(rows1, map[0 := 2]) && WellFormed(rows2, map[0 := 2])
            && PageRows(2, 1, MinNum(rows1, 0), rows2, 0, 0, 100) == Ok([Note(2)])
            && !Contiguous([Note(2)], 0)
  {
    var rows1, rows2 := [Note(1), Note(2)], [Note(2)];
    NotesWellFormed();
    assert MinNum(rows1, 0) == Some(1) by { assert rows1[1..] == rows2 && rows2[1..] == []; }
    assert After(rows2, 0, 0) == [Note(2)] by { assert rows2[..0] == []; }
    assert [Note(2)][..Min(100, 1)] == [Note(2)];
    assert [Note(2)][0].num == 2;
  }

  /** The stored message behind a journal row, if the identity may see it. */
  function Visible(db: DB, id: Identity, chat: Id, message: Id): Option<Message> {
    if Accessible(db, id, message) && db.messages[message].chat == chat then Some(db.messages[message]) else None
  }

  ghost predicate Shows(db: DB, id: Identity, chat: Id, e: Event, row: Row) {
    && e.num == row.num && e.kind == row.kind
    && (row.message.None? ==> e.message.None?)
    && (row.message.Some? ==> e.message.Some? && Visible(db, id, chat, row.message.value) == e.message)
  }

  /** Projection of a page against the second read: each distinct message is
      projected once and every event shows its own row. */
  method Project(db: DB, id: Identity, chat: Id, page: seq<Row>) returns (r: Result<seq<Event>>, projected: seq<Id>)
    ensures r.Ok? <==>
              page == [] || (Live(db, id, chat)
                && forall k :: 0 <= k < |page| && page[k].message.Some? ==> Visible(db, id, chat, page[k].message.value).Some?)
    ensures r.Fail? ==> r.error == if Live(db, id, chat) then Err(404, MessageNotAccessible) else Err(403, MembershipRequired)
    ensures r.Ok? ==> |r.value| == |page| && forall k :: 0 <= k < |page| ==> Shows(db, id, chat, r.value[k], page[k])
    ensures forall i, j :: 0 <= i < j < |projected| ==> projected[i] != projected[j]
    ensures r.Ok? ==> forall m :: m in projected <==> exists k :: 0 <= k < |page| && page[k].message == Some(m)
  {
    var indices: map<Id, nat> := map[];
    var stored: seq<Message> := [];
    var at: seq<Option<nat>> := [];
    projected := [];
    var k := 0;
    while k < |page|
      invariant 0 <= k <= |page| && |at| == k && |stored| == |projected|
      invariant k > 0 ==> Live(db, id, chat)
      invariant forall j :: 0 <= j < |projected| ==>
                  projected[j] in indices && indices[projected[j]] == j && Visible(db, id, chat, projected[j]) == Some(stored[j])
      invariant forall m :: m in indices ==> indices[m] < |projected| && projected[indices[m]] == m
      invariant forall i, j :: 0 <= i < j < |projected| ==> projected[i] != projected[j]
      invariant forall j :: 0 <= j < k && at[j].None? ==> page[j].message.None?
      invariant forall j :: 0 <= j < k && at[j].Some? ==>
                  at[j].value < |projected| && page[j].message == Some(projected[at[j].value])
      invariant forall m :: m in projected ==> exists j :: 0 <= j < k && page[j].message == Some(m)
    {
      if !Live(db, id, chat) {
        return Fail(Err(403, MembershipRequired)), projected;
      }
      if page[k].message.None? {
        at := at + [None];
      } else {
        var m := page[k].message.value;
        if m !in indices {
          var found := Visible(db, id, chat, m);
          if found.None? {
            return Fail(Err(404, MessageNotAccessible)), projected;
          }
          indices := indices[m := |stored|];
          stored := stored + [found.value];
          projected := projected + [m];
          assert page[k].message == Some(m);
        }
        at := at + [Some(indices[m])];
      }
      k := k + 1;
    }
    var out: seq<Event> := [];
    k := 0;
    while k < |page|
      invariant 0 <= k <= |page| && |out| == k
      invariant forall j :: 0 <= j < k ==> Shows(db, id, chat, out[j], page[j])
    {
      out := out + [Event(page[k].num, page[k].kind, if at[k].Some? then Some(stored[at[k].value]) else None)];
      k := k + 1;
    }
    r := Ok(out);
  }

  ghost predicate ShowsARow(db: DB, id: Identity, chat: Id, e: Event) {
    exists row :: row in db.journal && row.chat == chat && Shows(db, id, chat, e, row)
  }

  function Heads(db: DB): map<Id, nat> {
    map c | c in db.chats :: db.chats[c].num
  }

  /** One page for one identity. With only appends between the two reads, a
      successful page is gap free and shows exactly its rows. */
  method Events(s1: DB, s2: DB, id: Identity, chat: Id, after: nat, limit: int)
    returns (r: Result<seq<Event>>, projected: seq<Id>)
    requires WellFormed(s1.journal, Heads(s1)) && WellFormed(s2.journal, Heads(s2))
    requires Appended(s1.journal, Heads(s1), s2.journal, Heads(s2))
    ensures !(1 <= limit <= 200) ==> r == Fail(Err(400, EventLimit))
    ensures 1 <= limit <= 200 && !Live(s1, id, chat) ==> r == Fail(Err(403, MembershipRequired))
    ensures 1 <= limit <= 200 && Live(s1, id, chat) ==>
              var from := Start(after, s1.members[(chat, id.user)].joinedSeq);
              && (r == Fail(Err(400, CursorAhead)) <==> from > Head(s1, chat))
              && (r == Fail(Err(410, CursorExpired)) <==> from < Head(s1, chat) && from + 1 !in Retained(s1.journal, chat))
    ensures r.Ok? ==>
              && Live(s1, id, chat)
              && var from := Start(after, s1.members[(chat, id.user)].joinedSeq);
              && |r.value| <= limit
              && (forall k :: 0 <= k < |r.value| ==> r.value[k].num == from + 1 + k)
              && (r.value == [] <==> from == Head(s1, chat))
              && (|r.value| < limit ==> from + |r.value| >= Head(s1, chat))
              && (forall k :: 0 <= k < |r.value| ==> ShowsARow(s2, id, chat, r.value[k]))
    ensures forall i, j :: 0 <= i < j < |projected| ==> projected[i] != projected[j]
  {
    projected := [];
    if limit < 1 || limit > 200 {
      return Fail(Err(400, EventLimit)), projected;
    }
    if !Live(s1, id, chat) {
      return Fail(Err(403, MembershipRequired)), projected;
    }
    var joined := s1.members[(chat, id.user)].joinedSeq;
    var page := PageRows(s1.chats[chat].num, joined, MinNum(s1.journal, chat), s2.journal, chat, after, limit);
    CursorErrors(s1.journal, Heads(s1), s2.journal, joined, chat, after, limit);
    if page.Fail? {
      return Fail(page.error), projected;
    }
    PageIsGapFree(s1.journal, Heads(s1), s2.journal, Heads(s2), joined, chat, after, limit);
    AfterMembers(s2.journal, chat, Start(after, joined));
    assert forall k :: 0 <= k < |page.value| ==> page.value[k] in s2.journal && page.value[k].chat == chat;
    r, projected := Project(s2, id, chat, page.value);
    if r.Ok? {
      forall k | 0 <= k < |r.value| ensures ShowsARow(s2, id, chat, r.value[k]) {
        assert Shows(s2, id, chat, r.value[k], page.value[k]);
      }
    }
  }
}
