/** One WebSocket subscription over a whole run: appends, retention and changes
    of the join point happen between its flushes, and appends also between the
    two reads of a flush. */
module Subscription {
  import opened Basics
  import opened Relay
  import opened Retention
  import opened Replay

  /** One event written to the socket, with the join point in force then. */
  datatype Sent = Sent(num: nat, joined: int)

  datatype Sub = Sub(
    chat: Id, rows: seq<Row>, heads: map<Id, nat>, now: int, joined: int,
    start: nat, cursor: nat, open: bool, log: seq<Sent>)

  datatype Arrival = Arrival(chat: Id, kind: Kind, message: Option<Id>, delay: nat)

  datatype Step =
    | Arrive(arrival: Arrival)
    | Expire(k: nat)
    | Rejoin(joined: int)
    | Flush(between: seq<Arrival>, accessible: bool)

  /** The journal grows under a clock that never goes back. */
  function Arrived(s: Sub, a: Arrival): Sub {
    if a.chat !in s.heads then s
    else
      var row := Row(a.chat, s.heads[a.chat] + 1, a.kind, a.message, s.now + a.delay);
      s.(rows := s.rows + [row], heads := s.heads[a.chat := row.num], now := row.at)
  }

  function ArrivedAll(s: Sub, arrivals: seq<Arrival>): Sub {
    if arrivals == [] then s else Arrived(ArrivedAll(s, arrivals[..|arrivals| - 1]), arrivals[|arrivals| - 1])
  }

  function Cursors(page: seq<Row>, joined: int): seq<Sent> {
    seq(|page|, k requires 0 <= k < |page| => Sent(page[k].num, joined))
  }

  /** One page of a flush: every event is written and moves the cursor; any
      error ends the subscription. */
  function Flushed(s: Sub, between: seq<Arrival>, accessible: bool): Sub {
    if !s.open || s.chat !in s.heads then s
    else
      var t := ArrivedAll(s, between);
      var page := PageRows(s.heads[s.chat], s.joined, MinNum(s.rows, s.chat), t.rows, s.chat, s.cursor, FLUSH_LIMIT);
      if page.Fail? || !accessible then t.(open := false)
      else if page.value == [] then t
      else t.(log := s.log + Cursors(page.value, s.joined), cursor := page.value[|page.value| - 1].num)
  }

  function Next(s: Sub, step: Step): Sub {
    match step
    case Arrive(a) => Arrived(s, a)
    case Expire(k) =>
      if k < |s.rows| && IndexFirst(s.rows, k) then s.(rows := RemoveAt(s.rows, k)) else s
    case Rejoin(joined) => s.(joined := joined)
    case Flush(between, accessible) => Flushed(s, between, accessible)
  }

  function Run(s: Sub, steps: seq<Step>): Sub {
    if steps == [] then s else Next(Run(s, steps[..|steps| - 1]), steps[|steps| - 1])
  }

  ghost predicate Journal(s: Sub) {
    && WellFormed(s.rows, s.heads) && ClockKept(s.rows)
    && forall i :: 0 <= i < |s.rows| ==> s.rows[i].at <= s.now
  }

  function Before(s: Sub, k: nat): nat
    requires k <= |s.log|
  {
    if k == 0 then s.start else s.log[k - 1].num
  }

  /** Each event written is the very next one, or the first visible one when
      the cursor still lay before the join point. */
  ghost predicate Follows(s: Sub, k: nat)
    requires k < |s.log|
  {
    s.log[k].num == Start(Before(s, k), s.log[k].joined) + 1
  }

  ghost predicate InOrder(s: Sub) {
    forall k :: 0 <= k < |s.log| ==> Follows(s, k)
  }

  ghost predicate Inv(s: Sub) {
    Journal(s) && InOrder(s) && s.cursor == Before(s, |s.log|)
  }

  lemma ArrivedKeeps(s: Sub, a: Arrival)
    requires Journal(s)
    ensures var t := Arrived(s, a);
            Journal(t) && Appended(s.rows, s.heads, t.rows, t.heads)
            && t == s.(rows := t.rows, heads := t.heads, now := t.now)
  {
    if a.chat in s.heads {
      var row := Row(a.chat, s.heads[a.chat] + 1, a.kind, a.message, s.now + a.delay);
      AppendKeeps(s.rows, s.heads, row);
    }
  }

  lemma {:induction false} ArrivedAllKeeps(s: Sub, arrivals: seq<Arrival>)
    requires Journal(s)
    ensures var t := ArrivedAll(s, arrivals);
            Journal(t) && Appended(s.rows, s.heads, t.rows, t.heads)
            && t == s.(rows := t.rows, heads := t.heads, now := t.now)
    decreases |arrivals|
  {
    if arrivals != [] {
      var n := |arrivals| - 1;
      ArrivedAllKeeps(s, arrivals[..n]);
      ArrivedKeeps(ArrivedAll(s, arrivals[..n]), arrivals[n]);
      var p, t := ArrivedAll(s, arrivals[..n]), ArrivedAll(s, arrivals);
      assert s.rows == p.rows[..|s.rows|] == t.rows[..|p.rows|][..|s.rows|] == t.rows[..|s.rows|];
    }
  }

  /** A contiguous page after the cursor extends an ordered log. */
  lemma LogExtends(s: Sub, t: Sub, page: seq<Row>, joined: int)
    requires InOrder(s) && s.cursor == Before(s, |s.log|) && page != []
    requires Contiguous(page, Start(s.cursor, joined))
    requires t.log == s.log + Cursors(page, joined) && t.start == s.start
    ensures InOrder(t)
  {
    var n := |s.log|;
    forall k | 0 <= k < |t.log| ensures Follows(t, k) {
      if k < n {
        assert Follows(s, k);
      } else {
        assert page[k - n].num == Start(s.cursor, joined) + 1 + (k - n);
        assert k > n ==> page[k - n - 1].num == Start(s.cursor, joined) + (k - n);
      }
    }
  }

  lemma SameLogInOrder(s: Sub, t: Sub)
    requires InOrder(s) && t.log == s.log && t.start == s.start
    ensures InOrder(t)
  {
    forall k | 0 <= k < |t.log| ensures Follows(t, k) {
      assert Follows(s, k);
    }
  }

  lemma FlushKeeps(s: Sub, between: seq<Arrival>, accessible: bool)
    requires Inv(s)
    ensures Inv(Flushed(s, between, accessible))
  {
    if s.open && s.chat in s.heads {
      var t := ArrivedAll(s, between);
      ArrivedAllKeeps(s, between);
      var page := PageRows(s.heads[s.chat], s.joined, MinNum(s.rows, s.chat), t.rows, s.chat, s.cursor, FLUSH_LIMIT);
      if page.Ok? && accessible && page.value != [] {
        PageIsGapFree(s.rows, s.heads, t.rows, t.heads, s.joined, s.chat, s.cursor, FLUSH_LIMIT);
        LogExtends(s, Flushed(s, between, accessible), page.value, s.joined);
      } else {
        SameLogInOrder(s, Flushed(s, between, accessible));
      }
    }
  }

  /** What one page of a flush writes, in numbers: behind the head, the numbers
      right after its start, at least one, at most a hundred and fewer only up to
      the head; at the head nothing; and a cursor beyond it, an expired one or a lost
      access ends the subscription without writing. */
  lemma FlushDelivers(s: Sub, between: seq<Arrival>, accessible: bool)
    requires Inv(s) && s.open && s.chat in s.heads
    ensures var t := Flushed(s, between, accessible);
            var from := Max(s.cursor, s.joined - 1);
            var head := s.heads[s.chat];
            var served := accessible && (from == head || (from < head && from + 1 in Retained(s.rows, s.chat)));
            var n := |t.log| - |s.log|;
            && t.open == served && (n == 0 <==> !served || from == head)
            && (n == 0 ==> t.log == s.log && t.cursor == s.cursor)
            && (n != 0 ==>
                  && 0 < n <= 100 && (n < 100 ==> from + n >= head) && s.log <= t.log
                  && (forall k :: |s.log| <= k < |t.log| ==> t.log[k] == Sent(from + 1 + (k - |s.log|), s.joined))
                  && t.cursor == from + n)
  {
    var t := ArrivedAll(s, between);
    ArrivedAllKeeps(s, between);
    CursorErrors(s.rows, s.heads, t.rows, s.joined, s.chat, s.cursor, FLUSH_LIMIT);
    var page := PageRows(s.heads[s.chat], s.joined, MinNum(s.rows, s.chat), t.rows, s.chat, s.cursor, FLUSH_LIMIT);
    if page.Ok? {
      PageIsGapFree(s.rows, s.heads, t.rows, t.heads, s.joined, s.chat, s.cursor, FLUSH_LIMIT);
    }
  }

  /** Nothing its next page needs has been deleted. */
  ghost predicate Served(s: Sub) {
    && Inv(s) && s.open && s.chat in s.heads
    && var from := Max(s.cursor, s.joined - 1);
    from == s.heads[s.chat] || (from < s.heads[s.chat] && from + 1 in Retained(s.rows, s.chat))
  }

  /** One page with nothing new arriving: a hundred events closer to the head. */
  lemma OnePage(s: Sub)
    requires Served(s)
    ensures var t := Flushed(s, [], true);
            && Served(t) && t == s.(log := t.log, cursor := t.cursor)
            && Max(t.cursor, s.joined - 1) == Min(s.heads[s.chat], Max(s.cursor, s.joined - 1) + 100)
  {
    FlushDelivers(s, [], true);
    FlushKeeps(s, [], true);
    var page := PageRows(s.heads[s.chat], s.joined, MinNum(s.rows, s.chat), s.rows, s.chat, s.cursor, FLUSH_LIMIT);
    if page.Ok? {
      PageIsGapFree(s.rows, s.heads, s.rows, s.heads, s.joined, s.chat, s.cursor, FLUSH_LIMIT);
    }
    assert SuffixOf(s.rows, s.chat, s.heads[s.chat]);
  }

  /** Catching up: with its next event retained and nothing new arriving, `m` pages
      bring a subscription a hundred events a page closer to the head, and no further. */
  lemma {:induction false} CatchesUp(s: Sub, m: nat)
    requires Served(s)
    ensures var t := Run(s, seq(m, _ => Flush([], true)));
            && Served(t) && t == s.(log := t.log, cursor := t.cursor)
            && Max(t.cursor, s.joined - 1) == Min(s.heads[s.chat], Max(s.cursor, s.joined - 1) + 100 * m)
  {
    if m > 0 {
      CatchesUp(s, m - 1);
      var steps := seq(m, _ => Flush([], true));
      assert steps[..m - 1] == seq(m - 1, _ => Flush([], true));
      OnePage(Run(s, steps[..m - 1]));
    }
  }

  lemma StepKeeps(s: Sub, step: Step)
    requires Inv(s)
    ensures Inv(Next(s, step)) && Next(s, step).start == s.start && s.log <= Next(s, step).log
  {
    match step
    case Arrive(a) =>
      ArrivedKeeps(s, a);
      SameLogInOrder(s, Next(s, step));
    case Expire(k) =>
      SameLogInOrder(s, Next(s, step));
      if k < |s.rows| && IndexFirst(s.rows, k) {
        RemoveOldestKeeps(s.rows, s.heads, k);
      }
    case Rejoin(_) =>
      SameLogInOrder(s, Next(s, step));
    case Flush(between, accessible) =>
      ArrivedAllKeeps(s, between);
      FlushKeeps(s, between, accessible);
  }

  function Subscribed(chat: Id, rows: seq<Row>, heads: map<Id, nat>, now: int, joined: int, after: nat): Sub {
    Sub(chat, rows, heads, now, joined, after, after, true, [])
  }

  lemma {:induction false} RunKeeps(s: Sub, steps: seq<Step>)
    requires Inv(s)
    ensures Inv(Run(s, steps)) && Run(s, steps).start == s.start
    decreases |steps|
  {
    if steps != [] {
      RunKeeps(s, steps[..|steps| - 1]);
      StepKeeps(Run(s, steps[..|steps| - 1]), steps[|steps| - 1]);
    }
  }

  /** Over every run the events written are strictly increasing, and a number is
      skipped only up to the join point in force when its successor was written. */
  lemma EveryRunIsGapFree(chat: Id, rows: seq<Row>, heads: map<Id, nat>, now: int, joined: int, after: nat, steps: seq<Step>)
    requires Journal(Subscribed(chat, rows, heads, now, joined, after))
    ensures var s := Run(Subscribed(chat, rows, heads, now, joined, after), steps);
            && (forall j, k :: 0 <= j < k < |s.log| ==> s.log[j].num < s.log[k].num)
            && (forall k :: 0 <= k < |s.log| ==>
                  Before(s, k) < s.log[k].num && (s.log[k].num == Before(s, k) + 1 || s.log[k].num == s.log[k].joined))
  {
    var s := Run(Subscribed(chat, rows, heads, now, joined, after), steps);
    RunKeeps(Subscribed(chat, rows, heads, now, joined, after), steps);
    forall j, k | 0 <= j < k < |s.log| ensures s.log[j].num < s.log[k].num { LogIncreasing(s, j, k); }
    forall k | 0 <= k < |s.log|
      ensures Before(s, k) < s.log[k].num && (s.log[k].num == Before(s, k) + 1 || s.log[k].num == s.log[k].joined)
    {
      assert Follows(s, k);
    }
  }

  lemma {:induction false} LogIncreasing(s: Sub, j: nat, k: nat)
    requires InOrder(s) && j < k < |s.log|
    ensures s.log[j].num < s.log[k].num
    decreases k - j
  {
    assert Follows(s, k);
    if j < k - 1 {
      LogIncreasing(s, j, k - 1);
    }
  }
}
