/** Wake-ups between commits and WebSocket subscriptions. Notifications carry no
    payload, so what must hold is that a subscription behind the journal is always
    about to look again. Every interleaving of commits, wakes, the shared poll and
    the connections is covered; steps local to one goroutine are merged with its
    next shared step. */
module WakeUps {
  import opened Basics
  import opened Relay
  import opened Retention
  import opened Replay

  const PAGES_PER_TURN: nat := 10

  /** Where a connection's goroutine stands; `todo` are chats taken and not yet
      flushed. `Reading` has done the first of a page's two reads, which gave the
      head and, from cursor and join point, where the page starts. */
  datatype Phase =
    | Idle
    | Taking
    | Sweeping(todo: set<Id>)
    | Flushing(chat: Id, pages: nat, todo: set<Id>)
    | Reading(chat: Id, pages: nat, todo: set<Id>, seen: nat, from: int)
    | Again(chat: Id, todo: set<Id>)
    | Nudging(todo: set<Id>)
    | Dropping(chat: Id, todo: set<Id>)
    | Gone

  /** `cursors` are the connection's subscriptions, which are also its entries in
      the shared subscriber table; `floor` is the last number hidden by a join. */
  datatype Conn = Conn(pending: set<Id>, token: bool, cursors: map<Id, int>, floor: map<Id, int>, phase: Phase)

  /** A notifier under the shared mutex: connections still to notify, the one
      marked but not yet sent its token, and the Wake this answers, if it is one. */
  datatype Lock =
    | Free
    | Notifying(chat: Id, upto: nat, todo: set<Id>, sending: Option<Id>, due: Option<nat>)

  datatype Poll =
    | Off
    | Listed(chats: set<Id>)
    | Observed(batch: set<Id>, heads: map<Id, nat>, rest: set<Id>)

  /** `owed` are commits whose Wake has not completed. `woken` and `announced`
      are history: commits that owe a Wake at all, and for each chat the highest
      head that a completed notification round covers. */
  datatype State = State(
    heads: map<Id, nat>, conns: map<Id, Conn>, lock: Lock, poll: Poll, replay: map<Id, nat>,
    owed: set<(Id, nat)>, woken: set<(Id, nat)>, announced: map<Id, nat>)

  function Init(): State {
    State(map[], map[], Free, Off, map[], {}, {}, map[])
  }

  function HeadOf(heads: map<Id, nat>, chat: Id): nat {
    if chat in heads then heads[chat] else 0
  }

  function Subscribers(s: State, chat: Id): set<Id> {
    set c | c in s.conns && chat in s.conns[c].cursors
  }

  /** The last number a subscription has nothing more to see up to. */
  function Reached(conn: Conn, chat: Id): int {
    Max(if chat in conn.cursors then conn.cursors[chat] else 0, if chat in conn.floor then conn.floor[chat] else 0)
  }

  function WithConn(s: State, c: Id, conn: Conn): State {
    s.(conns := s.conns[c := conn])
  }

  /** A commit; not every one is followed by a Wake. */
  function Commit(s: State, chat: Id, wakes: bool): State {
    var n := HeadOf(s.heads, chat) + 1;
    var t := s.(heads := s.heads[chat := n]);
    if wakes then t.(owed := s.owed + {(chat, n)}, woken := s.woken + {(chat, n)}) else t
  }

  function Connect(s: State, c: Id): State {
    if c in s.conns then s else WithConn(s, c, Conn({}, false, map[], map[], Idle))
  }

  function Rejoin(s: State, c: Id, chat: Id, floor: int): State {
    if c !in s.conns || (chat in s.conns[c].floor && floor < s.conns[c].floor[chat]) || floor < 0 then s
    else WithConn(s, c, s.conns[c].(floor := s.conns[c].floor[chat := floor]))
  }

  /** A Wake takes the mutex and starts on the chat's subscribers. */
  function WakeStart(s: State, chat: Id, n: nat): State {
    if s.lock.Free? && (chat, n) in s.owed then
      s.(lock := Notifying(chat, HeadOf(s.heads, chat), Subscribers(s, chat), None, Some(n)))
    else s
  }

  /** notify, first half: the chat is marked under the connection's own mutex. */
  function Mark(s: State, c: Id): State {
    if s.lock.Notifying? && s.lock.sending.None? && c in s.lock.todo && c in s.conns then
      WithConn(s, c, s.conns[c].(pending := s.conns[c].pending + {s.lock.chat}))
      .(lock := s.lock.(todo := s.lock.todo - {c}, sending := Some(c)))
    else s
  }

  /** notify, second half: a token unless one is already waiting. */
  function SendToken(s: State): State {
    if s.lock.Notifying? && s.lock.sending.Some? then
      var c := s.lock.sending.value;
      var t := s.(lock := s.lock.(sending := None));
      if c in s.conns then WithConn(t, c, s.conns[c].(token := true)) else t
    else s
  }

  /** The round is over; a poll records the head it observed. */
  function Finish(s: State): State {
    if s.lock.Notifying? && s.lock.sending.None? && s.lock.todo == {} then
      var l := s.lock;
      var t := s.(lock := Free, announced := s.announced[l.chat := Max(HeadOf(s.announced, l.chat), l.upto)]);
      if l.due.Some? then t.(owed := s.owed - {(l.chat, l.due.value)})
      else if s.poll.Observed? && l.chat in s.poll.heads then t.(replay := s.replay[l.chat := s.poll.heads[l.chat]])
      else t
    else s
  }

  /** The poll lists subscribed chats and forgets heads nobody subscribes to. */
  function PollList(s: State): State {
    if s.lock.Free? && s.poll.Off? then
      s.(poll := Listed(set chat | chat in AllCursors(s) && Subscribers(s, chat) != {}),
         replay := map chat | chat in s.replay && Subscribers(s, chat) != {} :: s.replay[chat])
    else s
  }

  function AllCursors(s: State): set<Id> {
    set c, chat | c in s.conns && chat in s.conns[c].cursors :: chat
  }

  /** One batch's heads are read without the mutex; a failed read skips it. */
  function PollRead(s: State, batch: set<Id>, fails: bool): State {
    if s.poll.Listed? && batch <= s.poll.chats then
      if fails then s.(poll := Listed(s.poll.chats - batch))
      else s.(poll := Observed(batch, map chat | chat in batch && chat in s.heads :: s.heads[chat], s.poll.chats - batch))
    else s
  }

  /** One chat of the batch: pruned, unchanged, or a round is started. */
  function PollChat(s: State, chat: Id): State {
    if s.lock.Free? && s.poll.Observed? && chat in s.poll.batch then
      var t := s.(poll := s.poll.(batch := s.poll.batch - {chat}));
      if Subscribers(s, chat) == {} then t.(replay := s.replay - {chat})
      else if chat in s.poll.heads && chat in s.replay && s.poll.heads[chat] == s.replay[chat] then t
      else t.(lock := Notifying(chat, HeadOf(s.poll.heads, chat), Subscribers(s, chat), None, None))
    else s
  }

  function PollNext(s: State): State {
    if s.lock.Free? && s.poll.Observed? && s.poll.batch == {} then s.(poll := Listed(s.poll.rest))
    else if s.poll.Listed? && s.poll.chats == {} then s.(poll := Off)
    else s
  }

  /** A subscription sets its cursor, registers and owes an initial flush. */
  function Subscribe(s: State, c: Id, chat: Id, after: nat): State {
    if c in s.conns && s.conns[c].phase.Idle? && s.lock.Free? then
      WithConn(s, c, s.conns[c].(cursors := s.conns[c].cursors[chat := after], phase := Flushing(chat, 0, {})))
    else s
  }

  function Without(conn: Conn, chat: Id): Conn {
    conn.(cursors := conn.cursors - {chat}, pending := conn.pending - {chat})
  }

  function Unsubscribe(s: State, c: Id, chat: Id): State {
    if c in s.conns && s.conns[c].phase.Idle? && s.lock.Free? then WithConn(s, c, Without(s.conns[c], chat)) else s
  }

  /** A failed page ends the subscription. */
  function Drop(s: State, c: Id): State {
    if c in s.conns && s.conns[c].phase.Dropping? && s.lock.Free? then
      var phase := s.conns[c].phase;
      WithConn(s, c, Without(s.conns[c], phase.chat).(phase := Sweeping(phase.todo)))
    else s
  }

  function ReceiveToken(s: State, c: Id): State {
    if c in s.conns && s.conns[c].phase.Idle? && s.conns[c].token then
      WithConn(s, c, s.conns[c].(token := false, phase := Taking))
    else s
  }

  function Take(s: State, c: Id): State {
    if c in s.conns && s.conns[c].phase.Taking? then
      WithConn(s, c, s.conns[c].(pending := {}, phase := Sweeping(s.conns[c].pending)))
    else s
  }

  /** The taken chats in any order; those no longer subscribed are skipped. */
  function Sweep(s: State, c: Id, chat: Id): State {
    if c in s.conns && s.conns[c].phase.Sweeping? then
      var conn := s.conns[c];
      var todo := conn.phase.todo;
      if todo == {} then WithConn(s, c, conn.(phase := Idle))
      else if chat in todo then
        WithConn(s, c, conn.(phase := if chat in conn.cursors then Flushing(chat, 0, todo - {chat}) else Sweeping(todo - {chat})))
      else s
    else s
  }

  /** A page's first read: the chat's head and the page's start. */
  function ReadHead(s: State, c: Id): State {
    if c in s.conns && s.conns[c].phase.Flushing? then
      var p := s.conns[c].phase;
      WithConn(s, c, s.conns[c].(phase := Reading(p.chat, p.pages, p.todo, HeadOf(s.heads, p.chat), Reached(s.conns[c], p.chat))))
    else s
  }

  /** What a page holds when no retention commit falls between its two reads. */
  ghost predicate PageLaw(from: int, seen: nat, head: nat, size: nat) {
    size <= FLUSH_LIMIT && from + size <= head && (size < FLUSH_LIMIT ==> from + size >= seen)
  }

  /** A page's second read, and its events written: a full page asks for another,
      a tenth one reschedules the chat, a failed one drops it. */
  ghost function Deliver(s: State, c: Id, size: nat, fails: bool): State {
    if c in s.conns && s.conns[c].phase.Reading? && s.conns[c].phase.chat in s.conns[c].cursors then
      var conn := s.conns[c];
      var p := conn.phase;
      var from := p.from;
      if fails then WithConn(s, c, conn.(phase := Dropping(p.chat, p.todo)))
      else if !PageLaw(from, p.seen, HeadOf(s.heads, p.chat), size) then s
      else
        WithConn(s, c, conn.(cursors := if size == 0 then conn.cursors else conn.cursors[p.chat := from + size],
                             phase := if size < FLUSH_LIMIT then Sweeping(p.todo)
                                      else if p.pages + 1 < PAGES_PER_TURN then Flushing(p.chat, p.pages + 1, p.todo)
                                      else Again(p.chat, p.todo)))
    else s
  }

  function SelfMark(s: State, c: Id): State {
    if c in s.conns && s.conns[c].phase.Again? then
      var p := s.conns[c].phase;
      WithConn(s, c, s.conns[c].(pending := s.conns[c].pending + {p.chat}, phase := Nudging(p.todo)))
    else s
  }

  function SelfSend(s: State, c: Id): State {
    if c in s.conns && s.conns[c].phase.Nudging? then
      WithConn(s, c, s.conns[c].(token := true, phase := Sweeping(s.conns[c].phase.todo)))
    else s
  }

  /** A write failure, expiry or close at any moment; then its entries go. */
  function Hangup(s: State, c: Id): State {
    if c in s.conns then WithConn(s, c, s.conns[c].(phase := Gone)) else s
  }

  function Leave(s: State, c: Id, chat: Id): State {
    if c in s.conns && s.conns[c].phase.Gone? && s.lock.Free? then WithConn(s, c, Without(s.conns[c], chat)) else s
  }

  datatype Shared =
    | DoCommit(chat: Id, wakes: bool)
    | DoWakeStart(chat: Id, n: nat)
    | DoMark(c: Id)
    | DoSendToken
    | DoFinish
    | DoPollList
    | DoPollRead(batch: set<Id>, fails: bool)
    | DoPollChat(chat: Id)
    | DoPollNext

  datatype Local =
    | DoConnect
    | DoRejoin(chat: Id, floor: int)
    | DoSubscribe(chat: Id, after: nat)
    | DoUnsubscribe(chat: Id)
    | DoDrop
    | DoReceiveToken
    | DoTake
    | DoSweep(chat: Id)
    | DoReadHead
    | DoDeliver(size: nat, fails: bool)
    | DoSelfMark
    | DoSelfSend
    | DoHangup
    | DoLeave(chat: Id)

  datatype Step = Everyone(shared: Shared) | One(c: Id, local: Local)

  function NextShared(s: State, step: Shared): State {
    match step
    case DoCommit(chat, wakes) => Commit(s, chat, wakes)
    case DoWakeStart(chat, n) => WakeStart(s, chat, n)
    case DoMark(c) => Mark(s, c)
    case DoSendToken => SendToken(s)
    case DoFinish => Finish(s)
    case DoPollList => PollList(s)
    case DoPollRead(batch, fails) => PollRead(s, batch, fails)
    case DoPollChat(chat) => PollChat(s, chat)
    case DoPollNext => PollNext(s)
  }

  ghost function NextLocal(s: State, c: Id, step: Local): State {
    match step
    case DoConnect => Connect(s, c)
    case DoRejoin(chat, floor) => Rejoin(s, c, chat, floor)
    case DoSubscribe(chat, after) => Subscribe(s, c, chat, after)
    case DoUnsubscribe(chat) => Unsubscribe(s, c, chat)
    case DoDrop => Drop(s, c)
    case DoReceiveToken => ReceiveToken(s, c)
    case DoTake => Take(s, c)
    case DoSweep(chat) => Sweep(s, c, chat)
    case DoReadHead => ReadHead(s, c)
    case DoDeliver(size, fails) => Deliver(s, c, size, fails)
    case DoSelfMark => SelfMark(s, c)
    case DoSelfSend => SelfSend(s, c)
    case DoHangup => Hangup(s, c)
    case DoLeave(chat) => Leave(s, c, chat)
  }

  ghost function Next(s: State, step: Step): State {
    match step
    case Everyone(shared) => NextShared(s, shared)
    case One(c, local) => NextLocal(s, c, local)
  }

  ghost function Run(s: State, steps: seq<Step>): State {
    if steps == [] then s else Next(Run(s, steps[..|steps| - 1]), steps[|steps| - 1])
  }

  /** The goroutine holds this chat and will read a head of at least `n`. */
  predicate Held(phase: Phase, chat: Id, n: nat) {
    match phase
    case Idle => false
    case Taking => false
    case Sweeping(todo) => chat in todo
    case Flushing(here, _, todo) => chat == here || chat in todo
    case Reading(here, _, todo, seen, _) => (chat == here && n <= seen) || chat in todo
    case Again(here, todo) => chat == here || chat in todo
    case Nudging(todo) => chat in todo
    case Dropping(here, todo) => chat == here || chat in todo
    case Gone => true
  }

  /** Event `n` has been passed, or the connection is due to look again. */
  predicate Covered(s: State, c: Id, chat: Id, n: nat)
    requires c in s.conns
  {
    var conn := s.conns[c];
    n <= Reached(conn, chat) || chat in conn.pending || Held(conn.phase, chat, n)
  }

  predicate InRound(s: State, c: Id, chat: Id) {
    s.lock.Notifying? && s.lock.chat == chat && c in s.lock.todo
  }

  predicate CoverOk(s: State, c: Id, chat: Id) {
    c in s.conns && chat in s.conns[c].cursors ==>
      && (Covered(s, c, chat, HeadOf(s.announced, chat)) || InRound(s, c, chat))
      && (s.lock.Notifying? && s.lock.chat == chat && c !in s.lock.todo ==> Covered(s, c, chat, s.lock.upto))
      && (s.conns[c].phase.Reading? && s.conns[c].phase.chat == chat ==>
            s.conns[c].cursors[chat] <= s.conns[c].phase.from <= Reached(s.conns[c], chat))
  }

  /** A nonempty pending set has a token, a notifier about to send one, or a
      consumer about to take. */
  predicate TokenOk(s: State, c: Id) {
    c in s.conns && s.conns[c].pending != {} ==>
      || s.conns[c].token || s.conns[c].phase.Taking? || s.conns[c].phase.Nudging? || s.conns[c].phase.Gone?
      || (s.lock.Notifying? && s.lock.sending == Some(c))
  }

  /** Observed heads are old heads, and recorded ones have been announced. */
  predicate HeadOk(s: State, chat: Id) {
    && HeadOf(s.announced, chat) <= HeadOf(s.heads, chat)
    && (chat in s.replay ==> s.replay[chat] <= HeadOf(s.announced, chat))
    && (s.poll.Observed? ==> HeadOf(s.poll.heads, chat) <= HeadOf(s.heads, chat))
    && (s.lock.Notifying? && s.lock.chat == chat ==>
          && s.lock.upto <= HeadOf(s.heads, chat)
          && (s.lock.due.Some? ==> s.lock.due.value <= s.lock.upto)
          && (s.lock.due.None? ==> s.poll.Observed? && s.lock.upto == HeadOf(s.poll.heads, chat)))
  }

  predicate WakeOk(s: State, chat: Id, n: nat) {
    (chat, n) in s.woken || (chat, n) in s.owed ==>
      n <= HeadOf(s.heads, chat) && ((chat, n) in s.owed || n <= HeadOf(s.announced, chat))
  }

  ghost predicate Covers(s: State) {
    forall c, chat :: CoverOk(s, c, chat)
  }

  ghost predicate Tokens(s: State) {
    forall c :: TokenOk(s, c)
  }

  ghost predicate Books(s: State) {
    (forall chat :: HeadOk(s, chat)) && (forall chat, n: nat :: WakeOk(s, chat, n))
  }

  ghost predicate Inv(s: State) {
    Covers(s) && Tokens(s) && Books(s)
  }

  lemma CommitKeeps(s: State, chat: Id, wakes: bool)
    requires Inv(s)
    ensures Inv(Commit(s, chat, wakes))
  {
    var t := Commit(s, chat, wakes);
    forall c, k ensures CoverOk(t, c, k) { assert CoverOk(s, c, k); }
    forall c ensures TokenOk(t, c) { assert TokenOk(s, c); }
    forall k ensures HeadOk(t, k) { assert HeadOk(s, k); }
    forall k, n: nat ensures WakeOk(t, k, n) { assert WakeOk(s, k, n); }
  }

  /** A step of one connection `c` that touches nothing shared. */
  lemma ConnKeeps(s: State, t: State, c: Id, conn: Conn)
    requires Inv(s) && t == WithConn(s, c, conn)
    requires TokenOk(t, c) && forall chat :: CoverOk(t, c, chat)
    ensures Inv(t)
  {
    forall d, k ensures CoverOk(t, d, k) { assert CoverOk(s, d, k); }
    forall d ensures TokenOk(t, d) { assert TokenOk(s, d); }
    forall k ensures HeadOk(t, k) { assert HeadOk(s, k); }
    forall k, n: nat ensures WakeOk(t, k, n) { assert WakeOk(s, k, n); }
  }

  lemma LocalKeeps(s: State, t: State, c: Id)
    requires Inv(s) && c in s.conns && c in t.conns && t == WithConn(s, c, t.conns[c])
    requires TokenOk(s, c) ==> TokenOk(t, c)
    requires forall chat :: HeadOk(s, chat) && CoverOk(s, c, chat) ==> CoverOk(t, c, chat)
    ensures Inv(t)
  {
    forall chat ensures CoverOk(t, c, chat) { assert HeadOk(s, chat) && CoverOk(s, c, chat); }
    assert TokenOk(s, c);
    ConnKeeps(s, t, c, t.conns[c]);
  }

  lemma ConnectKeeps(s: State, c: Id)
    requires Inv(s)
    ensures Inv(Connect(s, c))
  {
    if c !in s.conns {
      ConnKeeps(s, Connect(s, c), c, Conn({}, false, map[], map[], Idle));
    }
  }

  lemma RejoinKeeps(s: State, c: Id, chat: Id, floor: int)
    requires Inv(s)
    ensures Inv(Rejoin(s, c, chat, floor))
  {
    if c in s.conns {
      LocalKeeps(s, Rejoin(s, c, chat, floor), c);
    }
  }

  lemma SubscribeKeeps(s: State, c: Id, chat: Id, after: nat)
    requires Inv(s)
    ensures Inv(Subscribe(s, c, chat, after))
  {
    if c in s.conns {
      LocalKeeps(s, Subscribe(s, c, chat, after), c);
    }
  }

  lemma UnsubscribeKeeps(s: State, c: Id, chat: Id)
    requires Inv(s)
    ensures Inv(Unsubscribe(s, c, chat))
  {
    if c in s.conns {
      LocalKeeps(s, Unsubscribe(s, c, chat), c);
    }
  }

  lemma DropKeeps(s: State, c: Id)
    requires Inv(s)
    ensures Inv(Drop(s, c))
  {
    if c in s.conns {
      LocalKeeps(s, Drop(s, c), c);
    }
  }

  lemma ReceiveTokenKeeps(s: State, c: Id)
    requires Inv(s)
    ensures Inv(ReceiveToken(s, c))
  {
    if c in s.conns {
      LocalKeeps(s, ReceiveToken(s, c), c);
    }
  }

  lemma TakeKeeps(s: State, c: Id)
    requires Inv(s)
    ensures Inv(Take(s, c))
  {
    if c in s.conns {
      LocalKeeps(s, Take(s, c), c);
    }
  }

  lemma SweepCover(s: State, c: Id, chat: Id, k: Id)
    requires CoverOk(s, c, k)
    ensures CoverOk(Sweep(s, c, chat), c, k)
  {
  }

  lemma SweepKeeps(s: State, c: Id, chat: Id)
    requires Inv(s)
    ensures Inv(Sweep(s, c, chat))
  {
    if c in s.conns {
      forall k | CoverOk(s, c, k) ensures CoverOk(Sweep(s, c, chat), c, k) { SweepCover(s, c, chat, k); }
      LocalKeeps(s, Sweep(s, c, chat), c);
    }
  }

  lemma ReadHeadKeeps(s: State, c: Id)
    requires Inv(s)
    ensures Inv(ReadHead(s, c))
  {
    if c in s.conns {
      LocalKeeps(s, ReadHead(s, c), c);
    }
  }

  lemma DeliverCover(s: State, c: Id, size: nat, fails: bool, k: Id)
    requires CoverOk(s, c, k) && HeadOk(s, k)
    ensures CoverOk(Deliver(s, c, size, fails), c, k)
  {
  }

  lemma DeliverKeeps(s: State, c: Id, size: nat, fails: bool)
    requires Inv(s)
    ensures Inv(Deliver(s, c, size, fails))
  {
    if c in s.conns {
      forall k | HeadOk(s, k) && CoverOk(s, c, k) ensures CoverOk(Deliver(s, c, size, fails), c, k) {
        DeliverCover(s, c, size, fails, k);
      }
      LocalKeeps(s, Deliver(s, c, size, fails), c);
    }
  }

  lemma SelfMarkKeeps(s: State, c: Id)
    requires Inv(s)
    ensures Inv(SelfMark(s, c))
  {
    if c in s.conns {
      LocalKeeps(s, SelfMark(s, c), c);
    }
  }

  lemma SelfSendKeeps(s: State, c: Id)
    requires Inv(s)
    ensures Inv(SelfSend(s, c))
  {
    if c in s.conns {
      LocalKeeps(s, SelfSend(s, c), c);
    }
  }

  lemma HangupKeeps(s: State, c: Id)
    requires Inv(s)
    ensures Inv(Hangup(s, c))
  {
    if c in s.conns {
      LocalKeeps(s, Hangup(s, c), c);
    }
  }

  lemma LeaveKeeps(s: State, c: Id, chat: Id)
    requires Inv(s)
    ensures Inv(Leave(s, c, chat))
  {
    if c in s.conns {
      LocalKeeps(s, Leave(s, c, chat), c);
    }
  }

  lemma WakeStartKeeps(s: State, chat: Id, n: nat)
    requires Inv(s)
    ensures Inv(WakeStart(s, chat, n))
  {
    var t := WakeStart(s, chat, n);
    forall c, k ensures CoverOk(t, c, k) { assert CoverOk(s, c, k); }
    forall c ensures TokenOk(t, c) { assert TokenOk(s, c); }
    forall k ensures HeadOk(t, k) { assert HeadOk(s, k) && WakeOk(s, k, n); }
    forall k, m: nat ensures WakeOk(t, k, m) { assert WakeOk(s, k, m); }
  }

  lemma MarkKeeps(s: State, c: Id)
    requires Inv(s)
    ensures Inv(Mark(s, c))
  {
    var t := Mark(s, c);
    forall d, k ensures CoverOk(t, d, k) { assert CoverOk(s, d, k); }
    forall d ensures TokenOk(t, d) { assert TokenOk(s, d); }
    forall k ensures HeadOk(t, k) { assert HeadOk(s, k); }
    forall k, n: nat ensures WakeOk(t, k, n) { assert WakeOk(s, k, n); }
  }

  lemma SendTokenKeeps(s: State)
    requires Inv(s)
    ensures Inv(SendToken(s))
  {
    SendTokenCovers(s);
    var t := SendToken(s);
    forall d ensures TokenOk(t, d) { assert TokenOk(s, d); }
    forall k ensures HeadOk(t, k) { assert HeadOk(s, k); }
    forall k, n: nat ensures WakeOk(t, k, n) { assert WakeOk(s, k, n); }
  }

  lemma SendTokenCovers(s: State)
    requires Covers(s)
    ensures Covers(SendToken(s))
  {
    forall d, k ensures CoverOk(SendToken(s), d, k) {
      assert CoverOk(s, d, k);
      SendTokenCover(s, d, k);
    }
  }

  lemma SendTokenCover(s: State, c: Id, chat: Id)
    requires CoverOk(s, c, chat)
    ensures CoverOk(SendToken(s), c, chat)
  {
    if c in s.conns {
      assert SendToken(s).conns[c] == s.conns[c].(token := SendToken(s).conns[c].token);
    }
  }

  lemma FinishKeeps(s: State)
    requires Inv(s)
    ensures Inv(Finish(s))
  {
    FinishCovers(s);
    FinishBooks(s);
    forall d ensures TokenOk(Finish(s), d) { assert TokenOk(s, d); }
  }

  lemma FinishBooks(s: State)
    requires Books(s)
    ensures Books(Finish(s))
  {
    forall k ensures HeadOk(Finish(s), k) {
      assert HeadOk(s, k);
      FinishHead(s, k);
    }
    forall k, n: nat ensures WakeOk(Finish(s), k, n) {
      assert WakeOk(s, k, n) && HeadOk(s, k);
      FinishWake(s, k, n);
    }
  }

  lemma FinishHead(s: State, chat: Id)
    requires HeadOk(s, chat)
    ensures HeadOk(Finish(s), chat)
  {
  }

  lemma FinishWake(s: State, chat: Id, n: nat)
    requires WakeOk(s, chat, n) && HeadOk(s, chat)
    ensures WakeOk(Finish(s), chat, n)
  {
  }

  lemma FinishCovers(s: State)
    requires Covers(s)
    ensures Covers(Finish(s))
  {
    forall d, k ensures CoverOk(Finish(s), d, k) {
      assert CoverOk(s, d, k);
      FinishCover(s, d, k);
    }
  }

  lemma FinishCover(s: State, c: Id, chat: Id)
    requires CoverOk(s, c, chat)
    ensures CoverOk(Finish(s), c, chat)
  {
  }

  lemma PollKeeps(s: State, batch: set<Id>, fails: bool)
    requires Inv(s)
    ensures Inv(PollList(s)) && Inv(PollRead(s, batch, fails)) && Inv(PollNext(s))
  {
    BooksOnly(s, PollList(s));
    BooksOnly(s, PollRead(s, batch, fails));
    BooksOnly(s, PollNext(s));
  }

  lemma BooksOnly(s: State, t: State)
    requires Inv(s)
    requires t == s.(poll := t.poll, replay := t.replay)
    requires forall chat :: HeadOk(s, chat) ==> HeadOk(t, chat)
    ensures Inv(t)
  {
    forall d, k ensures CoverOk(t, d, k) { assert CoverOk(s, d, k); }
    forall d ensures TokenOk(t, d) { assert TokenOk(s, d); }
    forall k ensures HeadOk(t, k) { assert HeadOk(s, k); }
    forall k, n: nat ensures WakeOk(t, k, n) { assert WakeOk(s, k, n); }
  }

  lemma PollChatCover(s: State, chat: Id, c: Id, k: Id)
    requires CoverOk(s, c, k)
    ensures CoverOk(PollChat(s, chat), c, k)
  {
  }

  lemma PollChatKeeps(s: State, chat: Id)
    requires Inv(s)
    ensures Inv(PollChat(s, chat))
  {
    var t := PollChat(s, chat);
    forall d, k ensures CoverOk(t, d, k) {
      assert CoverOk(s, d, k);
      PollChatCover(s, chat, d, k);
    }
    forall d ensures TokenOk(t, d) { assert TokenOk(s, d); }
    forall k ensures HeadOk(t, k) { assert HeadOk(s, k); }
    forall k, n: nat ensures WakeOk(t, k, n) { assert WakeOk(s, k, n); }
  }

  lemma SharedKeeps(s: State, step: Shared)
    requires Inv(s)
    ensures Inv(NextShared(s, step))
  {
    match step
    case DoCommit(chat, wakes) => CommitKeeps(s, chat, wakes);
    case DoWakeStart(chat, n) => WakeStartKeeps(s, chat, n);
    case DoMark(c) => MarkKeeps(s, c);
    case DoSendToken => SendTokenKeeps(s);
    case DoFinish => FinishKeeps(s);
    case DoPollList => PollKeeps(s, {}, false);
    case DoPollRead(batch, fails) => PollKeeps(s, batch, fails);
    case DoPollChat(chat) => PollChatKeeps(s, chat);
    case DoPollNext => PollKeeps(s, {}, false);
  }

  lemma OneKeeps(s: State, c: Id, step: Local)
    requires Inv(s)
    ensures Inv(NextLocal(s, c, step))
  {
    match step
    case DoConnect => ConnectKeeps(s, c);
    case DoRejoin(chat, floor) => RejoinKeeps(s, c, chat, floor);
    case DoSubscribe(chat, after) => SubscribeKeeps(s, c, chat, after);
    case DoUnsubscribe(chat) => UnsubscribeKeeps(s, c, chat);
    case DoDrop => DropKeeps(s, c);
    case DoReceiveToken => ReceiveTokenKeeps(s, c);
    case DoTake => TakeKeeps(s, c);
    case DoSweep(chat) => SweepKeeps(s, c, chat);
    case DoReadHead => ReadHeadKeeps(s, c);
    case DoDeliver(size, fails) => DeliverKeeps(s, c, size, fails);
    case DoSelfMark => SelfMarkKeeps(s, c);
    case DoSelfSend => SelfSendKeeps(s, c);
    case DoHangup => HangupKeeps(s, c);
    case DoLeave(chat) => LeaveKeeps(s, c, chat);
  }

  lemma StepKeeps(s: State, step: Step)
    requires Inv(s)
    ensures Inv(Next(s, step))
  {
    match step
    case Everyone(shared) => SharedKeeps(s, shared);
    case One(c, local) => OneKeeps(s, c, local);
  }

  lemma {:induction false} RunKeeps(steps: seq<Step>)
    ensures Inv(Run(Init(), steps))
    decreases |steps|
  {
    if steps != [] {
      RunKeeps(steps[..|steps| - 1]);
      StepKeeps(Run(Init(), steps[..|steps| - 1]), steps[|steps| - 1]);
    }
  }

  /** No lost wake-up, over every interleaving. A live subscription behind a
      committed event is due to look again, or is next in a notification round, or
      no round has covered the event yet: then the poll has still to see that
      head, and a Wake for it, if its commit owes one, is still owed. */
  lemma NoLostWakeUp(steps: seq<Step>, c: Id, chat: Id, n: nat)
    requires var s := Run(Init(), steps);
             && c in s.conns && !s.conns[c].phase.Gone? && chat in s.conns[c].cursors
             && Reached(s.conns[c], chat) < n <= HeadOf(s.heads, chat)
    ensures var s := Run(Init(), steps);
            || chat in s.conns[c].pending || Held(s.conns[c].phase, chat, n) || InRound(s, c, chat)
            || (&& (chat in s.replay ==> s.replay[chat] < n)
                && ((chat, n) in s.woken ==> (chat, n) in s.owed))
  {
    var s := Run(Init(), steps);
    RunKeeps(steps);
    assert CoverOk(s, c, chat) && HeadOk(s, chat) && WakeOk(s, chat, n);
  }

  /** A pending set is never stranded. */
  lemma PendingHasToken(steps: seq<Step>, c: Id)
    requires var s := Run(Init(), steps);
             c in s.conns && !s.conns[c].phase.Gone? && s.conns[c].pending != {}
    ensures var s := Run(Init(), steps);
            s.conns[c].token || s.conns[c].phase.Taking? || s.conns[c].phase.Nudging?
            || (s.lock.Notifying? && s.lock.sending == Some(c))
  {
    RunKeeps(steps);
    assert TokenOk(Run(Init(), steps), c);
  }

  /** Once the mutex is free and a connection is idle without a token, it has
      passed every event whose Wake completed and every head the poll recorded:
      each of the two mechanisms suffices alone. */
  lemma QuiescentIsCaughtUp(steps: seq<Step>, c: Id, chat: Id, n: nat)
    requires var s := Run(Init(), steps);
             && s.lock.Free? && c in s.conns && s.conns[c].phase.Idle? && !s.conns[c].token
             && chat in s.conns[c].cursors
             && (((chat, n) in s.woken && (chat, n) !in s.owed) || (chat in s.replay && n <= s.replay[chat]))
    ensures n <= Reached(Run(Init(), steps).conns[c], chat)
  {
    var s := Run(Init(), steps);
    RunKeeps(steps);
    assert CoverOk(s, c, chat) && TokenOk(s, c) && HeadOk(s, chat) && WakeOk(s, chat, n);
  }

  /** The page law is what the journal's paging gives. */
  lemma PagesMeetTheLaw(rows: seq<Row>, heads: map<Id, nat>, rows2: seq<Row>, heads2: map<Id, nat>,
                        joined: int, chat: Id, after: int)
    requires WellFormed(rows, heads) && WellFormed(rows2, heads2) && Appended(rows, heads, rows2, heads2)
    requires chat in heads && after >= 0
    requires PageRows(heads[chat], joined, MinNum(rows, chat), rows2, chat, after, FLUSH_LIMIT).Ok?
    ensures PageLaw(Start(after, joined), heads[chat], heads2[chat],
                    |PageRows(heads[chat], joined, MinNum(rows, chat), rows2, chat, after, FLUSH_LIMIT).value|)
  {
    PageIsGapFree(rows, heads, rows2, heads2, joined, chat, after, FLUSH_LIMIT);
  }

  /** A notification round over all subscribers of a chat has just begun. */
  ghost predicate RoundBegun(s: State, chat: Id, upto: nat) {
    s.lock.Notifying? && s.lock.chat == chat && s.lock.upto == upto && s.lock.sending == None
    && forall c :: c in s.lock.todo <==> c in s.conns && chat in s.conns[c].cursors
  }

  /** A Wake for a committed event begins one up to the head. */
  lemma WakeBegins(s: State, chat: Id, n: nat)
    requires s.lock.Free? && (chat, n) in s.owed
    ensures var t := WakeStart(s, chat, n);
            && RoundBegun(t, chat, if chat in s.heads then s.heads[chat] else 0)
            && t.conns == s.conns && t.heads == s.heads
  {
  }

  /** So does a poll, for every subscribed chat whose head it has not recorded. */
  lemma PollBegins(s: State, c: Id, chat: Id)
    requires s.lock.Free? && s.poll.Off? && c in s.conns && chat in s.conns[c].cursors && chat in s.heads
    requires chat in s.replay ==> s.replay[chat] != s.heads[chat]
    ensures var t := PollChat(PollRead(PollList(s), {chat}, false), chat);
            RoundBegun(t, chat, s.heads[chat]) && t.conns == s.conns && t.heads == s.heads
  {
    assert chat in AllCursors(s) && c in Subscribers(s, chat);
  }

  /** A connection is notified, woken, and takes its pending chats. */
  function Woken(s: State, c: Id): State {
    Take(ReceiveToken(SendToken(Mark(s, c)), c), c)
  }

  /** It reads one of them, and writes a short page. */
  ghost function Swept(s: State, c: Id, chat: Id, size: nat): State {
    Deliver(ReadHead(Sweep(s, c, chat), c), c, size, false)
  }

  lemma Notified(s: State, c: Id, chat: Id, upto: nat)
    requires RoundBegun(s, chat, upto) && c in s.conns && chat in s.conns[c].cursors
    ensures var t := SendToken(Mark(s, c));
            && c in t.conns && t.conns[c] == s.conns[c].(pending := s.conns[c].pending + {chat}, token := true)
            && t.heads == s.heads
  {
  }

  lemma WokenTakes(s: State, c: Id, chat: Id, upto: nat)
    requires RoundBegun(s, chat, upto) && c in s.conns && s.conns[c].phase == Idle && chat in s.conns[c].cursors
    ensures var t := Woken(s, c);
            && c in t.conns && t.heads == s.heads
            && t.conns[c] == s.conns[c].(pending := {}, token := false, phase := Sweeping(s.conns[c].pending + {chat}))
  {
    Notified(s, c, chat, upto);
  }

  lemma SweptDelivers(s: State, c: Id, chat: Id, size: nat)
    requires c in s.conns && s.conns[c].phase.Sweeping? && chat in s.conns[c].phase.todo && chat in s.conns[c].cursors
    requires size < FLUSH_LIMIT && Reached(s.conns[c], chat) + size == HeadOf(s.heads, chat)
    ensures var t := Swept(s, c, chat, size);
            && c in t.conns && chat in t.conns[c].cursors && t.heads == s.heads
            && (size > 0 ==> t.conns[c].cursors[chat] == HeadOf(s.heads, chat))
            && Reached(t.conns[c], chat) >= HeadOf(s.heads, chat)
  {
    var conn := s.conns[c];
    var read := ReadHead(Sweep(s, c, chat), c);
    assert read.conns[c] == conn.(phase := Reading(chat, 0, conn.phase.todo - {chat}, HeadOf(s.heads, chat), Reached(conn, chat)));
    assert PageLaw(Reached(conn, chat), HeadOf(s.heads, chat), HeadOf(s.heads, chat), size);
  }

  /** A round wakes an idle subscriber that is not past the head, and its turn brings
      it there. */
  lemma RoundDelivers(s: State, c: Id, chat: Id, upto: nat, size: nat)
    requires RoundBegun(s, chat, upto) && c in s.conns && s.conns[c].phase == Idle && chat in s.conns[c].cursors
    requires size < FLUSH_LIMIT && Reached(s.conns[c], chat) + size == HeadOf(s.heads, chat)
    ensures var t := Swept(Woken(s, c), c, chat, size);
            && c in t.conns && chat in t.conns[c].cursors && t.heads == s.heads
            && (size > 0 ==> t.conns[c].cursors[chat] == HeadOf(s.heads, chat))
            && Reached(t.conns[c], chat) >= HeadOf(s.heads, chat)
  {
    WokenTakes(s, c, chat, upto);
    SweptDelivers(Woken(s, c), c, chat, size);
  }
}
