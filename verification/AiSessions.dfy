/** Named AI tasks: workers, approvals, cancellations, deletes and restarts around
    one serial session for each chat and agent, and the context it carries. */
module AiSessions {
  import opened Basics
  import C = Conversation

  type Turn = C.Turn

  const TURN_LIMIT: int := 20

  const BYTE_LIMIT: int := 262144

  const SESSION_QUEUE: nat := 64

  /** The configured bounds and the size of an encoded context. */
  datatype Limits = Limits(turns: int, bytes: int, size: seq<Turn> -> nat)
  {
    function MaxTurns(): (n: int)
      ensures 1 <= n <= TURN_LIMIT
    {
      if turns <= 0 || turns > TURN_LIMIT then TURN_LIMIT else turns
    }

    function MaxBytes(): (n: int)
      ensures 1 <= n <= BYTE_LIMIT
    {
      if bytes <= 0 || bytes > BYTE_LIMIT then BYTE_LIMIT else bytes
    }
  }

  function ToUser(turns: seq<Turn>): (r: seq<Turn>)
    ensures |r| <= |turns| && (turns != [] ==> r != [])
  {
    if |turns| > 1 && !turns[0].role.User? then ToUser(turns[1..]) else turns
  }

  function Trim(limits: Limits, turns: seq<Turn>): seq<Turn>
    decreases |turns|
  {
    if |turns| > 1 && limits.size(turns) > limits.MaxBytes() then Trim(limits, ToUser(turns[1..])) else turns
  }

  /** The part of a context that is kept. */
  function Bound(limits: Limits, turns: seq<Turn>): seq<Turn> {
    Trim(limits, if |turns| > limits.MaxTurns() then ToUser(turns[|turns| - limits.MaxTurns()..]) else turns)
  }

  ghost predicate SuffixOf(r: seq<Turn>, turns: seq<Turn>) {
    |r| <= |turns| && r == turns[|turns| - |r|..]
  }

  lemma {:induction false} ToUserSuffix(turns: seq<Turn>)
    ensures SuffixOf(ToUser(turns), turns)
    ensures |ToUser(turns)| > 1 ==> ToUser(turns)[0].role.User?
    decreases |turns|
  {
    if |turns| > 1 && !turns[0].role.User? {
      ToUserSuffix(turns[1..]);
    }
  }

  lemma SuffixTransitive(a: seq<Turn>, b: seq<Turn>, c: seq<Turn>)
    requires SuffixOf(a, b) && SuffixOf(b, c)
    ensures SuffixOf(a, c)
  {
  }

  lemma {:induction false} TrimSuffix(limits: Limits, turns: seq<Turn>)
    ensures var r := Trim(limits, turns);
            && SuffixOf(r, turns) && (turns != [] ==> r != [])
            && (limits.size(r) <= limits.MaxBytes() || |r| <= 1)
            && (r == turns || |r| == 1 || r[0].role.User?)
    decreases |turns|
  {
    if |turns| > 1 && limits.size(turns) > limits.MaxBytes() {
      var rest := turns[1..];
      ToUserSuffix(rest);
      TrimSuffix(limits, ToUser(rest));
      assert SuffixOf(rest, turns);
      SuffixTransitive(ToUser(rest), rest, turns);
      SuffixTransitive(Trim(limits, ToUser(rest)), ToUser(rest), turns);
    }
  }

  /** Bounding keeps a suffix within both limits, never empties a context, starts a
      shortened one at a user turn, and leaves a context that fits as it is. */
  lemma BoundKeepsASuffix(limits: Limits, turns: seq<Turn>)
    ensures var r := Bound(limits, turns);
            && SuffixOf(r, turns) && (turns != [] ==> r != [])
            && |r| <= limits.MaxTurns()
            && (limits.size(r) <= limits.MaxBytes() || |r| <= 1)
            && (r == turns || |r| == 1 || r[0].role.User?)
            && (|turns| <= limits.MaxTurns() && limits.size(turns) <= limits.MaxBytes() ==> r == turns)
  {
    if |turns| > limits.MaxTurns() {
      var cut := turns[|turns| - limits.MaxTurns()..];
      ToUserSuffix(cut);
      TrimSuffix(limits, ToUser(cut));
      assert SuffixOf(cut, turns);
      SuffixTransitive(ToUser(cut), cut, turns);
      SuffixTransitive(Trim(limits, ToUser(cut)), ToUser(cut), turns);
    } else {
      TrimSuffix(limits, turns);
    }
  }

  lemma {:induction false} ToUserLongest(turns: seq<Turn>, n: nat)
    requires |ToUser(turns)| < n <= |turns|
    ensures n > 1 && !turns[|turns| - n].role.User?
    decreases |turns|
  {
    if n < |turns| {
      ToUserLongest(turns[1..], n);
    }
  }

  lemma {:induction false} TrimLongest(limits: Limits, turns: seq<Turn>, n: nat)
    requires |Trim(limits, turns)| < n <= |turns|
    ensures n > 1
    ensures n == |turns| || turns[|turns| - n].role.User? ==> limits.size(turns[|turns| - n..]) > limits.MaxBytes()
    decreases |turns|
  {
    if n == |turns| {
      assert turns[0..] == turns;
    } else {
      var rest := turns[1..];
      var next := ToUser(rest);
      ToUserSuffix(rest);
      if n > |next| {
        ToUserLongest(rest, n);
      } else {
        TrimLongest(limits, next, n);
        assert turns[|turns| - n..] == next[|next| - n..];
      }
    }
  }

  /** A context that may be kept: within the number of turns, and either a single turn
      or within the bytes and starting where a user speaks, or whole. */
  ghost predicate Keepable(limits: Limits, turns: seq<Turn>, n: nat)
    requires n <= |turns|
  {
    && n <= limits.MaxTurns()
    && (n <= 1 || ((n == |turns| || turns[|turns| - n].role.User?) && limits.size(turns[|turns| - n..]) <= limits.MaxBytes()))
  }

  lemma BoundIsKeepable(limits: Limits, turns: seq<Turn>)
    ensures |Bound(limits, turns)| <= |turns| && Keepable(limits, turns, |Bound(limits, turns)|)
  {
    BoundKeepsASuffix(limits, turns);
    var r := Bound(limits, turns);
    assert r == turns[|turns| - |r|..];
    assert |r| > 1 && |r| < |turns| ==> r[0] == turns[|turns| - |r|];
  }

  lemma DroppedIsNotKeepable(limits: Limits, turns: seq<Turn>, n: nat)
    requires |Bound(limits, turns)| < n <= |turns|
    ensures !Keepable(limits, turns, n)
  {
    var max := limits.MaxTurns();
    if n <= max {
      if |turns| > max {
        var cut := turns[|turns| - max..];
        ToUserSuffix(cut);
        var start := ToUser(cut);
        if n > |start| {
          ToUserLongest(cut, n);
        } else {
          TrimLongest(limits, start, n);
          assert turns[|turns| - n..] == start[|start| - n..];
          ShortenedStart(turns, cut, start, n);
        }
      } else {
        TrimLongest(limits, turns, n);
      }
    }
  }

  lemma ShortenedStart(turns: seq<Turn>, cut: seq<Turn>, start: seq<Turn>, n: nat)
    requires SuffixOf(cut, turns) && start == ToUser(cut) && 0 < n <= |start|
    ensures turns[|turns| - n] == start[|start| - n]
  {
    ToUserSuffix(cut);
  }

  /** Bounding drops no more than it must: it keeps the longest suffix that may be kept. */
  lemma BoundIsLongest(limits: Limits, turns: seq<Turn>)
    ensures |Bound(limits, turns)| <= |turns| && Keepable(limits, turns, |Bound(limits, turns)|)
    ensures forall n: nat :: |Bound(limits, turns)| < n <= |turns| ==> !Keepable(limits, turns, n)
  {
    BoundIsKeepable(limits, turns);
    forall n: nat | |Bound(limits, turns)| < n <= |turns| ensures !Keepable(limits, turns, n) {
      DroppedIsNotKeepable(limits, turns, n);
    }
  }

  /** The loops that bound a context. */
  method BoundContext(limits: Limits, input: seq<Turn>) returns (turns: seq<Turn>)
    ensures turns == Bound(limits, input)
  {
    turns := input;
    if |turns| > limits.MaxTurns() {
      turns := turns[|turns| - limits.MaxTurns()..];
      ghost var cut := turns;
      while |turns| > 1 && !turns[0].role.User?
        invariant ToUser(turns) == ToUser(cut)
      {
        turns := turns[1..];
      }
    }
    ghost var start := turns;
    while |turns| > 1
      invariant Trim(limits, turns) == Trim(limits, start)
    {
      if limits.size(turns) <= limits.MaxBytes() {
        break;
      }
      turns := turns[1..];
      ghost var rest := turns;
      while |turns| > 1 && !turns[0].role.User?
        invariant |turns| <= |rest| && ToUser(turns) == ToUser(rest)
      {
        turns := turns[1..];
      }
    }
  }

  datatype Status = Queued | Running | Awaiting | Succeeded | Failed | Uncertain | Cancelled

  /** A session's key: its chat and its agent. */
  datatype Key = Key(chat: Id, agent: Id)

  datatype Task = Task(key: Key, source: Id, status: Status, result: Option<Id>)

  datatype Session = Session(context: seq<Turn>, version: nat)

  datatype Phase = Claimed | Loaded(version: nat, user: Turn, turns: seq<Turn>)

  /** History: one entry for each committed result, in completion order. */
  datatype Entry = Entry(task: Id, key: Key, version: nat, user: Turn, answer: Turn)

  /** `posted` maps an AI message to the task whose operation id it carries. */
  datatype State = State(
    tasks: map<Id, Task>, sessions: map<Key, Session>, posted: map<Id, Id>, workers: map<Id, Phase>, log: seq<Entry>)

  predicate Active(status: Status) {
    status.Queued? || status.Running? || status.Awaiting?
  }

  predicate Held(status: Status) {
    status.Running? || status.Awaiting?
  }

  function WithStatus(s: State, task: Id, status: Status): State
    requires task in s.tasks
  {
    s.(tasks := s.tasks[task := s.tasks[task].(status := status)])
  }

  predicate Busy(s: State, key: Key) {
    exists t :: t in s.tasks && s.tasks[t].key == key && Held(s.tasks[t].status)
  }

  function ActiveOf(s: State, key: Key): set<Id> {
    set t | t in s.tasks && s.tasks[t].key == key && Active(s.tasks[t].status)
  }

  function Attach(s: State, key: Key): State {
    if key in s.sessions then s else s.(sessions := s.sessions[key := Session([], 1)])
  }

  /** A source message queues each agent once; queues are bounded. */
  function Queue(s: State, task: Id, key: Key, source: Id, room: bool): State {
    if task in s.tasks || key !in s.sessions then s
    else if exists t :: t in s.tasks && s.tasks[t].source == source && s.tasks[t].key.agent == key.agent then s
    else if |ActiveOf(s, key)| >= SESSION_QUEUE || !room then s
    else s.(tasks := s.tasks[task := Task(key, source, Queued, None)])
  }

  /** A worker reserves a queued task of a session with none running or awaiting. */
  function Claim(s: State, task: Id, eligible: bool): State {
    if task !in s.tasks || !s.tasks[task].status.Queued? || !eligible then s
    else if s.tasks[task].key !in s.sessions || Busy(s, s.tasks[task].key) then s
    else WithStatus(s, task, Running).(workers := s.workers[task := Claimed])
  }

  /** A conditional end of a task: what is terminal already stays. */
  function SetStatus(s: State, task: Id, status: Status): State {
    if task in s.tasks && Active(s.tasks[task].status) then WithStatus(s, task, status) else s
  }

  /** The task's worker gives up with a final status. */
  function GiveUp(s: State, task: Id, status: Status): State {
    if task in s.workers && (status.Failed? || status.Uncertain?) then SetStatus(s.(workers := s.workers - {task}), task, status) else s
  }

  /** The worker loads the session and its source turn. */
  function Load(limits: Limits, s: State, task: Id, authorized: bool, user: Turn): State {
    if !(task in s.workers && s.workers[task].Claimed? && task in s.tasks) then s
    else if !authorized || !s.tasks[task].status.Running? || s.tasks[task].key !in s.sessions then GiveUp(s, task, Failed)
    else
      var session := s.sessions[s.tasks[task].key];
      s.(workers := s.workers[task := Loaded(session.version, user, Bound(limits, session.context + [user]))])
  }

  /** An effect needs approval: the task waits and its worker is gone. */
  function Pause(s: State, task: Id, authorized: bool): State {
    if !(task in s.workers && task in s.tasks) then s
    else if !s.tasks[task].status.Running? || !authorized then GiveUp(s, task, Uncertain)
    else WithStatus(s, task, Awaiting).(workers := s.workers - {task})
  }

  /** The final transaction: task, message and context advance together. */
  function Complete(limits: Limits, s: State, task: Id, authorized: bool, message: Id, answer: Turn): State {
    if !(task in s.workers && s.workers[task].Loaded? && task in s.tasks) then s
    else
      var w := s.workers[task];
      var key := s.tasks[task].key;
      var context := Bound(limits, w.turns + [answer]);
      if limits.size(context) > limits.MaxBytes() then GiveUp(s, task, Uncertain)
      else if !s.tasks[task].status.Running? then GiveUp(s, task, Uncertain)
      else if !authorized || key !in s.sessions || s.sessions[key].version != w.version then GiveUp(s, task, Uncertain)
      else if message in s.posted || (exists m :: m in s.posted && s.posted[m] == task) then GiveUp(s, task, Uncertain)
      else
        s.(tasks := s.tasks[task := s.tasks[task].(status := Succeeded, result := Some(message))],
           sessions := s.sessions[key := s.sessions[key].(context := context)],
           posted := s.posted[message := task],
           workers := s.workers - {task},
           log := s.log + [Entry(task, key, w.version, w.user, answer)])
  }

  function Move(s: State, task: Id, from: set<Status>, to: Status): State {
    if task in s.tasks && s.tasks[task].status in from then WithStatus(s, task, to) else s
  }

  /** Deleting a message empties every session of the chat under a new version and
      cancels its active tasks. */
  function Delete(s: State, chat: Id): State {
    s.(sessions := map k | k in s.sessions :: if k.chat == chat then Session([], s.sessions[k].version + 1) else s.sessions[k],
       tasks := map t | t in s.tasks ::
         if s.tasks[t].key.chat == chat && Active(s.tasks[t].status) then s.tasks[t].(status := Cancelled) else s.tasks[t])
  }

  /** A restart loses every worker; what was running has an unknown outcome. */
  function Restart(s: State): State {
    s.(workers := map[],
       tasks := map t | t in s.tasks :: if s.tasks[t].status.Running? then s.tasks[t].(status := Uncertain) else s.tasks[t])
  }

  datatype Step =
    | DoAttach(key: Key)
    | DoQueue(task: Id, key: Key, source: Id, room: bool)
    | DoClaim(task: Id, eligible: bool)
    | DoLoad(task: Id, authorized: bool, user: Turn)
    | DoPause(task: Id, authorized: bool)
    | DoGiveUp(task: Id, status: Status)
    | DoVanish(task: Id)
    | DoComplete(task: Id, authorized: bool, message: Id, answer: Turn)
    | DoCancel(task: Id)
    | DoApprove(task: Id)
    | DoExpire(task: Id)
    | DoDelete(chat: Id)
    | DoRestart

  function Next(limits: Limits, s: State, step: Step): State {
    match step
    case DoAttach(key) => Attach(s, key)
    case DoQueue(task, key, source, room) => Queue(s, task, key, source, room)
    case DoClaim(task, eligible) => Claim(s, task, eligible)
    case DoLoad(task, authorized, user) => Load(limits, s, task, authorized, user)
    case DoPause(task, authorized) => Pause(s, task, authorized)
    case DoGiveUp(task, status) => GiveUp(s, task, status)
    case DoVanish(task) => s.(workers := s.workers - {task})
    case DoComplete(task, authorized, message, answer) => Complete(limits, s, task, authorized, message, answer)
    case DoCancel(task) => SetStatus(s, task, Cancelled)
    case DoApprove(task) => Move(s, task, {Awaiting}, Queued)
    case DoExpire(task) => Move(s, task, {Queued, Awaiting}, Failed)
    case DoDelete(chat) => Delete(s, chat)
    case DoRestart => Restart(s)
  }

  function Run(limits: Limits, s: State, steps: seq<Step>): State {
    if steps == [] then s else Next(limits, Run(limits, s, steps[..|steps| - 1]), steps[|steps| - 1])
  }

  function Init(): State {
    State(map[], map[], map[], map[], [])
  }

  /** The completions of one session under one version, folded in their order. */
  function Fold(limits: Limits, log: seq<Entry>, key: Key, version: nat): seq<Turn> {
    if log == [] then []
    else
      var n := |log| - 1;
      var before := Fold(limits, log[..n], key, version);
      if log[n].key == key && log[n].version == version then Bound(limits, Bound(limits, before + [log[n].user]) + [log[n].answer])
      else before
  }

  /** At most one task of a session is running or awaiting approval. */
  ghost predicate Serial(s: State) {
    forall t, u :: t in s.tasks && u in s.tasks && t != u && s.tasks[t].key == s.tasks[u].key ==>
      !(Held(s.tasks[t].status) && Held(s.tasks[u].status))
  }

  predicate TaskOk(s: State, t: Id) {
    t in s.tasks ==>
      && (s.tasks[t].status.Succeeded? <==> s.tasks[t].result.Some?)
      && (s.tasks[t].result.Some? ==> s.tasks[t].result.value in s.posted && s.posted[s.tasks[t].result.value] == t)
      && (Active(s.tasks[t].status) ==> s.tasks[t].key in s.sessions)
  }

  predicate PostOk(s: State, m: Id) {
    m in s.posted ==> s.posted[m] in s.tasks && s.tasks[s.posted[m]].result == Some(m)
  }

  /** A worker's task is running or already over, and while it runs nothing has
      happened to the session since the worker loaded it. */
  predicate WorkerOk(limits: Limits, s: State, t: Id) {
    t in s.workers ==>
      && t in s.tasks && !s.tasks[t].status.Queued? && !s.tasks[t].status.Awaiting?
      && (s.tasks[t].status.Running? && s.workers[t].Loaded? ==>
            var w := s.workers[t];
            && s.tasks[t].key in s.sessions
            && s.sessions[s.tasks[t].key].version == w.version
            && w.turns == Bound(limits, s.sessions[s.tasks[t].key].context + [w.user]))
  }

  /** The context is the fold of the completions since the last delete. */
  predicate SessionOk(limits: Limits, s: State, k: Key) {
    k in s.sessions ==> s.sessions[k].context == Fold(limits, s.log, k, s.sessions[k].version)
  }

  predicate LogEntryOk(s: State, e: Entry) {
    && e.task in s.tasks && s.tasks[e.task].status.Succeeded? && s.tasks[e.task].key == e.key
    && e.key in s.sessions && e.version <= s.sessions[e.key].version
  }

  ghost predicate Results(s: State) {
    (forall t :: TaskOk(s, t)) && (forall m :: PostOk(s, m))
  }

  ghost predicate Contexts(limits: Limits, s: State) {
    (forall k :: SessionOk(limits, s, k)) && (forall t :: WorkerOk(limits, s, t))
  }

  ghost predicate LogOk(s: State) {
    && (forall i :: 0 <= i < |s.log| ==> LogEntryOk(s, s.log[i]))
    && (forall i, j :: 0 <= i < j < |s.log| ==> s.log[i].task != s.log[j].task)
  }

  ghost predicate Inv(limits: Limits, s: State) {
    Serial(s) && Results(s) && Contexts(limits, s) && LogOk(s)
  }

  predicate Calmer(a: Task, b: Task) {
    && b.key == a.key && b.source == a.source && b.result == a.result
    && (b.status == a.status || (Active(a.status) && !b.status.Succeeded?))
    && (Held(b.status) ==> Held(a.status)) && (b.status.Running? ==> a.status.Running?)
  }

  /** A step that only moves statuses towards an end and may drop workers. */
  ghost predicate Settles(s: State, t: State) {
    && t == s.(tasks := t.tasks, workers := t.workers) && t.tasks.Keys == s.tasks.Keys
    && (forall k :: k in s.tasks ==> Calmer(s.tasks[k], t.tasks[k]))
    && (forall w :: w in t.workers ==>
          w in s.workers && t.workers[w] == s.workers[w]
          && (w in t.tasks ==> !t.tasks[w].status.Queued? && !t.tasks[w].status.Awaiting?))
  }

  lemma SettlesKeeps(limits: Limits, s: State, t: State)
    requires Inv(limits, s) && Settles(s, t)
    ensures Inv(limits, t)
  {
    forall k ensures TaskOk(t, k) {
      assert TaskOk(s, k);
      assert k in s.tasks ==> Calmer(s.tasks[k], t.tasks[k]);
    }
    forall m ensures PostOk(t, m) {
      assert PostOk(s, m);
      if m in s.posted {
        var k := s.posted[m];
        assert k in s.tasks && Calmer(s.tasks[k], t.tasks[k]);
      }
    }
    forall k ensures SessionOk(limits, t, k) { assert SessionOk(limits, s, k); }
    forall w ensures WorkerOk(limits, t, w) {
      assert WorkerOk(limits, s, w);
      assert w in s.tasks ==> Calmer(s.tasks[w], t.tasks[w]);
    }
  }

  lemma WorkersRun(limits: Limits, s: State)
    requires Inv(limits, s)
    ensures forall w :: w in s.workers ==> w in s.tasks && !s.tasks[w].status.Queued? && !s.tasks[w].status.Awaiting?
  {
    forall w | w in s.workers ensures w in s.tasks && !s.tasks[w].status.Queued? && !s.tasks[w].status.Awaiting? {
      assert WorkerOk(limits, s, w);
    }
  }

  lemma SetStatusKeeps(limits: Limits, s: State, task: Id, status: Status)
    requires Inv(limits, s) && !Active(status) && !status.Succeeded?
    ensures Inv(limits, SetStatus(s, task, status))
  {
    WorkersRun(limits, s);
    SettlesKeeps(limits, s, SetStatus(s, task, status));
  }

  lemma VanishKeeps(limits: Limits, s: State, task: Id)
    requires Inv(limits, s)
    ensures Inv(limits, s.(workers := s.workers - {task}))
  {
    WorkersRun(limits, s);
    SettlesKeeps(limits, s, s.(workers := s.workers - {task}));
  }

  lemma GiveUpKeeps(limits: Limits, s: State, task: Id, status: Status)
    requires Inv(limits, s)
    ensures Inv(limits, GiveUp(s, task, status))
  {
    VanishKeeps(limits, s, task);
    if status.Failed? || status.Uncertain? {
      SetStatusKeeps(limits, s.(workers := s.workers - {task}), task, status);
    }
  }

  lemma PauseKeeps(limits: Limits, s: State, task: Id, authorized: bool)
    requires Inv(limits, s)
    ensures Inv(limits, Pause(s, task, authorized))
  {
    GiveUpKeeps(limits, s, task, Uncertain);
    WorkersRun(limits, s);
    if task in s.workers && task in s.tasks && s.tasks[task].status.Running? && authorized {
      SettlesKeeps(limits, s, Pause(s, task, authorized));
    }
  }

  lemma MoveKeeps(limits: Limits, s: State, task: Id)
    requires Inv(limits, s)
    ensures Inv(limits, Move(s, task, {Awaiting}, Queued)) && Inv(limits, Move(s, task, {Queued, Awaiting}, Failed))
  {
    WorkersRun(limits, s);
    SettlesKeeps(limits, s, Move(s, task, {Awaiting}, Queued));
    SettlesKeeps(limits, s, Move(s, task, {Queued, Awaiting}, Failed));
  }

  lemma RestartKeeps(limits: Limits, s: State)
    requires Inv(limits, s)
    ensures Inv(limits, Restart(s))
  {
    SettlesKeeps(limits, s, Restart(s));
  }

  lemma ClaimKeeps(limits: Limits, s: State, task: Id, eligible: bool)
    requires Inv(limits, s)
    ensures Inv(limits, Claim(s, task, eligible))
  {
    var t := Claim(s, task, eligible);
    if t != s {
      forall k ensures TaskOk(t, k) { assert TaskOk(s, k); }
      forall m ensures PostOk(t, m) { assert PostOk(s, m); }
      forall k ensures SessionOk(limits, t, k) { assert SessionOk(limits, s, k); }
      forall w ensures WorkerOk(limits, t, w) { assert WorkerOk(limits, s, w); }
      forall i | 0 <= i < |t.log| ensures LogEntryOk(t, t.log[i]) { assert LogEntryOk(s, s.log[i]); }
    }
  }

  lemma LoadKeeps(limits: Limits, s: State, task: Id, authorized: bool, user: Turn)
    requires Inv(limits, s)
    ensures Inv(limits, Load(limits, s, task, authorized, user))
  {
    var t := Load(limits, s, task, authorized, user);
    GiveUpKeeps(limits, s, task, Failed);
    if t != s && t != GiveUp(s, task, Failed) {
      forall k ensures TaskOk(t, k) { assert TaskOk(s, k); }
      forall m ensures PostOk(t, m) { assert PostOk(s, m); }
      forall k ensures SessionOk(limits, t, k) { assert SessionOk(limits, s, k); }
      forall w ensures WorkerOk(limits, t, w) { assert WorkerOk(limits, s, w); }
      forall i | 0 <= i < |t.log| ensures LogEntryOk(t, t.log[i]) { assert LogEntryOk(s, s.log[i]); }
    }
  }

  lemma AttachKeeps(limits: Limits, s: State, key: Key)
    requires Inv(limits, s)
    ensures Inv(limits, Attach(s, key))
  {
    var t := Attach(s, key);
    if t != s {
      forall k ensures TaskOk(t, k) { assert TaskOk(s, k); }
      forall m ensures PostOk(t, m) { assert PostOk(s, m); }
      forall i | 0 <= i < |s.log| ensures s.log[i].key != key && LogEntryOk(t, s.log[i]) { assert LogEntryOk(s, s.log[i]); }
      FoldNothing(limits, s.log, key, 1);
      forall k ensures SessionOk(limits, t, k) { assert SessionOk(limits, s, k); }
      forall w ensures WorkerOk(limits, t, w) { assert WorkerOk(limits, s, w); }
    }
  }

  lemma {:induction false} FoldNothing(limits: Limits, log: seq<Entry>, key: Key, version: nat)
    requires forall i :: 0 <= i < |log| ==> log[i].key != key || log[i].version != version
    ensures Fold(limits, log, key, version) == []
    decreases |log|
  {
    if log != [] {
      FoldNothing(limits, log[..|log| - 1], key, version);
    }
  }

  lemma QueueKeeps(limits: Limits, s: State, task: Id, key: Key, source: Id, room: bool)
    requires Inv(limits, s)
    ensures Inv(limits, Queue(s, task, key, source, room))
  {
    var t := Queue(s, task, key, source, room);
    if t != s {
      forall k ensures TaskOk(t, k) { assert TaskOk(s, k); }
      forall m ensures PostOk(t, m) { assert PostOk(s, m); }
      forall i | 0 <= i < |s.log| ensures LogEntryOk(t, s.log[i]) { assert LogEntryOk(s, s.log[i]); }
      forall k ensures SessionOk(limits, t, k) { assert SessionOk(limits, s, k); }
      forall w ensures WorkerOk(limits, t, w) { assert WorkerOk(limits, s, w); }
    }
  }

  lemma DeleteKeeps(limits: Limits, s: State, chat: Id)
    requires Inv(limits, s)
    ensures Inv(limits, Delete(s, chat))
  {
    var t := Delete(s, chat);
    forall k ensures TaskOk(t, k) { assert TaskOk(s, k); }
    forall m ensures PostOk(t, m) { assert PostOk(s, m); }
    forall i | 0 <= i < |s.log| ensures LogEntryOk(t, s.log[i]) { assert LogEntryOk(s, s.log[i]); }
    forall k ensures SessionOk(limits, t, k) {
      assert SessionOk(limits, s, k);
      if k in t.sessions && k.chat == chat {
        forall i | 0 <= i < |s.log| && s.log[i].key == k ensures s.log[i].version != t.sessions[k].version {
          assert LogEntryOk(s, s.log[i]);
        }
        FoldNothing(limits, s.log, k, t.sessions[k].version);
      }
    }
    forall w ensures WorkerOk(limits, t, w) { assert WorkerOk(limits, s, w); }
  }

  /** The final transaction goes through. */
  predicate Publishes(limits: Limits, s: State, task: Id, authorized: bool, message: Id, answer: Turn) {
    && task in s.workers && s.workers[task].Loaded? && task in s.tasks && s.tasks[task].status.Running? && authorized
    && s.tasks[task].key in s.sessions && s.sessions[s.tasks[task].key].version == s.workers[task].version
    && limits.size(Bound(limits, s.workers[task].turns + [answer])) <= limits.MaxBytes()
    && message !in s.posted && !(exists m :: m in s.posted && s.posted[m] == task)
  }

  lemma PublishContexts(limits: Limits, s: State, task: Id, authorized: bool, message: Id, answer: Turn)
    requires Inv(limits, s) && Publishes(limits, s, task, authorized, message, answer)
    ensures Contexts(limits, Complete(limits, s, task, authorized, message, answer))
  {
    var t := Complete(limits, s, task, authorized, message, answer);
    var key := s.tasks[task].key;
    var n := |s.log|;
    assert WorkerOk(limits, s, task);
    forall k ensures SessionOk(limits, t, k) {
      assert SessionOk(limits, s, k);
      assert t.log[..n] == s.log;
    }
    forall w ensures WorkerOk(limits, t, w) {
      assert WorkerOk(limits, s, w);
      assert w in s.tasks && w != task && s.tasks[w].key == key ==> !Held(s.tasks[w].status);
    }
  }

  lemma PublishResults(limits: Limits, s: State, task: Id, authorized: bool, message: Id, answer: Turn)
    requires Inv(limits, s) && Publishes(limits, s, task, authorized, message, answer)
    ensures Results(Complete(limits, s, task, authorized, message, answer))
  {
    var t := Complete(limits, s, task, authorized, message, answer);
    forall k ensures TaskOk(t, k) { assert TaskOk(s, k); }
    forall m ensures PostOk(t, m) { assert PostOk(s, m); }
  }

  lemma CompleteKeeps(limits: Limits, s: State, task: Id, authorized: bool, message: Id, answer: Turn)
    requires Inv(limits, s)
    ensures Inv(limits, Complete(limits, s, task, authorized, message, answer))
  {
    if Publishes(limits, s, task, authorized, message, answer) {
      PublishContexts(limits, s, task, authorized, message, answer);
      PublishResults(limits, s, task, authorized, message, answer);
    } else {
      GiveUpKeeps(limits, s, task, Uncertain);
    }
  }

  lemma StepKeeps(limits: Limits, s: State, step: Step)
    requires Inv(limits, s)
    ensures Inv(limits, Next(limits, s, step))
  {
    match step
    case DoAttach(key) => AttachKeeps(limits, s, key);
    case DoQueue(task, key, source, room) => QueueKeeps(limits, s, task, key, source, room);
    case DoClaim(task, eligible) => ClaimKeeps(limits, s, task, eligible);
    case DoLoad(task, authorized, user) => LoadKeeps(limits, s, task, authorized, user);
    case DoPause(task, authorized) => PauseKeeps(limits, s, task, authorized);
    case DoGiveUp(task, status) => GiveUpKeeps(limits, s, task, status);
    case DoVanish(task) => VanishKeeps(limits, s, task);
    case DoComplete(task, authorized, message, answer) => CompleteKeeps(limits, s, task, authorized, message, answer);
    case DoCancel(task) => SetStatusKeeps(limits, s, task, Cancelled);
    case DoApprove(task) => MoveKeeps(limits, s, task);
    case DoExpire(task) => MoveKeeps(limits, s, task);
    case DoDelete(chat) => DeleteKeeps(limits, s, chat);
    case DoRestart => RestartKeeps(limits, s);
  }

  lemma {:induction false} RunKeeps(limits: Limits, steps: seq<Step>)
    ensures Inv(limits, Run(limits, Init(), steps))
    decreases |steps|
  {
    if steps != [] {
      RunKeeps(limits, steps[..|steps| - 1]);
      StepKeeps(limits, Run(limits, Init(), steps[..|steps| - 1]), steps[|steps| - 1]);
    }
  }

  /** Every run: a session has at most one task running or awaiting approval. */
  lemma EverySessionIsSerial(limits: Limits, steps: seq<Step>, t: Id, u: Id)
    requires var s := Run(limits, Init(), steps);
             && t in s.tasks && u in s.tasks && t != u && s.tasks[t].key == s.tasks[u].key && Held(s.tasks[t].status)
    ensures !Held(Run(limits, Init(), steps).tasks[u].status)
  {
    RunKeeps(limits, steps);
  }

  /** Every run: a task has succeeded exactly when its one result message exists. */
  lemma SucceededIffPosted(limits: Limits, steps: seq<Step>, t: Id)
    requires t in Run(limits, Init(), steps).tasks
    ensures var s := Run(limits, Init(), steps);
            && (s.tasks[t].status.Succeeded? <==> exists m :: m in s.posted && s.posted[m] == t)
            && (forall m, n :: m in s.posted && n in s.posted && s.posted[m] == t == s.posted[n] ==> m == n)
  {
    RunKeeps(limits, steps);
    PostsAreResults(Run(limits, Init(), steps), t);
  }

  lemma PostsAreResults(s: State, t: Id)
    requires Results(s) && t in s.tasks
    ensures s.tasks[t].status.Succeeded? <==> exists m :: m in s.posted && s.posted[m] == t
    ensures forall m :: m in s.posted && s.posted[m] == t ==> s.tasks[t].result == Some(m)
  {
    assert TaskOk(s, t);
    if s.tasks[t].result.Some? {
      var m := s.tasks[t].result.value;
      assert m in s.posted && s.posted[m] == t;
    }
    forall m | m in s.posted && s.posted[m] == t ensures s.tasks[t].result == Some(m) { assert PostOk(s, m); }
  }

  /** Every run: the session's context is the bounded fold of the turns completed
      since the last delete, in completion order; late workers never touch it. */
  lemma ContextIsTheFold(limits: Limits, steps: seq<Step>, key: Key)
    requires key in Run(limits, Init(), steps).sessions
    ensures var s := Run(limits, Init(), steps);
            s.sessions[key].context == Fold(limits, s.log, key, s.sessions[key].version)
    ensures var s := Run(limits, Init(), steps);
            && (forall i :: 0 <= i < |s.log| ==> LogEntryOk(s, s.log[i]))
            && (forall i, j :: 0 <= i < j < |s.log| ==> s.log[i].task != s.log[j].task)
  {
    RunKeeps(limits, steps);
    assert SessionOk(limits, Run(limits, Init(), steps), key);
  }

  /** A status that is final stays, whatever happens, and so does a posted result. */
  lemma FinalStays(limits: Limits, s: State, step: Step, t: Id)
    requires t in s.tasks && !Active(s.tasks[t].status)
    ensures t in Next(limits, s, step).tasks && Next(limits, s, step).tasks[t] == s.tasks[t]
  {
  }

  lemma {:induction false} TerminalIsAbsorbing(limits: Limits, s: State, steps: seq<Step>, t: Id)
    requires t in s.tasks && !Active(s.tasks[t].status)
    ensures t in Run(limits, s, steps).tasks && Run(limits, s, steps).tasks[t] == s.tasks[t]
    decreases |steps|
  {
    if steps != [] {
      TerminalIsAbsorbing(limits, s, steps[..|steps| - 1], t);
      FinalStays(limits, Run(limits, s, steps[..|steps| - 1]), steps[|steps| - 1], t);
    }
  }

  /** A worker whose task was ended, or whose session was emptied, publishes
      nothing: no message, no context, no result. */
  lemma LateWorkersPublishNothing(limits: Limits, s: State, task: Id, authorized: bool, message: Id, answer: Turn)
    requires task in s.workers && s.workers[task].Loaded? && task in s.tasks
    requires !s.tasks[task].status.Running?
             || (s.tasks[task].key in s.sessions && s.sessions[s.tasks[task].key].version != s.workers[task].version)
    ensures var t := Complete(limits, s, task, authorized, message, answer);
            && t.sessions == s.sessions && t.posted == s.posted && t.log == s.log
            && (!Active(s.tasks[task].status) ==> t.tasks == s.tasks)
  {
  }

  /** Nothing was published for the task from `s` to `t`. */
  ghost predicate Silent(s: State, t: State, task: Id) {
    && s.log <= t.log && (forall i :: |s.log| <= i < |t.log| ==> t.log[i].task != task)
    && (forall m :: m in t.posted && t.posted[m] == task ==> m in s.posted && s.posted[m] == task)
  }

  lemma StepIsSilent(limits: Limits, s: State, step: Step, task: Id)
    requires task in s.tasks && !Active(s.tasks[task].status)
    ensures Silent(s, Next(limits, s, step), task)
  {
    if step.DoComplete? && step.task == task && task in s.workers && s.workers[task].Loaded? {
      LateWorkersPublishNothing(limits, s, task, step.authorized, step.message, step.answer);
    }
  }

  /** Once a task is over, no run publishes anything for it: a worker still at work
      on it adds neither a message nor a turn to the session. */
  lemma {:induction false} EndedTasksAreSilent(limits: Limits, s: State, steps: seq<Step>, task: Id)
    requires task in s.tasks && !Active(s.tasks[task].status)
    ensures Silent(s, Run(limits, s, steps), task)
    decreases |steps|
  {
    if steps != [] {
      var n := |steps| - 1;
      EndedTasksAreSilent(limits, s, steps[..n], task);
      TerminalIsAbsorbing(limits, s, steps[..n], task);
      StepIsSilent(limits, Run(limits, s, steps[..n]), steps[n], task);
    }
  }

  /** After a message of a chat is deleted, no run publishes anything for a task
      the chat had by then, and the sessions start again from nothing. */
  lemma DeleteSilencesWorkers(limits: Limits, s: State, chat: Id, steps: seq<Step>, task: Id)
    requires task in s.tasks && s.tasks[task].key.chat == chat
    ensures Silent(Delete(s, chat), Run(limits, Delete(s, chat), steps), task)
    ensures forall k :: k in s.sessions && k.chat == chat ==> Delete(s, chat).sessions[k].context == []
  {
    EndedTasksAreSilent(limits, Delete(s, chat), steps, task);
  }

  /** When the final transaction publishes, and what: only for a worker that has loaded
      its context, while its task runs, its source and account are authorised, and the
      session is still at the version it loaded, within the context limit, under a new
      message id; then task, message, context and history advance together. Otherwise
      nothing is published. */
  lemma CompleteExactly(limits: Limits, s: State, task: Id, authorized: bool, message: Id, answer: Turn)
    requires task in s.workers && s.workers[task].Loaded? && task in s.tasks
    ensures var t := Complete(limits, s, task, authorized, message, answer);
            var w := s.workers[task];
            var key := s.tasks[task].key;
            var context := Bound(limits, w.turns + [answer]);
            var published :=
              && authorized && s.tasks[task].status == Running
              && key in s.sessions && s.sessions[key].version == w.version
              && limits.size(context) <= limits.MaxBytes()
              && message !in s.posted && (forall m :: m in s.posted ==> s.posted[m] != task);
            && (published ==>
                  t == s.(tasks := s.tasks[task := s.tasks[task].(status := Succeeded, result := Some(message))],
                          sessions := s.sessions[key := Session(context, w.version)],
                          posted := s.posted[message := task],
                          workers := s.workers - {task},
                          log := s.log + [Entry(task, key, w.version, w.user, answer)]))
            && (!published ==> t.sessions == s.sessions && t.posted == s.posted && t.log == s.log && task !in t.workers)
  {
  }

  /** When a worker gets a context, and which: while its task runs and is authorised,
      the session's own, at its version, with the source turn and within the bounds. */
  lemma LoadExactly(limits: Limits, s: State, task: Id, authorized: bool, user: Turn)
    requires task in s.workers && s.workers[task] == Claimed && task in s.tasks
    ensures var t := Load(limits, s, task, authorized, user);
            var key := s.tasks[task].key;
            var loads := authorized && s.tasks[task].status == Running && key in s.sessions;
            && (loads ==>
                  t == s.(workers := s.workers[task := Loaded(s.sessions[key].version, user, Bound(limits, s.sessions[key].context + [user]))]))
            && (!loads ==> task !in t.workers && t.sessions == s.sessions && t.posted == s.posted && t.log == s.log)
  {
  }

  /** Step `k` published this: an authorised completion of a running task, by a worker
      whose context was the session's own at that time. */
  ghost predicate PublishedAt(limits: Limits, steps: seq<Step>, k: nat, e: Entry, message: Id) {
    && k < |steps| && steps[k] == DoComplete(e.task, true, message, e.answer)
    && var p := Run(limits, Init(), steps[..k]);
    && e.task in p.tasks && p.tasks[e.task].status == Running && p.tasks[e.task].key == e.key
    && e.key in p.sessions && p.sessions[e.key].version == e.version
    && e.task in p.workers && p.workers[e.task] == Loaded(e.version, e.user, Bound(limits, p.sessions[e.key].context + [e.user]))
    && message !in p.posted
  }

  /** What one step can publish. */
  ghost predicate PublishesOne(s: State, t: State, step: Step) {
    && step.DoComplete? && step.authorized
    && var w := step.task;
    && w in s.workers && s.workers[w].Loaded? && w in s.tasks && s.tasks[w].status == Running
    && s.tasks[w].key in s.sessions && s.sessions[s.tasks[w].key].version == s.workers[w].version
    && step.message !in s.posted && t.posted == s.posted[step.message := w]
    && t.log == s.log + [Entry(w, s.tasks[w].key, s.workers[w].version, s.workers[w].user, step.answer)]
  }

  lemma StepPublishes(limits: Limits, s: State, step: Step)
    ensures var t := Next(limits, s, step);
            (t.log == s.log && t.posted == s.posted) || PublishesOne(s, t, step)
  {
    if step.DoComplete? && step.task in s.workers && s.workers[step.task].Loaded? && step.task in s.tasks {
      CompleteExactly(limits, s, step.task, step.authorized, step.message, step.answer);
    }
  }

  lemma PublishedNow(limits: Limits, steps: seq<Step>)
    requires steps != []
    requires var s := Run(limits, Init(), steps[..|steps| - 1]);
             PublishesOne(s, Run(limits, Init(), steps), steps[|steps| - 1])
    ensures var t := Run(limits, Init(), steps);
            t.log != [] && PublishedAt(limits, steps, |steps| - 1, t.log[|t.log| - 1], steps[|steps| - 1].message)
  {
    var s := Run(limits, Init(), steps[..|steps| - 1]);
    RunKeeps(limits, steps[..|steps| - 1]);
    assert WorkerOk(limits, s, steps[|steps| - 1].task);
  }

  lemma PublishedBefore(limits: Limits, steps: seq<Step>, k: nat, e: Entry, message: Id)
    requires steps != [] && PublishedAt(limits, steps[..|steps| - 1], k, e, message)
    ensures PublishedAt(limits, steps, k, e, message)
  {
    assert steps[..|steps| - 1][..k] == steps[..k];
  }

  lemma LogStep(s: State, t: State, step: Step, i: nat)
    requires t.log == s.log || PublishesOne(s, t, step)
    requires i < |t.log|
    ensures i < |s.log| ==> t.log[i] == s.log[i]
    ensures i >= |s.log| ==> PublishesOne(s, t, step) && i == |t.log| - 1
  {
  }

  /** Every run: each turn of a session's history was published by an authorised
      completion. */
  lemma {:induction false} EveryResultWasAuthorised(limits: Limits, steps: seq<Step>, i: nat)
    requires i < |Run(limits, Init(), steps).log|
    ensures exists k: nat, message :: PublishedAt(limits, steps, k, Run(limits, Init(), steps).log[i], message)
    decreases |steps|
  {
    if steps != [] {
      var n := |steps| - 1;
      var s, t := Run(limits, Init(), steps[..n]), Run(limits, Init(), steps);
      StepPublishes(limits, s, steps[n]);
      LogStep(s, t, steps[n], i);
      if i < |s.log| {
        EveryResultWasAuthorised(limits, steps[..n], i);
        var k: nat, message :| PublishedAt(limits, steps[..n], k, s.log[i], message);
        PublishedBefore(limits, steps, k, s.log[i], message);
        assert PublishedAt(limits, steps, k, t.log[i], message);
      } else {
        PublishedNow(limits, steps);
        assert PublishedAt(limits, steps, n, t.log[i], steps[n].message);
      }
    }
  }

  /** Every run: so was each message posted for a task, under its own id. */
  lemma {:induction false} EveryPostWasAuthorised(limits: Limits, steps: seq<Step>, message: Id)
    requires message in Run(limits, Init(), steps).posted
    ensures exists k: nat, e: Entry ::
              PublishedAt(limits, steps, k, e, message) && e.task == Run(limits, Init(), steps).posted[message]
    decreases |steps|
  {
    if steps != [] {
      var n := |steps| - 1;
      var s := Run(limits, Init(), steps[..n]);
      StepPublishes(limits, s, steps[n]);
      if message in s.posted {
        EveryPostWasAuthorised(limits, steps[..n], message);
        var k: nat, e: Entry :| PublishedAt(limits, steps[..n], k, e, message) && e.task == s.posted[message];
        PublishedBefore(limits, steps, k, e, message);
      } else {
        PublishedNow(limits, steps);
      }
    }
  }

  /** How one step may move a task. */
  ghost predicate MovesBy(s: State, t: State, step: Step, k: Id)
    requires k in s.tasks && k in t.tasks
  {
    var a, b := s.tasks[k].status, t.tasks[k].status;
    var open := a == Queued || a == Running || a == Awaiting;
    b == a
    || (a == Queued && b == Running && step == DoClaim(k, true)
        && forall u :: u in s.tasks && s.tasks[u].key == s.tasks[k].key ==> !s.tasks[u].status.Running? && !s.tasks[u].status.Awaiting?)
    || (a == Running && b == Awaiting && step == DoPause(k, true))
    || (a == Awaiting && b == Queued && step == DoApprove(k))
    || (a == Running && b == Succeeded && step.DoComplete? && step.task == k && step.authorized)
    || ((a == Queued || a == Awaiting) && b == Failed && step == DoExpire(k))
    || (open && b == Cancelled && (step == DoCancel(k) || step == DoDelete(s.tasks[k].key.chat)))
    || (a == Running && b == Uncertain && step == DoRestart)
    || (open && (b == Failed || b == Uncertain) && k in s.workers
        && ((step.DoGiveUp? && step.task == k) || (step.DoLoad? && step.task == k)
            || (step.DoPause? && step.task == k) || (step.DoComplete? && step.task == k)))
  }

  /** No step moves a task in any other way, or changes its session or source. */
  lemma StatusMoves(limits: Limits, s: State, step: Step, k: Id)
    requires k in s.tasks
    ensures var t := Next(limits, s, step);
            && k in t.tasks && t.tasks[k].key == s.tasks[k].key && t.tasks[k].source == s.tasks[k].source
            && MovesBy(s, t, step, k)
  {
  }

  /** One task for each source message and agent, and a bounded queue. */
  ghost predicate Queues(s: State) {
    && (forall t, u :: t in s.tasks && u in s.tasks && t != u ==>
          s.tasks[t].source != s.tasks[u].source || s.tasks[t].key.agent != s.tasks[u].key.agent)
    && (forall key :: |ActiveOf(s, key)| <= 64)
  }

  lemma SubsetSize<T>(a: set<T>, b: set<T>)
    requires a <= b
    ensures |a| <= |b|
  {
    assert b == a + (b - a);
  }

  lemma OneMore<T>(a: set<T>, b: set<T>, x: T)
    requires forall y :: y in a ==> y in b || y == x
    ensures |a| <= |b| + 1
  {
    SubsetSize(a, b + {x});
  }

  lemma QueueQueues(s: State, task: Id, key: Key, source: Id, room: bool)
    requires Queues(s)
    ensures Queues(Queue(s, task, key, source, room))
  {
    var t := Queue(s, task, key, source, room);
    if t != s {
      forall other ensures |ActiveOf(t, other)| <= 64 {
        assert |ActiveOf(s, other)| <= 64;
        if other == key {
          OneMore(ActiveOf(t, key), ActiveOf(s, key), task);
        } else {
          SubsetSize(ActiveOf(t, other), ActiveOf(s, other));
        }
      }
      OnePerSource(s, task, Task(key, source, Queued, None));
    }
  }

  lemma OnePerSource(s: State, task: Id, added: Task)
    requires forall t, u :: t in s.tasks && u in s.tasks && t != u ==>
               s.tasks[t].source != s.tasks[u].source || s.tasks[t].key.agent != s.tasks[u].key.agent
    requires forall t :: t in s.tasks ==> s.tasks[t].source != added.source || s.tasks[t].key.agent != added.key.agent
    ensures var tasks := s.tasks[task := added];
            forall t, u :: t in tasks && u in tasks && t != u ==>
              tasks[t].source != tasks[u].source || tasks[t].key.agent != tasks[u].key.agent
  {
  }

  /** The same tasks, of which none became active. */
  ghost predicate AddsNone(s: State, t: State) {
    && t.tasks.Keys == s.tasks.Keys
    && (forall k :: k in s.tasks ==> t.tasks[k].key == s.tasks[k].key && t.tasks[k].source == s.tasks[k].source)
    && (forall k :: k in s.tasks && Active(t.tasks[k].status) ==> Active(s.tasks[k].status))
  }

  lemma AddsNoneQueues(s: State, t: State)
    requires Queues(s) && AddsNone(s, t)
    ensures Queues(t)
  {
    forall key ensures |ActiveOf(t, key)| <= 64 {
      forall u | u in ActiveOf(t, key) ensures u in ActiveOf(s, key) {
        assert u in t.tasks && Active(t.tasks[u].status);
      }
      SubsetSize(ActiveOf(t, key), ActiveOf(s, key));
    }
  }

  lemma StepQueues(limits: Limits, s: State, step: Step)
    requires Queues(s)
    ensures Queues(Next(limits, s, step))
  {
    if step.DoQueue? {
      QueueQueues(s, step.task, step.key, step.source, step.room);
    } else {
      StepAddsNone(limits, s, step);
      AddsNoneQueues(s, Next(limits, s, step));
    }
  }

  lemma StepAddsNone(limits: Limits, s: State, step: Step)
    requires !step.DoQueue?
    ensures AddsNone(s, Next(limits, s, step))
  {
    var t := Next(limits, s, step);
    forall k | k in s.tasks
      ensures k in t.tasks && t.tasks[k].key == s.tasks[k].key && t.tasks[k].source == s.tasks[k].source
      ensures Active(t.tasks[k].status) ==> Active(s.tasks[k].status)
    {
      StatusMoves(limits, s, step, k);
    }
  }

  lemma {:induction false} RunQueues(limits: Limits, steps: seq<Step>)
    ensures Queues(Run(limits, Init(), steps))
    decreases |steps|
  {
    if steps != [] {
      RunQueues(limits, steps[..|steps| - 1]);
      StepQueues(limits, Run(limits, Init(), steps[..|steps| - 1]), steps[|steps| - 1]);
    } else {
      forall key ensures ActiveOf(Init(), key) == {} { }
    }
  }

  /** Every run: a source message has at most one task for each agent, and a session
      never has more than 64 active ones. */
  lemma EveryQueueIsBounded(limits: Limits, steps: seq<Step>, key: Key)
    ensures var s := Run(limits, Init(), steps);
            && (forall t, u :: t in s.tasks && u in s.tasks && t != u ==>
                  s.tasks[t].source != s.tasks[u].source || s.tasks[t].key.agent != s.tasks[u].key.agent)
            && |ActiveOf(s, key)| <= 64
  {
    RunQueues(limits, steps);
  }
}
