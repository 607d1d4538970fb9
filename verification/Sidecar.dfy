/** The external endpoint's sequential loop over crashes: a poll cursor, an inbox,
    intents with consumed grants, an outbox, and a ratchet whose snapshot is saved
    in the same commit as what it sealed. One epoch between two offline rejoins. */
module Sidecar {
  import opened Basics

  datatype Kind = Notice | Frame | Outcome | Failure | Unknown

  datatype Response = Response(kind: Kind, seqNo: nat, final: bool)

  /** A decoded request; `approval` says that its handler demands a grant. */
  datatype Request = Request(id: Id, client: Id, hash: Id, approval: bool, nonce: Id)

  /** What the relay shows at one position; `decoded` is false for notices,
      tombstones and anything that is not a message for this endpoint. */
  datatype Message = Message(decoded: bool, own: bool, op: Id, sender: Id, epochOk: bool, opens: bool, request: Request)

  datatype InboxStatus = Pending | Done | Rejected | Undecided

  datatype Item = Item(sender: Id, status: InboxStatus, request: Request)

  datatype IntentStatus = Dispatched | Completed | Uncertain

  datatype Intent = Intent(hash: Id, status: IntentStatus, responses: seq<Response>)

  /** The digest that names a response, taken as injective; or a direct send. */
  datatype OutOp = Reply(request: Id, client: Id, seqNo: nat) | Direct(op: Id)

  /** A ciphertext: its operation, its send generation and what it seals. */
  datatype Wire = Wire(op: OutOp, gen: nat, body: Response)

  /** Where control goes after a message has been handled. */
  datatype Return = ToIdle | ToPage(at: nat, end: nat)

  /** What follows once a sealed response is durable. */
  datatype After = ThenHandler | ThenStream(last: Option<Response>) | ThenClose | ThenUncertain | ThenReject

  datatype Stage =
    | Start
    | Sealing(response: Response, after: After)
    | Handler
    | Streaming(last: Option<Response>)
    | Marking(seqNo: nat)
    | Closing(responses: seq<Response>, outcome: IntentStatus)
    | Finishing(status: InboxStatus)
    | Rejecting

  datatype Pc =
    | Stopped
    | Idle
    | Page(at: nat, end: nat)
    | Keep(at: nat, end: nat)
    | Work(op: Id, ret: Return, stage: Stage)

  /** History of the intent commits. */
  datatype Commit = Commit(client: Id, approval: bool, nonce: Id)

  /** Durable tables; then `send` and `pc`, which a crash loses; then the relay,
      and history: wires committed, wires released, handler runs, commits. */
  datatype State = State(
    counter: nat, inbox: map<Id, Item>, intents: map<Id, Intent>, grants: set<Id>,
    outbox: map<OutOp, Wire>, sent: set<OutOp>, cursor: nat,
    send: nat, pc: Pc,
    relay: seq<Message>, wires: set<Wire>, released: set<Wire>, runs: seq<Id>, commits: seq<Commit>)

  function Init(): State {
    State(0, map[], map[], {}, map[], {}, 0, 0, Stopped, [], {}, {}, [], [])
  }

  function Back(ret: Return): Pc {
    match ret
    case ToIdle => Idle
    case ToPage(i, k) => Page(i + 1, k)
  }

  function Request0(s: State): Request
    requires s.pc.Work? && s.pc.op in s.inbox
  {
    s.inbox[s.pc.op].request
  }

  predicate Working(s: State) {
    s.pc.Work? && s.pc.op in s.inbox
  }

  function To(s: State, stage: Stage): State
    requires s.pc.Work?
  {
    s.(pc := s.pc.(stage := stage))
  }

  /** Sealing advances the ratchet in memory. */
  function Seal(s: State, response: Response, after: After): State
    requires s.pc.Work?
  {
    To(s, Sealing(response, after)).(send := s.send + 1)
  }

  function SetInbox(s: State, op: Id, status: InboxStatus): State
    requires op in s.inbox
  {
    s.(inbox := s.inbox[op := s.inbox[op].(status := status)])
  }

  /** A fatal error: the item is rejected if that write goes through; Run returns. */
  function Break(s: State, written: bool): State
    requires Working(s)
  {
    (if written then SetInbox(s, s.pc.op, Rejected) else s).(pc := Stopped)
  }

  /** An error of the RPC: told to the peer, or fatal. */
  function Refuse(s: State, told: bool, written: bool): State
    requires Working(s)
  {
    if told then To(s, Rejecting) else Break(s, written)
  }

  function Boot(s: State): State {
    if s.pc.Stopped? then s.(send := s.counter, pc := Idle) else s
  }

  function Crash(s: State): State {
    s.(pc := Stopped)
  }

  function Arrive(s: State, m: Message): State {
    s.(relay := s.relay + [m])
  }

  function Drain(s: State, op: Id): State {
    if s.pc.Idle? && op in s.inbox && s.inbox[op].status.Pending? then s.(pc := Work(op, ToIdle, Start)) else s
  }

  function Poll(s: State, end: nat): State {
    if s.pc.Idle? && s.cursor <= end <= |s.relay| then s.(pc := Page(s.cursor, end)) else s
  }

  /** One message of the page. */
  function Receive(s: State): State {
    if !(s.pc.Page? && s.pc.at < s.pc.end && s.pc.at < |s.relay|) then s
    else
      var m := s.relay[s.pc.at];
      if !m.decoded || m.own then s.(pc := Page(s.pc.at + 1, s.pc.end))
      else if !m.epochOk then Crash(s)
      else if m.op in s.inbox then
        if s.inbox[m.op].sender != m.sender then Crash(s)
        else if s.inbox[m.op].status.Pending? then s.(pc := Work(m.op, ToPage(s.pc.at, s.pc.end), Start))
        else s.(pc := Page(s.pc.at + 1, s.pc.end))
      else if !m.opens then Crash(s)
      else s.(pc := Keep(s.pc.at, s.pc.end))
  }

  /** The snapshot after decryption and the inbox row share a commit. */
  function KeepCommit(s: State, ok: bool): State {
    if !(s.pc.Keep? && s.pc.at < |s.relay|) then s
    else if !ok then Crash(s)
    else
      var m := s.relay[s.pc.at];
      s.(counter := s.send,
         inbox := if m.op in s.inbox then s.inbox else s.inbox[m.op := Item(m.sender, Pending, m.request)],
         pc := Work(m.op, ToPage(s.pc.at, s.pc.end), Start))
  }

  /** The page's last event number becomes the cursor. A page without events has
      none, and resets the cursor to the beginning. */
  function SetCursor(s: State, ok: bool): State {
    if !(s.pc.Page? && s.pc.at == s.pc.end) then s
    else if !ok then Crash(s)
    else s.(cursor := if s.pc.end > s.cursor then s.pc.end else 0, pc := Idle)
  }

  /** The checks before dispatch: they pass, are refused to the peer, or break. */
  datatype Verdict = Good | Refused | Fatal

  function Known(s: State, req: Request): State
    requires Working(s) && req.client in s.intents
  {
    var intent := s.intents[req.client];
    if intent.hash != req.hash then To(s, Rejecting)
    else if intent.status.Completed? || intent.responses != [] then
      To(s, Finishing(if exists r :: r in intent.responses && r.kind.Unknown? then Undecided else Done))
    else To(s, Marking(1))
  }

  /** The intent and its grant are consumed in one commit, before the handler. */
  function Dispatch(s: State, req: Request): State
    requires Working(s)
  {
    if req.approval && req.nonce in s.grants then To(s, Rejecting)
    else
      Seal(s, Response(Notice, 1, false), ThenHandler)
      .(intents := s.intents[req.client := Intent(req.hash, Dispatched, [])],
        grants := if req.approval then s.grants + {req.nonce} else s.grants,
        commits := s.commits + [Commit(req.client, req.approval, req.nonce)])
  }

  function Begin(s: State, verdict: Verdict, written: bool): State {
    if !(Working(s) && s.pc.stage.Start?) then s
    else if !s.inbox[s.pc.op].status.Pending? then s.(pc := Back(s.pc.ret))
    else if verdict.Refused? then To(s, Rejecting)
    else if verdict.Fatal? then Break(s, written)
    else if Request0(s).client in s.intents then Known(s, Request0(s))
    else Dispatch(s, Request0(s))
  }

  /** The snapshot and the outbox entry share a commit; an entry that exists is
      kept, and the fresh ciphertext is dropped. */
  function Saved(s: State): State
    requires Working(s) && s.pc.stage.Sealing? && s.send > 0
  {
    var op := Reply(Request0(s).id, Request0(s).client, s.pc.stage.response.seqNo);
    var wire := Wire(op, s.send - 1, s.pc.stage.response);
    if op in s.outbox then s.(counter := s.send)
    else s.(counter := s.send, outbox := s.outbox[op := wire], wires := s.wires + {wire})
  }

  /** What follows a sealed response: `ok` when it was saved, and sent as needed. */
  function Onward(s: State, ok: bool, told: bool, written: bool): State
    requires Working(s) && s.pc.stage.Sealing?
  {
    var r := s.pc.stage.response;
    match s.pc.stage.after
    case ThenHandler => To(s, if ok then Handler else Marking(2))
    case ThenStream(last) => To(s, Streaming(if ok then Some(r) else last))
    case ThenClose => if ok then To(s, Closing([r], Completed)) else Refuse(s, told, written)
    case ThenUncertain => if ok then To(s, Closing([r], Uncertain)) else Refuse(s, told, written)
    case ThenReject => if ok then s.(pc := Back(s.pc.ret)) else Crash(s)
  }

  function SealCommit(s: State, saved: bool, ok: bool, told: bool, written: bool): State {
    if !(Working(s) && s.pc.stage.Sealing? && s.send > 0) then s
    else Onward(if saved then Saved(s) else s, saved && ok, told, written)
  }

  /** The handler returns a body, an error, or starts a stream. */
  datatype Effect = Returns | Errors | Streams

  function RunHandler(s: State, effect: Effect): State {
    if !(Working(s) && s.pc.stage.Handler?) then s
    else
      var t := s.(runs := s.runs + [Request0(s).client]);
      match effect
      case Returns => Seal(t, Response(Outcome, 2, true), ThenClose)
      case Errors => To(t, Marking(2))
      case Streams => To(t, Streaming(None))
  }

  function StreamFrame(s: State, response: Response): State {
    if Working(s) && s.pc.stage.Streaming? then Seal(s, response, ThenStream(s.pc.stage.last)) else s
  }

  function StreamEnd(s: State, ok: bool): State {
    if !(Working(s) && s.pc.stage.Streaming?) then s
    else
      var last := s.pc.stage.last;
      if ok && last.Some? && last.value.final then To(s, Closing([last.value], Completed))
      else To(s, Marking(if !ok && last.Some? then last.value.seqNo + 1 else 1))
  }

  function SetIntent(s: State, client: Id, status: IntentStatus, responses: seq<Response>): State {
    if client in s.intents then
      s.(intents := s.intents[client := s.intents[client].(status := status, responses := responses)])
    else s
  }

  /** An unknown outcome is recorded, best effort, and then told. */
  function Mark(s: State, written: bool): State {
    if !(Working(s) && s.pc.stage.Marking?) then s
    else
      var t := if written then SetIntent(s, Request0(s).client, Uncertain, []) else s;
      Seal(t, Response(Unknown, s.pc.stage.seqNo, true), ThenUncertain)
  }

  function Close(s: State, ok: bool, told: bool, written: bool): State {
    if !(Working(s) && s.pc.stage.Closing?) then s
    else if !ok then Refuse(s, told, written)
    else
      var unknown := exists r :: r in s.pc.stage.responses && r.kind.Unknown?;
      To(SetIntent(s, Request0(s).client, s.pc.stage.outcome, s.pc.stage.responses), Finishing(if unknown then Undecided else Done))
  }

  function Finish(s: State, ok: bool): State {
    if !(Working(s) && s.pc.stage.Finishing? && !s.pc.stage.status.Pending?) then s
    else if !ok then Crash(s)
    else SetInbox(s, s.pc.op, s.pc.stage.status).(pc := Back(s.pc.ret))
  }

  function Reject(s: State, ok: bool): State {
    if !(Working(s) && s.pc.stage.Rejecting?) then s
    else if !ok then Crash(s)
    else Seal(SetInbox(s, s.pc.op, Rejected), Response(Failure, 1, true), ThenReject)
  }

  /** An unsent outbox entry goes to the relay, and is marked unless that fails. */
  function Flush(s: State, op: OutOp, marked: bool): State {
    if s.pc.Stopped? || op !in s.outbox || op in s.sent then s
    else s.(released := s.released + {s.outbox[op]}, sent := if marked then s.sent + {op} else s.sent)
  }

  /** A message of the endpoint's own: saved before it is released. */
  function SendDirect(s: State, op: Id, body: Response, ok: bool): State {
    if !s.pc.Idle? then s
    else if !ok then s.(send := s.send + 1)
    else
      var wire := Wire(Direct(op), s.send, body);
      s.(send := s.send + 1, counter := s.send + 1, wires := s.wires + {wire}, released := s.released + {wire})
  }

  datatype Loop =
    | DoBoot
    | DoCrash
    | DoArrive(m: Message)
    | DoDrain(op: Id)
    | DoPoll(end: nat)
    | DoReceive
    | DoKeepCommit(ok: bool)
    | DoSetCursor(ok: bool)
    | DoFlush(outOp: OutOp, marked: bool)
    | DoSendDirect(op: Id, body: Response, ok: bool)

  datatype Rpc =
    | DoBegin(verdict: Verdict, written: bool)
    | DoSealCommit(saved: bool, ok: bool, told: bool, written: bool)
    | DoRunHandler(effect: Effect)
    | DoStreamFrame(response: Response)
    | DoStreamEnd(ok: bool)
    | DoMark(written: bool)
    | DoClose(ok: bool, told: bool, written: bool)
    | DoFinish(ok: bool)
    | DoReject(ok: bool)

  datatype Step = Outer(loop: Loop) | Inner(rpc: Rpc)

  function NextLoop(s: State, step: Loop): State {
    match step
    case DoBoot => Boot(s)
    case DoCrash => Crash(s)
    case DoArrive(m) => Arrive(s, m)
    case DoDrain(op) => Drain(s, op)
    case DoPoll(end) => Poll(s, end)
    case DoReceive => Receive(s)
    case DoKeepCommit(ok) => KeepCommit(s, ok)
    case DoSetCursor(ok) => SetCursor(s, ok)
    case DoFlush(op, marked) => Flush(s, op, marked)
    case DoSendDirect(op, body, ok) => SendDirect(s, op, body, ok)
  }

  function NextRpc(s: State, step: Rpc): State {
    match step
    case DoBegin(verdict, written) => Begin(s, verdict, written)
    case DoSealCommit(saved, ok, told, written) => SealCommit(s, saved, ok, told, written)
    case DoRunHandler(effect) => RunHandler(s, effect)
    case DoStreamFrame(response) => StreamFrame(s, response)
    case DoStreamEnd(ok) => StreamEnd(s, ok)
    case DoMark(written) => Mark(s, written)
    case DoClose(ok, told, written) => Close(s, ok, told, written)
    case DoFinish(ok) => Finish(s, ok)
    case DoReject(ok) => Reject(s, ok)
  }

  function Next(s: State, step: Step): State {
    match step
    case Outer(loop) => NextLoop(s, loop)
    case Inner(rpc) => NextRpc(s, rpc)
  }

  function Run(s: State, steps: seq<Step>): State {
    if steps == [] then s else Next(Run(s, steps[..|steps| - 1]), steps[|steps| - 1])
  }

  /** Every committed wire lies below the snapshot's counter and no two share a
      generation; memory is at or ahead of it, strictly while sealing. */
  ghost predicate Ratchet(s: State) {
    && (forall w :: w in s.wires ==> w.gen < s.counter)
    && (forall v, w :: v in s.wires && w in s.wires && v.gen == w.gen ==> v == w)
    && (!s.pc.Stopped? ==> s.counter <= s.send)
    && (s.pc.Work? && s.pc.stage.Sealing? ==> s.counter < s.send)
  }

  /** The outbox holds committed wires, and only committed wires are released. */
  ghost predicate Released(s: State) {
    && (forall op :: op in s.outbox ==> s.outbox[op].op == op && s.outbox[op] in s.wires)
    && s.released <= s.wires
  }

  predicate BeforeRun(stage: Stage) {
    stage.Handler? || (stage.Sealing? && stage.after.ThenHandler?)
  }

  /** A handler's client has an intent, and has not run before it runs. */
  ghost predicate Once(s: State) {
    && (forall i, j :: 0 <= i < j < |s.runs| ==> s.runs[i] != s.runs[j])
    && (forall i :: 0 <= i < |s.runs| ==> s.runs[i] in s.intents)
    && (s.pc.Work? ==>
          && s.pc.op in s.inbox
          && (BeforeRun(s.pc.stage) ==> Request0(s).client in s.intents && Request0(s).client !in s.runs))
  }

  ghost predicate Committed(s: State, client: Id) {
    exists i :: 0 <= i < |s.commits| && s.commits[i].client == client
  }

  /** One commit for each intent; those that needed approval hold distinct nonces. */
  ghost predicate Granted(s: State) {
    && (forall client :: client in s.intents <==> Committed(s, client))
    && (forall i, j :: 0 <= i < j < |s.commits| ==>
          && s.commits[i].client != s.commits[j].client
          && (s.commits[i].approval && s.commits[j].approval ==> s.commits[i].nonce != s.commits[j].nonce))
    && (forall i :: 0 <= i < |s.commits| && s.commits[i].approval ==> s.commits[i].nonce in s.grants)
  }

  /** A message that needs no further look: not for this endpoint, its own echo,
      or in the inbox and decided. */
  predicate Settled(s: State, m: Message) {
    !m.decoded || m.own || (m.op in s.inbox && !s.inbox[m.op].status.Pending?)
  }

  ghost predicate SettledBelow(s: State, n: nat) {
    n <= |s.relay| && forall i :: 0 <= i < n ==> Settled(s, s.relay[i])
  }

  ghost predicate At(s: State, at: nat, end: nat) {
    s.cursor <= at <= end <= |s.relay| && SettledBelow(s, at)
  }

  /** What lies below the cursor, or below the page's position, is settled. */
  ghost predicate Passed(s: State) {
    && SettledBelow(s, s.cursor)
    && (s.pc.Page? ==> At(s, s.pc.at, s.pc.end))
    && (s.pc.Keep? ==> At(s, s.pc.at, s.pc.end) && s.pc.at < s.pc.end)
    && (s.pc.Work? ==>
          && s.pc.op in s.inbox
          && (s.pc.ret.ToPage? ==>
                At(s, s.pc.ret.at, s.pc.ret.end) && s.pc.ret.at < s.pc.ret.end && s.relay[s.pc.ret.at].op == s.pc.op)
          && (s.pc.stage.Sealing? && s.pc.stage.after.ThenReject? ==> !s.inbox[s.pc.op].status.Pending?)
          && (s.pc.stage.Finishing? ==> !s.pc.stage.status.Pending?))
  }

  ghost predicate Inv(s: State) {
    Ratchet(s) && Released(s) && Once(s) && Granted(s) && Passed(s)
  }

  ghost predicate SameTables(s: State, t: State) {
    && t.counter == s.counter && t.wires == s.wires && t.outbox == s.outbox && t.released == s.released
    && t.commits == s.commits && t.grants == s.grants && t.intents.Keys == s.intents.Keys
    && t.relay == s.relay && t.cursor == s.cursor
  }

  /** Inbox rows stay, and a decided one stays decided. */
  ghost predicate InboxGrows(s: State, t: State) {
    forall op :: op in s.inbox ==>
      op in t.inbox && t.inbox[op].request == s.inbox[op].request && (t.inbox[op].status.Pending? ==> s.inbox[op].status.Pending?)
  }

  /** Work on a message is over: it is decided, or the process is. */
  ghost predicate Ends(s: State, t: State) {
    && SameTables(s, t) && InboxGrows(s, t) && t.runs == s.runs && t.send == s.send
    && Working(s)
    && (t.pc.Stopped? || (t.pc == Back(s.pc.ret) && !t.inbox[s.pc.op].status.Pending?))
  }

  lemma EndsKeeps(s: State, t: State)
    requires Inv(s) && Ends(s, t)
    ensures Inv(t)
  {
    forall c ensures Committed(t, c) <==> Committed(s, c) { }
  }

  lemma RefuseKeeps(s: State, told: bool, written: bool)
    requires Inv(s) && Working(s)
    ensures Inv(Refuse(s, told, written))
  {
    if !told {
      EndsKeeps(s, Break(s, written));
    }
  }

  lemma DispatchKeeps(s: State, req: Request)
    requires Inv(s) && Working(s) && req == Request0(s) && req.client !in s.intents && !(req.approval && req.nonce in s.grants)
    ensures Inv(Dispatch(s, req))
  {
    var t := Dispatch(s, req);
    var n := |s.commits|;
    assert t.commits[n].client == req.client;
    forall c ensures Committed(t, c) <==> Committed(s, c) || c == req.client {
      if Committed(s, c) {
        var i :| 0 <= i < n && s.commits[i].client == c;
        assert t.commits[i] == s.commits[i];
      }
    }
    forall i | 0 <= i < n ensures s.commits[i].client != req.client { assert Committed(s, s.commits[i].client); }
  }

  lemma BeginKeeps(s: State, verdict: Verdict, written: bool)
    requires Inv(s)
    ensures Inv(Begin(s, verdict, written))
  {
    if Working(s) && s.pc.stage.Start? {
      var req := Request0(s);
      if !s.inbox[s.pc.op].status.Pending? {
        EndsKeeps(s, s.(pc := Back(s.pc.ret)));
      } else if !verdict.Good? {
        RefuseKeeps(s, verdict.Refused?, written);
      } else if req.client !in s.intents && !(req.approval && req.nonce in s.grants) {
        DispatchKeeps(s, req);
      }
    }
  }

  lemma SavedRatchet(s: State)
    requires Ratchet(s) && Released(s) && Working(s) && s.pc.stage.Sealing?
    ensures s.send > 0 && Released(Saved(s))
    ensures var t := Saved(s);
            && (forall w :: w in t.wires ==> w.gen < t.counter)
            && (forall v, w :: v in t.wires && w in t.wires && v.gen == w.gen ==> v == w)
            && t.counter == t.send
  {
  }

  /** Onward from tables that are sound outside the sealing stage. */
  lemma OnwardRest(t: State, u: State, ok: bool, told: bool, written: bool)
    requires Working(t) && t.pc.stage.Sealing? && !t.pc.stage.after.ThenHandler?
    requires u == t.(pc := t.pc.(stage := Start)) && Inv(u)
    requires t.pc.stage.after.ThenReject? ==> !t.inbox[t.pc.op].status.Pending?
    ensures Inv(Onward(t, ok, told, written))
  {
    match t.pc.stage.after
    case ThenStream(last) =>
    case ThenClose => if !ok { RefuseKeeps(u, told, written); }
    case ThenUncertain => if !ok { RefuseKeeps(u, told, written); }
    case ThenReject => EndsKeeps(u, Onward(t, ok, told, written));
  }

  lemma SealCommitKeeps(s: State, saved: bool, ok: bool, told: bool, written: bool)
    requires Inv(s)
    ensures Inv(SealCommit(s, saved, ok, told, written))
  {
    if Working(s) && s.pc.stage.Sealing? && s.send > 0 {
      var t := if saved then Saved(s) else s;
      assert t.pc == s.pc && t.inbox == s.inbox;
      var u := t.(pc := t.pc.(stage := Start));
      SavedSound(s, u);
      if s.pc.stage.after.ThenHandler? {
        OnwardHandler(s, t, u, saved && ok);
      } else {
        OnwardRest(t, u, saved && ok, told, written);
      }
    }
  }

  lemma SavedSound(s: State, u: State)
    requires Inv(s) && Working(s) && s.pc.stage.Sealing? && s.send > 0
    requires u == s.(pc := s.pc.(stage := Start)) || u == Saved(s).(pc := s.pc.(stage := Start))
    ensures Inv(u)
  {
    SavedRatchet(s);
    forall c ensures Committed(u, c) <==> Committed(s, c) { }
  }

  lemma OnwardHandler(s: State, t: State, u: State, ok: bool)
    requires Inv(s) && Working(s) && s.pc.stage.Sealing? && s.pc.stage.after.ThenHandler? && s.send > 0
    requires (t == s || t == Saved(s)) && u == t.(pc := t.pc.(stage := Start)) && Inv(u)
    ensures Inv(To(t, if ok then Handler else Marking(2)))
  {
    var v := To(t, if ok then Handler else Marking(2));
    forall c ensures Committed(v, c) <==> Committed(u, c) { }
  }

  lemma RunHandlerKeeps(s: State, effect: Effect)
    requires Inv(s)
    ensures Inv(RunHandler(s, effect))
  {
    if Working(s) && s.pc.stage.Handler? {
      var t := s.(runs := s.runs + [Request0(s).client], pc := s.pc.(stage := Start));
      forall c ensures Committed(t, c) <==> Committed(s, c) { }
    }
  }

  lemma StreamFrameKeeps(s: State, response: Response)
    requires Inv(s)
    ensures Inv(StreamFrame(s, response))
  {
  }

  lemma StreamEndKeeps(s: State, ok: bool)
    requires Inv(s)
    ensures Inv(StreamEnd(s, ok))
  {
  }

  lemma MarkKeeps(s: State, written: bool)
    requires Inv(s)
    ensures Inv(Mark(s, written))
  {
  }

  lemma CloseKeeps(s: State, ok: bool, told: bool, written: bool)
    requires Inv(s)
    ensures Inv(Close(s, ok, told, written))
  {
    if Working(s) && s.pc.stage.Closing? && !ok {
      RefuseKeeps(s, told, written);
    }
  }

  lemma FinishKeeps(s: State, ok: bool)
    requires Inv(s)
    ensures Inv(Finish(s, ok)) && Inv(Reject(s, ok))
  {
    if Working(s) && s.pc.stage.Finishing? {
      EndsKeeps(s, Finish(s, ok));
    }
  }

  lemma RpcKeeps(s: State, step: Rpc)
    requires Inv(s)
    ensures Inv(NextRpc(s, step))
  {
    match step
    case DoBegin(verdict, written) => BeginKeeps(s, verdict, written);
    case DoSealCommit(saved, ok, told, written) => SealCommitKeeps(s, saved, ok, told, written);
    case DoRunHandler(effect) => RunHandlerKeeps(s, effect);
    case DoStreamFrame(response) => StreamFrameKeeps(s, response);
    case DoStreamEnd(ok) => StreamEndKeeps(s, ok);
    case DoMark(written) => MarkKeeps(s, written);
    case DoClose(ok, told, written) => CloseKeeps(s, ok, told, written);
    case DoFinish(ok) => FinishKeeps(s, ok);
    case DoReject(ok) => FinishKeeps(s, ok);
  }

  /** Only the place in the loop changes, to one that is sound. */
  ghost predicate Moves(s: State, t: State) {
    && t == s.(pc := t.pc, send := t.send) && !t.pc.Stopped? && !s.pc.Stopped? && t.send == s.send
    && (t.pc.Page? ==> At(s, t.pc.at, t.pc.end))
    && (t.pc.Keep? ==> At(s, t.pc.at, t.pc.end) && t.pc.at < t.pc.end)
    && (t.pc.Work? ==>
          && t.pc.op in s.inbox && t.pc.stage.Start?
          && (t.pc.ret.ToPage? ==>
                At(s, t.pc.ret.at, t.pc.ret.end) && t.pc.ret.at < t.pc.ret.end && s.relay[t.pc.ret.at].op == t.pc.op))
  }

  lemma MovesKeeps(s: State, t: State)
    requires Inv(s) && Moves(s, t)
    ensures Inv(t)
  {
    forall c ensures Committed(t, c) <==> Committed(s, c) { }
  }

  lemma AtNext(s: State, at: nat, end: nat)
    requires At(s, at, end) && at < end
    ensures Settled(s, s.relay[at]) ==> At(s, at + 1, end)
  {
  }

  lemma ReceiveMoves(s: State)
    requires Passed(s) && s.pc.Page? && s.pc.at < s.pc.end
    ensures Receive(s).pc.Stopped? || Moves(s, Receive(s))
  {
    AtNext(s, s.pc.at, s.pc.end);
  }

  lemma ReceiveKeeps(s: State)
    requires Inv(s)
    ensures Inv(Receive(s))
  {
    if s.pc.Page? && s.pc.at < s.pc.end {
      ReceiveMoves(s);
      if Receive(s).pc.Stopped? {
        assert Receive(s) == Crash(s);
      } else {
        MovesKeeps(s, Receive(s));
      }
    }
  }

  lemma KeepCommitKeeps(s: State, ok: bool)
    requires Inv(s)
    ensures Inv(KeepCommit(s, ok))
  {
    var t := KeepCommit(s, ok);
    forall c ensures Committed(t, c) <==> Committed(s, c) { }
  }

  lemma DrainKeeps(s: State, op: Id, end: nat)
    requires Inv(s)
    ensures Inv(Drain(s, op)) && Inv(Poll(s, end))
  {
    if s.pc.Idle? {
      MovesKeeps(s, Drain(s, op));
      MovesKeeps(s, Poll(s, end));
    }
  }

  lemma SetCursorKeeps(s: State, ok: bool)
    requires Inv(s)
    ensures Inv(SetCursor(s, ok))
  {
    var t := SetCursor(s, ok);
    forall c ensures Committed(t, c) <==> Committed(s, c) { }
  }

  lemma ArriveKeeps(s: State, m: Message)
    requires Inv(s)
    ensures Inv(Arrive(s, m))
  {
    var t := Arrive(s, m);
    forall c ensures Committed(t, c) <==> Committed(s, c) { }
  }

  /** Only wires and the snapshot's counter change, soundly. */
  lemma WiresKeep(s: State, t: State)
    requires Inv(s) && Ratchet(t) && Released(t)
    requires t == s.(counter := t.counter, send := t.send, wires := t.wires, released := t.released, sent := t.sent)
    ensures Inv(t)
  {
    forall c ensures Committed(t, c) <==> Committed(s, c) { }
  }

  lemma FlushRatchet(s: State, outOp: OutOp, marked: bool)
    requires Ratchet(s) && Released(s)
    ensures Ratchet(Flush(s, outOp, marked)) && Released(Flush(s, outOp, marked))
  {
  }

  lemma SendDirectRatchet(s: State, op: Id, body: Response, ok: bool)
    requires Ratchet(s) && Released(s)
    ensures Ratchet(SendDirect(s, op, body, ok)) && Released(SendDirect(s, op, body, ok))
  {
  }

  lemma OutgoingKeeps(s: State, outOp: OutOp, marked: bool, op: Id, body: Response, ok: bool)
    requires Inv(s)
    ensures Inv(Flush(s, outOp, marked)) && Inv(SendDirect(s, op, body, ok))
  {
    FlushRatchet(s, outOp, marked);
    WiresKeep(s, Flush(s, outOp, marked));
    SendDirectRatchet(s, op, body, ok);
    WiresKeep(s, SendDirect(s, op, body, ok));
  }

  lemma LoopKeeps(s: State, step: Loop)
    requires Inv(s)
    ensures Inv(NextLoop(s, step))
  {
    match step
    case DoBoot =>
    case DoCrash =>
    case DoArrive(m) => ArriveKeeps(s, m);
    case DoDrain(op) => DrainKeeps(s, op, 0);
    case DoPoll(end) => DrainKeeps(s, 0, end);
    case DoReceive => ReceiveKeeps(s);
    case DoKeepCommit(ok) => KeepCommitKeeps(s, ok);
    case DoSetCursor(ok) => SetCursorKeeps(s, ok);
    case DoFlush(op, marked) => OutgoingKeeps(s, op, marked, 0, Response(Frame, 0, false), false);
    case DoSendDirect(op, body, ok) => OutgoingKeeps(s, Direct(op), false, op, body, ok);
  }

  lemma StepKeeps(s: State, step: Step)
    requires Inv(s)
    ensures Inv(Next(s, step))
  {
    match step
    case Outer(loop) => LoopKeeps(s, loop);
    case Inner(rpc) => RpcKeeps(s, rpc);
  }

  lemma {:induction false} RunKeeps(steps: seq<Step>)
    ensures Inv(Run(Init(), steps))
    decreases |steps|
  {
    if steps != [] {
      RunKeeps(steps[..|steps| - 1]);
      StepKeeps(Run(Init(), steps[..|steps| - 1]), steps[|steps| - 1]);
    }
  }

  /** Ratchet safety, over every run with crashes anywhere: two different released
      ciphertexts never share a send generation, and every ciphertext released or
      waiting in the outbox lies below the durable snapshot's counter. */
  lemma NoGenerationTwice(steps: seq<Step>)
    ensures var s := Run(Init(), steps);
            && (forall v, w :: v in s.released && w in s.released && v.gen == w.gen ==> v == w)
            && (forall w :: w in s.released ==> w.gen < s.counter)
            && (forall op :: op in s.outbox ==> s.outbox[op].gen < s.counter)
            && (forall op, w :: op in s.outbox && w in s.released && s.outbox[op].gen == w.gen ==> s.outbox[op] == w)
  {
    RunKeeps(steps);
  }

  /** A handler runs at most once for a client id, whatever is replayed, restarted
      or lost; and a request that needed approval used a nonce of its own. */
  lemma HandlersRunOnce(steps: seq<Step>)
    ensures var s := Run(Init(), steps);
            && (forall i, j :: 0 <= i < j < |s.runs| ==> s.runs[i] != s.runs[j])
            && (forall i :: 0 <= i < |s.runs| ==> Committed(s, s.runs[i]))
            && (forall i, j :: 0 <= i < j < |s.commits| && s.commits[i].approval && s.commits[j].approval ==>
                  s.commits[i].nonce != s.commits[j].nonce && s.commits[i].nonce in s.grants)
  {
    RunKeeps(steps);
    var s := Run(Init(), steps);
    forall i | 0 <= i < |s.runs| ensures Committed(s, s.runs[i]) { assert s.runs[i] in s.intents; }
  }

  /** The cursor never passes a decoded message that is neither an own echo nor
      decided in the inbox. */
  lemma CursorPassesOnlySettled(steps: seq<Step>, i: nat)
    requires i < Run(Init(), steps).cursor
    ensures var s := Run(Init(), steps);
            i < |s.relay| && Settled(s, s.relay[i])
  {
    RunKeeps(steps);
  }

  lemma LoopKeepsIntents(s: State, step: Loop)
    ensures NextLoop(s, step).intents == s.intents && forall op :: op in s.outbox ==>
              op in NextLoop(s, step).outbox && NextLoop(s, step).outbox[op] == s.outbox[op]
  {
  }

  lemma OtherRpcKeepsIntents(s: State, step: Rpc)
    requires !step.DoBegin?
    ensures NextRpc(s, step).intents.Keys == s.intents.Keys
  {
    match step
    case DoSealCommit(saved, ok, told, written) => SealCommitKeepsIntents(s, saved, ok, told, written);
    case _ =>
  }

  lemma OnwardTables(t: State, ok: bool, told: bool, written: bool)
    requires Working(t) && t.pc.stage.Sealing?
    ensures Onward(t, ok, told, written).outbox == t.outbox && Onward(t, ok, told, written).intents == t.intents
  {
  }

  lemma SealCommitKeepsIntents(s: State, saved: bool, ok: bool, told: bool, written: bool)
    ensures SealCommit(s, saved, ok, told, written).intents == s.intents
  {
    if Working(s) && s.pc.stage.Sealing? && s.send > 0 {
      OnwardTables(if saved then Saved(s) else s, saved && ok, told, written);
    }
  }

  /** The intent and its grant appear in the same step, and only for a client
      without one; an approved client's nonce was fresh. */
  lemma IntentsComeWithGrants(s: State, step: Step)
    requires Next(s, step).intents.Keys != s.intents.Keys
    ensures Working(s)
    ensures var t := Next(s, step);
            var req := Request0(s);
            && req.client !in s.intents && t.intents.Keys == s.intents.Keys + {req.client}
            && (req.approval ==> req.nonce !in s.grants && req.nonce in t.grants)
            && t.runs == s.runs
  {
    match step
    case Outer(loop) => LoopKeepsIntents(s, loop);
    case Inner(rpc) =>
      if !rpc.DoBegin? {
        OtherRpcKeepsIntents(s, rpc);
      }
  }

  /** Later steps keep an outbox entry as it is: its ciphertext is never replaced. */
  lemma {:induction false} OutboxIsKept(s: State, steps: seq<Step>, op: OutOp)
    requires op in s.outbox
    ensures op in Run(s, steps).outbox && Run(s, steps).outbox[op] == s.outbox[op]
    decreases |steps|
  {
    if steps != [] {
      OutboxIsKept(s, steps[..|steps| - 1], op);
      OutboxStep(Run(s, steps[..|steps| - 1]), steps[|steps| - 1], op);
    }
  }

  lemma OutboxStep(s: State, step: Step, op: OutOp)
    requires op in s.outbox
    ensures op in Next(s, step).outbox && Next(s, step).outbox[op] == s.outbox[op]
  {
    match step
    case Outer(loop) => LoopKeepsIntents(s, loop);
    case Inner(rpc) => RpcKeepsOutbox(s, rpc, op);
  }

  lemma RpcKeepsOutbox(s: State, step: Rpc, op: OutOp)
    requires op in s.outbox
    ensures op in NextRpc(s, step).outbox && NextRpc(s, step).outbox[op] == s.outbox[op]
  {
    match step
    case DoSealCommit(saved, ok, told, written) => SealCommitKeepsOutbox(s, saved, ok, told, written, op);
    case _ =>
  }

  lemma SealCommitKeepsOutbox(s: State, saved: bool, ok: bool, told: bool, written: bool, op: OutOp)
    requires op in s.outbox
    ensures var t := SealCommit(s, saved, ok, told, written); op in t.outbox && t.outbox[op] == s.outbox[op]
  {
    if Working(s) && s.pc.stage.Sealing? && s.send > 0 {
      OnwardTables(if saved then Saved(s) else s, saved && ok, told, written);
    }
  }

  /** Step `k` committed this intent: the checks had passed, for a pending request of
      the inbox whose client had none and whose nonce, if it needed one, was unused. */
  ghost predicate CommittedAt(steps: seq<Step>, k: nat, c: Commit) {
    && k < |steps| && steps[k].Inner? && steps[k].rpc.DoBegin? && steps[k].rpc.verdict == Good
    && var p := Run(Init(), steps[..k]);
    && p.pc.Work? && p.pc.stage == Start && p.pc.op in p.inbox && p.inbox[p.pc.op].status == Pending
    && var req := p.inbox[p.pc.op].request;
    && c == Commit(req.client, req.approval, req.nonce)
    && req.client !in p.intents && (req.approval ==> req.nonce !in p.grants)
  }

  lemma OtherRpcKeepsCommits(s: State, step: Rpc)
    requires !step.DoBegin?
    ensures NextRpc(s, step).commits == s.commits
  {
    match step
    case DoSealCommit(saved, ok, told, written) =>
      if Working(s) && s.pc.stage.Sealing? && s.send > 0 {
        OnwardCommits(if saved then Saved(s) else s, saved && ok, told, written);
      }
    case _ =>
  }

  lemma OnwardCommits(t: State, ok: bool, told: bool, written: bool)
    requires Working(t) && t.pc.stage.Sealing?
    ensures Onward(t, ok, told, written).commits == t.commits
  {
  }

  /** An intent is committed by a begin whose checks passed, and by nothing else. */
  lemma BeginCommits(s: State, verdict: Verdict, written: bool)
    ensures var t := Begin(s, verdict, written);
            t.commits == s.commits
            || (&& verdict == Good && s.pc.Work? && s.pc.stage == Start && s.pc.op in s.inbox && s.inbox[s.pc.op].status == Pending
                && var req := s.inbox[s.pc.op].request;
                && t.commits == s.commits + [Commit(req.client, req.approval, req.nonce)]
                && req.client !in s.intents && (req.approval ==> req.nonce !in s.grants)
                && t.intents == s.intents[req.client := Intent(req.hash, Dispatched, [])])
  {
  }

  /** Every run: each intent was committed after its checks had passed. */
  lemma {:induction false} EveryIntentWasChecked(steps: seq<Step>, i: nat)
    requires i < |Run(Init(), steps).commits|
    ensures exists k: nat :: CommittedAt(steps, k, Run(Init(), steps).commits[i])
    decreases |steps|
  {
    if steps != [] {
      var n := |steps| - 1;
      var s := Run(Init(), steps[..n]);
      StepCommits(s, steps[n]);
      if i < |s.commits| {
        EveryIntentWasChecked(steps[..n], i);
        var k: nat :| CommittedAt(steps[..n], k, s.commits[i]);
        assert steps[..n][..k] == steps[..k];
        assert CommittedAt(steps, k, s.commits[i]);
      } else {
        assert CommittedAt(steps, n, Run(Init(), steps).commits[i]);
      }
    }
  }

  lemma StepCommits(s: State, step: Step)
    ensures var t := Next(s, step);
            && s.commits <= t.commits
            && (t.commits != s.commits ==>
                  && step.Inner? && step.rpc.DoBegin? && t == Begin(s, step.rpc.verdict, step.rpc.written))
            && |t.commits| <= |s.commits| + 1
    ensures Next(s, step).commits != s.commits ==>
              && step.rpc.verdict == Good && s.pc.Work? && s.pc.stage == Start && s.pc.op in s.inbox && s.inbox[s.pc.op].status == Pending
              && var req := s.inbox[s.pc.op].request;
              && Next(s, step).commits == s.commits + [Commit(req.client, req.approval, req.nonce)]
              && req.client !in s.intents && (req.approval ==> req.nonce !in s.grants)
  {
    match step
    case Outer(loop) => LoopKeepsCommits(s, loop);
    case Inner(rpc) =>
      if rpc.DoBegin? {
        BeginCommits(s, rpc.verdict, rpc.written);
      } else {
        OtherRpcKeepsCommits(s, rpc);
      }
  }

  lemma LoopKeepsCommits(s: State, step: Loop)
    ensures NextLoop(s, step).commits == s.commits
  {
  }

  /** Hence every handler run goes back to such a step, with its own client. */
  lemma EveryRunWasChecked(steps: seq<Step>, i: nat)
    requires i < |Run(Init(), steps).runs|
    ensures exists k: nat, c: Commit :: CommittedAt(steps, k, c) && c.client == Run(Init(), steps).runs[i]
  {
    HandlersRunOnce(steps);
    var s := Run(Init(), steps);
    assert Committed(s, s.runs[i]);
    var j: nat :| j < |s.commits| && s.commits[j].client == s.runs[i];
    EveryIntentWasChecked(steps, j);
  }

  /** A message the endpoint may take in: decoded, not its own, of the current epoch,
      and opened. */
  ghost predicate Genuine(s: State, i: nat, op: Id) {
    && i < |s.relay| && s.relay[i].op == op
    && s.relay[i].decoded && !s.relay[i].own && s.relay[i].epochOk && s.relay[i].opens
  }

  ghost predicate Came(s: State, op: Id)
    requires op in s.inbox
  {
    exists i: nat :: Genuine(s, i, op) && s.relay[i].sender == s.inbox[op].sender && s.relay[i].request == s.inbox[op].request
  }

  ghost predicate Provenance(s: State) {
    && (forall op :: op in s.inbox ==> Came(s, op))
    && (s.pc.Keep? ==> s.pc.at < |s.relay| && Genuine(s, s.pc.at, s.relay[s.pc.at].op))
  }

  /** The same relay and inbox, but for decisions. */
  lemma ProvenanceKept(s: State, t: State)
    requires Provenance(s) && s.relay <= t.relay && t.inbox.Keys == s.inbox.Keys
    requires forall op :: op in s.inbox ==> t.inbox[op].sender == s.inbox[op].sender && t.inbox[op].request == s.inbox[op].request
    requires t.pc.Keep? ==> t.pc.at < |t.relay| && Genuine(t, t.pc.at, t.relay[t.pc.at].op)
    ensures Provenance(t)
  {
    forall op | op in t.inbox ensures Came(t, op) {
      assert Came(s, op);
      var i: nat :| Genuine(s, i, op) && s.relay[i].sender == s.inbox[op].sender && s.relay[i].request == s.inbox[op].request;
      assert Genuine(t, i, op);
    }
  }

  lemma KeepCommitProvenance(s: State, ok: bool)
    requires Provenance(s)
    ensures Provenance(KeepCommit(s, ok))
  {
    var t := KeepCommit(s, ok);
    if s.pc.Keep? && ok {
      forall op | op in t.inbox ensures Came(t, op) {
        if op in s.inbox {
          assert Came(s, op);
          var i: nat :| Genuine(s, i, op) && s.relay[i].sender == s.inbox[op].sender && s.relay[i].request == s.inbox[op].request;
          assert Genuine(t, i, op);
        } else {
          assert Genuine(t, s.pc.at, op);
        }
      }
    } else {
      ProvenanceKept(s, t);
    }
  }

  ghost predicate InboxStays(s: State, t: State) {
    && s.relay <= t.relay && t.inbox.Keys == s.inbox.Keys
    && (forall op :: op in s.inbox ==> t.inbox[op].sender == s.inbox[op].sender && t.inbox[op].request == s.inbox[op].request)
  }

  lemma BeginInbox(s: State, verdict: Verdict, written: bool)
    ensures var t := Begin(s, verdict, written); InboxStays(s, t) && (t.pc.Keep? ==> t == s)
  {
  }

  lemma SealCommitInbox(s: State, saved: bool, ok: bool, told: bool, written: bool)
    ensures var t := SealCommit(s, saved, ok, told, written); InboxStays(s, t) && (t.pc.Keep? ==> t == s)
  {
    if Working(s) && s.pc.stage.Sealing? && s.send > 0 {
      var t := if saved then Saved(s) else s;
      assert t.pc == s.pc && t.inbox == s.inbox && t.relay == s.relay;
      OnwardInbox(t, saved && ok, told, written);
    }
  }

  lemma RpcInbox(s: State, step: Rpc)
    ensures InboxStays(s, NextRpc(s, step)) && (NextRpc(s, step).pc.Keep? ==> NextRpc(s, step) == s)
  {
    match step
    case DoBegin(verdict, written) => BeginInbox(s, verdict, written);
    case DoSealCommit(saved, ok, told, written) => SealCommitInbox(s, saved, ok, told, written);
    case _ =>
  }

  lemma OnwardInbox(t: State, ok: bool, told: bool, written: bool)
    requires Working(t) && t.pc.stage.Sealing?
    ensures InboxStays(t, Onward(t, ok, told, written)) && !Onward(t, ok, told, written).pc.Keep?
  {
  }

  lemma LoopInbox(s: State, step: Loop)
    requires !step.DoKeepCommit? && Provenance(s)
    ensures var t := NextLoop(s, step);
            InboxStays(s, t) && (t.pc.Keep? ==> t.pc.at < |t.relay| && Genuine(t, t.pc.at, t.relay[t.pc.at].op))
  {
  }

  lemma {:induction false} RunProvenance(steps: seq<Step>)
    ensures Provenance(Run(Init(), steps))
    decreases |steps|
  {
    if steps != [] {
      RunProvenance(steps[..|steps| - 1]);
      var s, step := Run(Init(), steps[..|steps| - 1]), steps[|steps| - 1];
      match step
      case Outer(DoKeepCommit(ok)) => KeepCommitProvenance(s, ok);
      case Outer(loop) =>
        LoopInbox(s, loop);
        ProvenanceKept(s, NextLoop(s, loop));
      case Inner(rpc) =>
        RpcInbox(s, rpc);
        ProvenanceKept(s, NextRpc(s, rpc));
    }
  }

  /** Every run: each inbox row is some relay message's own sender and request, and
      that message was for this endpoint, of its epoch, and could be opened. */
  lemma InboxIsGenuine(steps: seq<Step>, op: Id)
    requires op in Run(Init(), steps).inbox
    ensures var s := Run(Init(), steps);
            exists i: nat :: Genuine(s, i, op) && s.relay[i].sender == s.inbox[op].sender && s.relay[i].request == s.inbox[op].request
  {
    RunProvenance(steps);
    assert Came(Run(Init(), steps), op);
  }

  /** The request's client is bound to its hash. */
  predicate Bound(s: State, req: Request) {
    req.client in s.intents && s.intents[req.client].hash == req.hash
  }

  predicate PastChecks(stage: Stage) {
    !stage.Start? && !stage.Rejecting? && !(stage.Sealing? && stage.after.ThenReject?)
  }

  predicate PastRun(stage: Stage) {
    || stage.Streaming? || (stage.Closing? && stage.outcome.Completed?)
    || (stage.Sealing? && (stage.after.ThenStream? || stage.after.ThenClose?))
  }

  /** Answers are for the request that has its client's intent, and a completed intent
      is one whose handler ran. */
  ghost predicate Truthful(s: State) {
    && (forall op :: op in s.inbox && (s.inbox[op].status.Done? || s.inbox[op].status.Undecided?) ==> Bound(s, s.inbox[op].request))
    && (forall client :: client in s.intents && s.intents[client].status.Completed? ==> client in s.runs)
    && (s.pc.Work? ==>
          && s.pc.op in s.inbox
          && (PastChecks(s.pc.stage) ==> Bound(s, Request0(s)))
          && (s.pc.stage.Finishing? ==> s.pc.stage.status.Done? || s.pc.stage.status.Undecided?)
          && (PastRun(s.pc.stage) ==> Request0(s).client in s.runs))
  }

  lemma BeginTruthful(s: State, verdict: Verdict, written: bool)
    requires Truthful(s)
    ensures Truthful(Begin(s, verdict, written))
  {
  }

  lemma OnwardTruthful(t: State, ok: bool, told: bool, written: bool)
    requires Truthful(t) && Working(t) && t.pc.stage.Sealing?
    ensures Truthful(Onward(t, ok, told, written))
  {
  }

  lemma SealCommitTruthful(s: State, saved: bool, ok: bool, told: bool, written: bool)
    requires Truthful(s)
    ensures Truthful(SealCommit(s, saved, ok, told, written))
  {
    if Working(s) && s.pc.stage.Sealing? && s.send > 0 {
      var t := if saved then Saved(s) else s;
      assert t.pc == s.pc && t.inbox == s.inbox && t.intents == s.intents && t.runs == s.runs;
      OnwardTruthful(t, saved && ok, told, written);
    }
  }

  lemma CloseTruthful(s: State, ok: bool, told: bool, written: bool)
    requires Truthful(s)
    ensures Truthful(Close(s, ok, told, written))
  {
  }

  lemma FinishTruthful(s: State, ok: bool)
    requires Truthful(s)
    ensures Truthful(Finish(s, ok)) && Truthful(Reject(s, ok))
  {
  }

  lemma RpcTruthful(s: State, step: Rpc)
    requires Truthful(s)
    ensures Truthful(NextRpc(s, step))
  {
    match step
    case DoBegin(verdict, written) => BeginTruthful(s, verdict, written);
    case DoSealCommit(saved, ok, told, written) => SealCommitTruthful(s, saved, ok, told, written);
    case DoClose(ok, told, written) => CloseTruthful(s, ok, told, written);
    case DoFinish(ok) => FinishTruthful(s, ok);
    case DoReject(ok) => FinishTruthful(s, ok);
    case _ =>
  }

  lemma LoopTruthful(s: State, step: Loop)
    requires Truthful(s)
    ensures Truthful(NextLoop(s, step))
  {
  }

  lemma {:induction false} RunTruthful(steps: seq<Step>)
    ensures Truthful(Run(Init(), steps))
    decreases |steps|
  {
    if steps != [] {
      RunTruthful(steps[..|steps| - 1]);
      match steps[|steps| - 1]
      case Outer(loop) => LoopTruthful(Run(Init(), steps[..|steps| - 1]), loop);
      case Inner(rpc) => RpcTruthful(Run(Init(), steps[..|steps| - 1]), rpc);
    }
  }

  /** Every run: a request answered or left undecided is the one its client's intent is
      for, and an intent is complete only after its handler has run. */
  lemma AnswersAreTruthful(steps: seq<Step>)
    ensures var s := Run(Init(), steps);
            && (forall op :: op in s.inbox && (s.inbox[op].status == Done || s.inbox[op].status == Undecided) ==>
                  var req := s.inbox[op].request; req.client in s.intents && s.intents[req.client].hash == req.hash)
            && (forall client :: client in s.intents && s.intents[client].status == Completed ==> client in s.runs)
  {
    RunTruthful(steps);
  }
}
