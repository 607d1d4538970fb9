/** The AI effect gate: a durable request must be approved, unexpired and within
    budget to be dispatched, and is dispatched once whatever restarts, deletes,
    revocations and retries happen around it. */
module PolicyGate {
  import opened Basics
  import L = Ledger

  type RequestId = L.RequestId

  datatype Status = Awaiting | Approved | Dispatched | Uncertain | Completed | Expired | Cancelled

  datatype JobStatus = Queued | Running | AwaitingApproval | UncertainJob | Failed | Succeeded | CancelledJob

  /** What the request hash covers: the content and the frozen price. */
  datatype Effect = Effect(content: int, price: L.Price)

  datatype Request = Request(chat: Id, effect: Effect, status: Status, expires: int)

  /** A signed approval. Its nonce is required and doubles as the grant id. */
  datatype Token = Token(nonce: Id, request: RequestId, effect: Effect, expires: int, serial: int)

  datatype Grant = Grant(token: Token, used: bool, revoked: bool)

  /** History: which requests were dispatched, and with which nonce. */
  datatype Dispatch = Dispatch(id: RequestId, required: bool, nonce: Option<Id>)

  datatype State = State(
    requests: map<RequestId, Request>, grants: seq<Grant>, revoked: set<Id>, jobs: map<Id, JobStatus>,
    books: L.Books, log: seq<Dispatch>)

  /** What a call finds around it: the clock, whether the policy requires approval
      now, and whether source, AI account, epoch and session still match. */
  datatype Call = Call(now: int, ttl: nat, required: bool, authorized: bool, chat: Id, user: Id, source: Id, day: int)

  datatype Outcome = Pending | Go | Refused

  function Init(jobs: map<Id, JobStatus>): State {
    State(map[], [], {}, jobs, L.Books(map[], []), [])
  }

  predicate Has(s: State, id: RequestId, status: Status) {
    id in s.requests && s.requests[id].status == status
  }

  predicate JobIs(s: State, job: Id, status: JobStatus) {
    job in s.jobs && s.jobs[job] == status
  }

  function MoveJob(s: State, job: Id, from: set<JobStatus>, to: JobStatus): State {
    if job in s.jobs && s.jobs[job] in from then s.(jobs := s.jobs[job := to]) else s
  }

  function WithStatus(s: State, id: RequestId, status: Status): State
    requires id in s.requests
  {
    s.(requests := s.requests[id := s.requests[id].(status := status)])
  }

  /** The request's latest grant. */
  function GrantOf(grants: seq<Grant>, id: RequestId): (r: Option<nat>)
    ensures r.Some? ==> r.value < |grants| && grants[r.value].token.request == id
    ensures r.None? ==> forall i :: 0 <= i < |grants| ==> grants[i].token.request != id
  {
    if grants == [] then None
    else if grants[|grants| - 1].token.request == id then Some(|grants| - 1)
    else GrantOf(grants[..|grants| - 1], id)
  }

  predicate Matches(t: Token, id: RequestId, effect: Effect, now: int) {
    t.request == id && t.effect == effect && t.expires > now
  }

  /** Consuming the grant: it must be unused, unrevoked by id and by nonce, and
      its token must still match. */
  function Consume(s: State, id: RequestId, effect: Effect, now: int): Option<(State, Id)> {
    var g := GrantOf(s.grants, id);
    if g.None? then None
    else
      var grant := s.grants[g.value];
      if grant.used || grant.revoked || grant.token.nonce in s.revoked || !Matches(grant.token, id, effect, now) then None
      else Some((s.(grants := s.grants[g.value := grant.(used := true)]), grant.token.nonce))
  }

  /** Dispatching inside the transaction; nothing of it survives a failure. */
  function DispatchTx(cfg: L.Config, s: State, id: RequestId, effect: Effect, call: Call): Option<State>
    requires id in s.requests
  {
    if s.requests[id].expires <= call.now then None
    else
      var consumed := if call.required then Consume(s, id, effect, call.now) else Some((s, 0));
      if consumed.None? then None
      else
        var booked := L.Reserve(cfg, s.books, id, effect.price, call.user, call.source, call.day);
        if booked.None? then None
        else
          var t := WithStatus(consumed.value.0, id, Dispatched);
          Some(t.(books := booked.value,
                  log := s.log + [Dispatch(id, call.required, if call.required then Some(consumed.value.1) else None)]))
  }

  function Inserted(s: State, id: RequestId, effect: Effect, call: Call, status: Status): (t: State)
    ensures id in t.requests
  {
    s.(requests := s.requests[id := Request(call.chat, effect, status, call.now + Max(call.ttl, 1))])
  }

  /** A first request: pending approval, or dispatched at once. */
  function BeginFresh(cfg: L.Config, s: State, id: RequestId, effect: Effect, call: Call): (State, Outcome) {
    if call.required then (MoveJob(Inserted(s, id, effect, call, Awaiting), id.job, {Running}, AwaitingApproval), Pending)
    else
      var d := DispatchTx(cfg, Inserted(s, id, effect, call, Approved), id, effect, call);
      if d.None? then (s, Refused) else (d.value, Go)
  }

  /** A repeated request goes on only from `approved`, with the same content. */
  function BeginKnown(cfg: L.Config, s: State, id: RequestId, effect: Effect, call: Call): (State, Outcome)
    requires id in s.requests
  {
    if s.requests[id].effect != effect then (s, Refused)
    else if s.requests[id].status.Awaiting? then (s, Pending)
    else if !s.requests[id].status.Approved? then (s, Refused)
    else
      var d := DispatchTx(cfg, s, id, effect, call);
      if d.Some? then (d.value, Go)
      else (s, if call.required && s.requests[id].expires > call.now && GrantOf(s.grants, id).None? then Pending else Refused)
  }

  /** Asking to perform an effect. */
  function Begin(cfg: L.Config, s: State, id: RequestId, effect: Effect, call: Call): (State, Outcome) {
    if effect.price.reserve < 0 || !JobIs(s, id.job, Running) || !call.authorized then (s, Refused)
    else if id !in s.requests then BeginFresh(cfg, s, id, effect, call)
    else BeginKnown(cfg, s, id, effect, call)
  }

  /** A verified approval token arrives; repeats and late ones change nothing. */
  function Approve(s: State, t: Token, valid: bool, authorized: bool, now: int): State {
    if !valid || !Has(s, t.request, Awaiting) || s.requests[t.request].expires <= now then s
    else if !JobIs(s, t.request.job, AwaitingApproval) || !authorized then s
    else if !Matches(t, t.request, s.requests[t.request].effect, now) then s
    else if t.nonce in s.revoked || (exists g :: g in s.grants && g.token.nonce == t.nonce) then s
    else
      MoveJob(WithStatus(s.(grants := s.grants + [Grant(t, false, false)]), t.request, Approved),
              t.request.job, {AwaitingApproval}, Queued)
  }

  function RevokeEach(grants: seq<Grant>, nonce: Id): seq<Grant> {
    seq(|grants|, i requires 0 <= i < |grants| =>
      if grants[i].token.nonce == nonce then grants[i].(revoked := true) else grants[i])
  }

  /** Revocation by grant id, known or not yet known. */
  function Revoke(s: State, nonce: Id): State {
    s.(revoked := s.revoked + {nonce}, grants := RevokeEach(s.grants, nonce))
  }

  predicate Lapsed(s: State, id: RequestId, now: int) {
    id in s.requests && (s.requests[id].status.Awaiting? || s.requests[id].status.Approved?) && s.requests[id].expires <= now
  }

  function ExpireOne(s: State, id: RequestId, now: int): State {
    if Lapsed(s, id, now) then
      MoveJob(WithStatus(s, id, Expired), id.job, {Queued, AwaitingApproval}, Failed)
    else s
  }

  /** A bounded cleanup pass over expired approvals, in the order it read them. */
  function Expire(s: State, ids: seq<RequestId>, now: int): State {
    if ids == [] then s else ExpireOne(Expire(s, ids[..|ids| - 1], now), ids[|ids| - 1], now)
  }

  /** Deleting a message of a chat cancels the chat's requests still to be sent. */
  function Delete(s: State, chat: Id): State {
    s.(requests := map id | id in s.requests ::
         var r := s.requests[id];
         if r.chat == chat && (r.status.Awaiting? || r.status.Approved?) then r.(status := Cancelled) else r)
  }

  function Unsure(s: State): map<RequestId, Request> {
    map id | id in s.requests ::
      if s.requests[id].status.Dispatched? then s.requests[id].(status := Uncertain) else s.requests[id]
  }

  /** Startup: whatever was in flight has an unknown outcome. */
  function Restart(s: State): State {
    var requests := Unsure(s);
    s.(requests := requests,
       jobs := map job | job in s.jobs ::
         if s.jobs[job].Running? && (exists id :: id in requests && id.job == job && requests[id].status.Uncertain?)
         then UncertainJob else s.jobs[job])
  }

  /** Settling; a completed request stays as it is. */
  function Settle(s: State, id: RequestId, usage: L.Usage, success: bool): (State, bool) {
    if id !in s.requests then (s, false)
    else if s.requests[id].status.Completed? then (s, true)
    else if !(s.requests[id].status.Dispatched? || s.requests[id].status.Uncertain?) || s.requests[id].effect.price.reserve < 0 then (s, false)
    else
      var r := L.Settle(s.books, id, s.requests[id].effect.price, usage, success);
      if r.None? then (s, false)
      else (WithStatus(s, id, if r.value.1 then Completed else Uncertain).(books := r.value.0), true)
  }

  /** `SetJob` is every other way the job tables change: claims, results, failures
      and cancellations, at any time. */
  datatype Step =
    | DoBegin(id: RequestId, effect: Effect, call: Call)
    | DoApprove(token: Token, valid: bool, authorized: bool, now: int)
    | DoRevoke(nonce: Id)
    | DoExpire(ids: seq<RequestId>, now: int)
    | DoDelete(chat: Id)
    | DoRestart
    | DoSettle(id: RequestId, usage: L.Usage, success: bool)
    | SetJob(job: Id, status: JobStatus)

  function Next(cfg: L.Config, s: State, step: Step): State {
    match step
    case DoBegin(id, effect, call) => Begin(cfg, s, id, effect, call).0
    case DoApprove(token, valid, authorized, now) => Approve(s, token, valid, authorized, now)
    case DoRevoke(nonce) => Revoke(s, nonce)
    case DoExpire(ids, now) => Expire(s, ids, now)
    case DoDelete(chat) => Delete(s, chat)
    case DoRestart => Restart(s)
    case DoSettle(id, usage, success) => Settle(s, id, usage, success).0
    case SetJob(job, status) => s.(jobs := s.jobs[job := status])
  }

  function Run(cfg: L.Config, s: State, steps: seq<Step>): State {
    if steps == [] then s else Next(cfg, Run(cfg, s, steps[..|steps| - 1]), steps[|steps| - 1])
  }

  predicate Sent(status: Status) {
    status.Dispatched? || status.Uncertain? || status.Completed?
  }

  ghost predicate Logged(s: State, id: RequestId) {
    exists i :: 0 <= i < |s.log| && s.log[i].id == id
  }

  /** The history and the statuses agree: one dispatch per sent request. */
  ghost predicate LogOk(s: State) {
    && (forall i, j :: 0 <= i < j < |s.log| ==> s.log[i].id != s.log[j].id)
    && (forall i :: 0 <= i < |s.log| ==> s.log[i].id in s.requests)
    && (forall id :: id in s.requests ==> (Sent(s.requests[id].status) <==> Logged(s, id)))
  }

  /** A nonce has one grant, and so has a request, which left `awaiting` with it. */
  ghost predicate GrantsOk(s: State) {
    && (forall i, j :: 0 <= i < j < |s.grants| ==>
          s.grants[i].token.nonce != s.grants[j].token.nonce && s.grants[i].token.request != s.grants[j].token.request)
    && (forall i :: 0 <= i < |s.grants| ==>
          s.grants[i].token.request in s.requests && !s.requests[s.grants[i].token.request].status.Awaiting?)
  }

  ghost predicate Consumed(s: State, d: Dispatch) {
    exists i :: 0 <= i < |s.grants| && s.grants[i].used && s.grants[i].token.request == d.id && d.nonce == Some(s.grants[i].token.nonce)
  }

  /** Exactly the dispatches that needed approval consumed a grant of their own,
      and a used grant is behind one of them. */
  ghost predicate UsesOk(s: State) {
    && (forall i :: 0 <= i < |s.log| ==> s.log[i].required == s.log[i].nonce.Some?)
    && (forall i :: 0 <= i < |s.log| && s.log[i].required ==> Consumed(s, s.log[i]))
    && (forall i :: 0 <= i < |s.grants| && s.grants[i].used ==> Logged(s, s.grants[i].token.request))
  }

  predicate RowOk(s: State, row: L.Entry) {
    && row.request in s.requests
    && row.price == s.requests[row.request].effect.price
    && Sent(s.requests[row.request].status)
    && (row.status.Completed? <==> s.requests[row.request].status.Completed?)
  }

  /** The ledger is sound and its rows follow their requests. */
  ghost predicate BooksOk(cfg: L.Config, s: State) {
    && L.Sound(cfg, s.books)
    && (forall i :: 0 <= i < |s.books.rows| ==> RowOk(s, s.books.rows[i]))
    && (forall id :: id in s.requests ==> s.requests[id].effect.price.reserve >= 0)
  }

  /** A request that was sent has a ledger row in each scope. */
  ghost predicate FullyBooked(s: State) {
    forall id :: id in s.requests && Sent(s.requests[id].status) ==> BookedEverywhere(s.books, id)
  }

  ghost predicate BookedEverywhere(b: L.Books, id: RequestId) {
    forall scope: L.Scope :: L.Booked(b, id, scope)
  }

  ghost predicate Inv(cfg: L.Config, s: State) {
    LogOk(s) && GrantsOk(s) && UsesOk(s) && BooksOk(cfg, s) && FullyBooked(s)
  }

  predicate Moves(r: Request, after: Request) {
    && after.effect == r.effect && after.chat == r.chat && Sent(after.status) == Sent(r.status)
    && after.status.Completed? == r.status.Completed? && (after.status.Awaiting? ==> r.status.Awaiting?)
  }

  ghost predicate SameUses(s: State, t: State) {
    && |t.grants| == |s.grants|
    && forall i :: 0 <= i < |s.grants| ==> t.grants[i].token == s.grants[i].token && t.grants[i].used == s.grants[i].used
  }

  /** A step that neither sends nor settles. */
  ghost predicate Quiet(s: State, t: State) {
    && t.log == s.log && t.books == s.books && SameUses(s, t)
    && (forall id :: id in s.requests ==> id in t.requests && Moves(s.requests[id], t.requests[id]))
    && (forall id :: id in t.requests && id !in s.requests ==> !Sent(t.requests[id].status) && t.requests[id].effect.price.reserve >= 0)
  }

  lemma QuietKeeps(cfg: L.Config, s: State, t: State)
    requires Inv(cfg, s) && Quiet(s, t)
    ensures Inv(cfg, t)
  {
  }

  lemma MoveJobKeeps(cfg: L.Config, s: State, job: Id, from: set<JobStatus>, to: JobStatus)
    requires Inv(cfg, s)
    ensures Inv(cfg, MoveJob(s, job, from, to))
  {
    QuietKeeps(cfg, s, MoveJob(s, job, from, to));
  }

  lemma ApproveKeeps(cfg: L.Config, s: State, t: Token, valid: bool, authorized: bool, now: int)
    requires Inv(cfg, s)
    ensures Inv(cfg, Approve(s, t, valid, authorized, now))
  {
    if Approve(s, t, valid, authorized, now) != s {
      var u := WithStatus(s, t.request, Approved);
      QuietKeeps(cfg, s, u);
      var v := u.(grants := u.grants + [Grant(t, false, false)]);
      forall i | 0 <= i < |s.grants| ensures s.grants[i].token.nonce != t.nonce && s.grants[i].token.request != t.request {
        assert s.grants[i] in s.grants;
      }
      AppendGrantKeeps(cfg, u, v, t);
      MoveJobKeeps(cfg, v, t.request.job, {AwaitingApproval}, Queued);
    }
  }

  lemma AppendGrantKeeps(cfg: L.Config, u: State, v: State, t: Token)
    requires Inv(cfg, u) && v == u.(grants := u.grants + [Grant(t, false, false)])
    requires t.request in u.requests && !u.requests[t.request].status.Awaiting?
    requires forall i :: 0 <= i < |u.grants| ==> u.grants[i].token.nonce != t.nonce && u.grants[i].token.request != t.request
    ensures Inv(cfg, v)
  {
    forall id ensures Logged(v, id) <==> Logged(u, id) { }
    forall i | 0 <= i < |v.log| && v.log[i].required ensures Consumed(v, v.log[i]) {
      assert Consumed(u, u.log[i]);
      var k :| 0 <= k < |u.grants| && u.grants[k].used && u.grants[k].token.request == u.log[i].id && u.log[i].nonce == Some(u.grants[k].token.nonce);
      assert v.grants[k] == u.grants[k];
    }
    forall i | 0 <= i < |v.books.rows| ensures RowOk(v, v.books.rows[i]) { assert RowOk(u, u.books.rows[i]); }
  }

  lemma RevokeKeeps(cfg: L.Config, s: State, nonce: Id)
    requires Inv(cfg, s)
    ensures Inv(cfg, Revoke(s, nonce))
  {
    QuietKeeps(cfg, s, Revoke(s, nonce));
  }

  lemma {:induction false} ExpireKeeps(cfg: L.Config, s: State, ids: seq<RequestId>, now: int)
    requires Inv(cfg, s)
    ensures Inv(cfg, Expire(s, ids, now))
    decreases |ids|
  {
    if ids != [] {
      var n := |ids| - 1;
      ExpireKeeps(cfg, s, ids[..n], now);
      QuietKeeps(cfg, Expire(s, ids[..n], now), ExpireOne(Expire(s, ids[..n], now), ids[n], now));
    }
  }

  lemma RestartKeeps(cfg: L.Config, s: State)
    requires Inv(cfg, s)
    ensures Inv(cfg, Restart(s))
  {
    QuietKeeps(cfg, s, Restart(s));
  }

  lemma DeleteKeeps(cfg: L.Config, s: State, chat: Id)
    requires Inv(cfg, s)
    ensures Inv(cfg, Delete(s, chat))
  {
    QuietKeeps(cfg, s, Delete(s, chat));
  }

  ghost predicate Dispatchable(s: State, id: RequestId, effect: Effect) {
    && id in s.requests && s.requests[id].status.Approved? && s.requests[id].effect == effect
    && effect.price.reserve >= 0
  }

  lemma DispatchUses(cfg: L.Config, s: State, id: RequestId, effect: Effect, call: Call)
    requires GrantsOk(s) && UsesOk(s) && Dispatchable(s, id, effect) && DispatchTx(cfg, s, id, effect, call).Some?
    ensures GrantsOk(DispatchTx(cfg, s, id, effect, call).value) && UsesOk(DispatchTx(cfg, s, id, effect, call).value)
  {
    var t := DispatchTx(cfg, s, id, effect, call).value;
    var n := |s.log|;
    assert t.log[n].id == id && Logged(t, id);
    forall i | 0 <= i < n && t.log[i].required ensures Consumed(t, t.log[i]) {
      assert t.log[i] == s.log[i] && Consumed(s, s.log[i]);
      var k :| 0 <= k < |s.grants| && s.grants[k].used && s.grants[k].token.request == s.log[i].id && s.log[i].nonce == Some(s.grants[k].token.nonce);
      assert t.grants[k] == s.grants[k];
    }
    if call.required {
      var g := GrantOf(s.grants, id).value;
      assert t.grants[g].used && t.grants[g].token.request == id;
      assert Consumed(t, t.log[n]);
    }
    forall i | 0 <= i < |t.grants| && t.grants[i].used ensures Logged(t, t.grants[i].token.request) {
      if s.grants[i].used {
        assert Logged(s, s.grants[i].token.request);
        var k :| 0 <= k < n && s.log[k].id == s.grants[i].token.request;
        assert t.log[k] == s.log[k];
      }
    }
  }

  lemma DispatchLog(cfg: L.Config, s: State, id: RequestId, effect: Effect, call: Call)
    requires LogOk(s) && Dispatchable(s, id, effect) && DispatchTx(cfg, s, id, effect, call).Some?
    ensures LogOk(DispatchTx(cfg, s, id, effect, call).value)
  {
    var t := DispatchTx(cfg, s, id, effect, call).value;
    var n := |s.log|;
    assert !Logged(s, id);
    assert t.log[n].id == id;
    forall k ensures Logged(t, k) <==> Logged(s, k) || k == id {
      if Logged(s, k) {
        var i :| 0 <= i < n && s.log[i].id == k;
        assert t.log[i] == s.log[i];
      }
    }
  }

  lemma DispatchBooks(cfg: L.Config, s: State, id: RequestId, effect: Effect, call: Call)
    requires BooksOk(cfg, s) && Dispatchable(s, id, effect) && DispatchTx(cfg, s, id, effect, call).Some?
    ensures BooksOk(cfg, DispatchTx(cfg, s, id, effect, call).value)
  {
    var t := DispatchTx(cfg, s, id, effect, call).value;
    L.ReserveKeeps(cfg, s.books, id, effect.price, call.user, call.source, call.day);
    L.ReserveExactly(cfg, s.books, id, effect.price, call.user, call.source, call.day);
    var n := |s.books.rows|;
    forall i | 0 <= i < |t.books.rows| ensures RowOk(t, t.books.rows[i]) {
      if i < n {
        assert t.books.rows[i] == s.books.rows[i];
        assert RowOk(s, s.books.rows[i]);
      }
    }
  }

  lemma DispatchBooksFully(cfg: L.Config, s: State, id: RequestId, effect: Effect, call: Call)
    requires BooksOk(cfg, s) && FullyBooked(s) && Dispatchable(s, id, effect) && DispatchTx(cfg, s, id, effect, call).Some?
    ensures FullyBooked(DispatchTx(cfg, s, id, effect, call).value)
  {
    var t := DispatchTx(cfg, s, id, effect, call).value;
    L.ReserveExactly(cfg, s.books, id, effect.price, call.user, call.source, call.day);
    RowsAppended(s.books, t.books, id, effect.price, call, L.Ask(cfg, effect.price));
  }

  lemma RowsAppended(b: L.Books, t: L.Books, id: RequestId, price: L.Price, call: Call, reserve: L.Amount)
    requires t.rows == b.rows + L.Fresh(id, price, L.KeysFor(call.user, call.source, call.day), reserve)
    ensures BookedEverywhere(t, id) && forall k, scope: L.Scope :: L.Booked(b, k, scope) ==> L.Booked(t, k, scope)
  {
    var n := |b.rows|;
    assert t.rows[n].key.scope == L.Global && t.rows[n + 1].key.scope == L.Bot && t.rows[n + 2].key.scope == L.SourceUser;
    forall k, scope: L.Scope | L.Booked(b, k, scope) ensures L.Booked(t, k, scope) {
      var i :| 0 <= i < n && b.rows[i].request == k && b.rows[i].key.scope == scope;
      assert t.rows[i] == b.rows[i];
    }
  }

  lemma DispatchKeeps(cfg: L.Config, s: State, id: RequestId, effect: Effect, call: Call)
    requires Inv(cfg, s) && Dispatchable(s, id, effect) && DispatchTx(cfg, s, id, effect, call).Some?
    ensures Inv(cfg, DispatchTx(cfg, s, id, effect, call).value)
  {
    DispatchUses(cfg, s, id, effect, call);
    DispatchLog(cfg, s, id, effect, call);
    DispatchBooks(cfg, s, id, effect, call);
    DispatchBooksFully(cfg, s, id, effect, call);
  }

  lemma InsertedKeeps(cfg: L.Config, s: State, id: RequestId, effect: Effect, call: Call, status: Status)
    requires Inv(cfg, s) && id !in s.requests && effect.price.reserve >= 0 && !Sent(status)
    ensures Inv(cfg, Inserted(s, id, effect, call, status))
  {
    QuietKeeps(cfg, s, Inserted(s, id, effect, call, status));
  }

  lemma InsertAndDispatch(cfg: L.Config, s: State, id: RequestId, effect: Effect, call: Call)
    requires Inv(cfg, s) && id !in s.requests && effect.price.reserve >= 0
    ensures var d := DispatchTx(cfg, Inserted(s, id, effect, call, Approved), id, effect, call);
            d.Some? ==> Inv(cfg, d.value)
  {
    var u := Inserted(s, id, effect, call, Approved);
    InsertedKeeps(cfg, s, id, effect, call, Approved);
    if DispatchTx(cfg, u, id, effect, call).Some? {
      DispatchKeeps(cfg, u, id, effect, call);
    }
  }

  lemma BeginFreshKeeps(cfg: L.Config, s: State, id: RequestId, effect: Effect, call: Call)
    requires Inv(cfg, s) && id !in s.requests && effect.price.reserve >= 0
    ensures Inv(cfg, BeginFresh(cfg, s, id, effect, call).0)
  {
    if call.required {
      InsertedKeeps(cfg, s, id, effect, call, Awaiting);
      MoveJobKeeps(cfg, Inserted(s, id, effect, call, Awaiting), id.job, {Running}, AwaitingApproval);
    } else {
      InsertAndDispatch(cfg, s, id, effect, call);
    }
  }

  lemma BeginKnownKeeps(cfg: L.Config, s: State, id: RequestId, effect: Effect, call: Call)
    requires Inv(cfg, s) && id in s.requests && effect.price.reserve >= 0
    ensures Inv(cfg, BeginKnown(cfg, s, id, effect, call).0)
  {
    if Dispatchable(s, id, effect) && DispatchTx(cfg, s, id, effect, call).Some? {
      DispatchKeeps(cfg, s, id, effect, call);
    }
  }

  lemma BeginKeeps(cfg: L.Config, s: State, id: RequestId, effect: Effect, call: Call)
    requires Inv(cfg, s)
    ensures Inv(cfg, Begin(cfg, s, id, effect, call).0)
  {
    if effect.price.reserve >= 0 {
      if id in s.requests {
        BeginKnownKeeps(cfg, s, id, effect, call);
      } else {
        BeginFreshKeeps(cfg, s, id, effect, call);
      }
    }
  }

  lemma SettleKeeps(cfg: L.Config, s: State, id: RequestId, usage: L.Usage, success: bool)
    requires Inv(cfg, s)
    ensures Inv(cfg, Settle(s, id, usage, success).0)
  {
    var t := Settle(s, id, usage, success).0;
    if t != s {
      SettleBooks(cfg, s, id, usage, success);
      SettleBooksFully(cfg, s, id, usage, success);
      forall k ensures Logged(t, k) <==> Logged(s, k) { }
      forall i | 0 <= i < |t.log| && t.log[i].required ensures Consumed(t, t.log[i]) { assert Consumed(s, s.log[i]); }
    }
  }

  lemma SettleBooks(cfg: L.Config, s: State, id: RequestId, usage: L.Usage, success: bool)
    requires BooksOk(cfg, s)
    ensures BooksOk(cfg, Settle(s, id, usage, success).0)
  {
    var t := Settle(s, id, usage, success).0;
    if t != s {
      var price := s.requests[id].effect.price;
      L.SettleExactly(cfg, s.books, id, price, usage, success);
      var verdict := L.Decide(price, usage, success).value;
      forall i | 0 <= i < |t.books.rows| ensures RowOk(t, t.books.rows[i]) {
        assert RowOk(s, s.books.rows[i]);
        assert L.RowSettled(s.books, t.books, id, verdict.done, verdict.cost, i);
      }
    }
  }

  lemma SettleBooksFully(cfg: L.Config, s: State, id: RequestId, usage: L.Usage, success: bool)
    requires BooksOk(cfg, s) && FullyBooked(s)
    ensures FullyBooked(Settle(s, id, usage, success).0)
  {
    var t := Settle(s, id, usage, success).0;
    if t != s {
      var price := s.requests[id].effect.price;
      L.SettleExactly(cfg, s.books, id, price, usage, success);
      var verdict := L.Decide(price, usage, success).value;
      forall i | 0 <= i < |s.books.rows|
        ensures t.books.rows[i].request == s.books.rows[i].request && t.books.rows[i].key == s.books.rows[i].key
      {
        assert L.RowSettled(s.books, t.books, id, verdict.done, verdict.cost, i);
      }
      SameRows(s.books, t.books);
    }
  }

  lemma SameRows(b: L.Books, t: L.Books)
    requires |t.rows| == |b.rows|
    requires forall i :: 0 <= i < |b.rows| ==> t.rows[i].request == b.rows[i].request && t.rows[i].key == b.rows[i].key
    ensures forall k, scope: L.Scope :: L.Booked(b, k, scope) ==> L.Booked(t, k, scope)
  {
    forall k, scope: L.Scope | L.Booked(b, k, scope) ensures L.Booked(t, k, scope) {
      var i :| 0 <= i < |b.rows| && b.rows[i].request == k && b.rows[i].key.scope == scope;
      assert t.rows[i].request == k && t.rows[i].key.scope == scope;
    }
  }

  lemma StepKeeps(cfg: L.Config, s: State, step: Step)
    requires Inv(cfg, s)
    ensures Inv(cfg, Next(cfg, s, step))
  {
    match step
    case DoBegin(id, effect, call) => BeginKeeps(cfg, s, id, effect, call);
    case DoApprove(token, valid, authorized, now) => ApproveKeeps(cfg, s, token, valid, authorized, now);
    case DoRevoke(nonce) => RevokeKeeps(cfg, s, nonce);
    case DoExpire(ids, now) => ExpireKeeps(cfg, s, ids, now);
    case DoDelete(chat) => DeleteKeeps(cfg, s, chat);
    case DoRestart => RestartKeeps(cfg, s);
    case DoSettle(id, usage, success) => SettleKeeps(cfg, s, id, usage, success);
    case SetJob(job, status) => QuietKeeps(cfg, s, s.(jobs := s.jobs[job := status]));
  }

  lemma {:induction false} RunKeeps(cfg: L.Config, jobs: map<Id, JobStatus>, steps: seq<Step>)
    ensures Inv(cfg, Run(cfg, Init(jobs), steps))
    decreases |steps|
  {
    if steps != [] {
      RunKeeps(cfg, jobs, steps[..|steps| - 1]);
      StepKeeps(cfg, Run(cfg, Init(jobs), steps[..|steps| - 1]), steps[|steps| - 1]);
    }
  }

  predicate Closed(status: Status) {
    Sent(status) || status.Expired? || status.Cancelled?
  }

  /** What a step may append to the history: nothing, or one dispatch of a request
      that was open, unexpired and, when approval is required, holding an unused
      grant whose nonce is not revoked; the grant is used up by it. */
  ghost predicate ProperDispatch(s: State, t: State, step: Step) {
    && step.DoBegin? && |t.log| == |s.log| + 1 && s.log <= t.log
    && var d := t.log[|s.log|];
    && d.id == step.id && d.required == step.call.required && step.call.authorized && JobIs(s, d.id.job, Running)
    && (d.id in s.requests ==> s.requests[d.id].status.Approved? && s.requests[d.id].effect == step.effect
                               && s.requests[d.id].expires > step.call.now)
    && Has(t, d.id, Dispatched)
    && (d.required ==> exists i :: 0 <= i < |s.grants| == |t.grants| && Spent(s, t, i, d, step))
  }

  predicate Spent(s: State, t: State, i: nat, d: Dispatch, step: Step)
    requires i < |s.grants| == |t.grants| && step.DoBegin?
  {
    var g := s.grants[i];
    && !g.used && !g.revoked && g.token.nonce !in s.revoked && d.nonce == Some(g.token.nonce)
    && Matches(g.token, d.id, step.effect, step.call.now) && t.grants[i] == g.(used := true)
  }

  lemma {:induction false} ExpireLog(s: State, ids: seq<RequestId>, now: int)
    ensures var t := Expire(s, ids, now);
            && t.log == s.log && t.revoked == s.revoked
            && forall id :: id in s.requests && Closed(s.requests[id].status) ==> id in t.requests && t.requests[id] == s.requests[id]
    decreases |ids|
  {
    if ids != [] {
      ExpireLog(s, ids[..|ids| - 1], now);
    }
  }

  lemma DispatchAppends(cfg: L.Config, s: State, id: RequestId, effect: Effect, call: Call)
    requires Inv(cfg, s) && JobIs(s, id.job, Running) && call.authorized
    requires Begin(cfg, s, id, effect, call).0.log != s.log
    ensures ProperDispatch(s, Begin(cfg, s, id, effect, call).0, DoBegin(id, effect, call))
  {
    var t := Begin(cfg, s, id, effect, call).0;
    if call.required {
      var i := GrantOf(s.grants, id).value;
      assert Spent(s, t, i, t.log[|s.log|], DoBegin(id, effect, call));
    }
  }

  /** Every dispatch, in every reachable state, is a proper one. */
  lemma StepDispatches(cfg: L.Config, s: State, step: Step)
    requires Inv(cfg, s)
    ensures Next(cfg, s, step).log == s.log || ProperDispatch(s, Next(cfg, s, step), step)
  {
    match step
    case DoBegin(id, effect, call) =>
      if Begin(cfg, s, id, effect, call).0.log != s.log {
        DispatchAppends(cfg, s, id, effect, call);
      }
    case DoExpire(ids, now) => ExpireLog(s, ids, now);
    case _ =>
  }

  lemma StepStaysClosed(cfg: L.Config, s: State, step: Step, id: RequestId)
    requires id in s.requests && Closed(s.requests[id].status)
    ensures var t := Next(cfg, s, step);
            && id in t.requests && Closed(t.requests[id].status)
            && s.revoked <= t.revoked
  {
    match step
    case DoExpire(ids, now) => ExpireLog(s, ids, now);
    case _ =>
  }

  lemma StepNeverAgain(cfg: L.Config, s: State, step: Step, id: RequestId)
    requires Inv(cfg, s) && id in s.requests && Closed(s.requests[id].status)
    ensures var t := Next(cfg, s, step);
            && id in t.requests && Closed(t.requests[id].status)
            && s.log <= t.log && (forall i :: |s.log| <= i < |t.log| ==> t.log[i].id != id)
  {
    StepDispatches(cfg, s, step);
    StepStaysClosed(cfg, s, step, id);
  }

  /** At most once, over every run: a request that was sent, expired or cancelled
      is never dispatched later. */
  lemma {:induction false} NeverAgain(cfg: L.Config, s: State, steps: seq<Step>, id: RequestId)
    requires Inv(cfg, s) && id in s.requests && Closed(s.requests[id].status)
    ensures var t := Run(cfg, s, steps);
            && Inv(cfg, t) && id in t.requests && Closed(t.requests[id].status)
            && s.log <= t.log && (forall i :: |s.log| <= i < |t.log| ==> t.log[i].id != id)
    decreases |steps|
  {
    if steps != [] {
      var n := |steps| - 1;
      NeverAgain(cfg, s, steps[..n], id);
      StepKeeps(cfg, Run(cfg, s, steps[..n]), steps[n]);
      StepNeverAgain(cfg, Run(cfg, s, steps[..n]), steps[n], id);
    }
  }

  /** A revoked nonce that was not consumed before never is. */
  lemma {:induction false} RevokedNeverConsumed(cfg: L.Config, s: State, steps: seq<Step>, nonce: Id)
    requires Inv(cfg, s) && nonce in s.revoked && forall i :: 0 <= i < |s.log| ==> s.log[i].nonce != Some(nonce)
    ensures var t := Run(cfg, s, steps);
            Inv(cfg, t) && nonce in t.revoked && forall i :: 0 <= i < |t.log| ==> t.log[i].nonce != Some(nonce)
    decreases |steps|
  {
    if steps != [] {
      var n := |steps| - 1;
      RevokedNeverConsumed(cfg, s, steps[..n], nonce);
      var p := Run(cfg, s, steps[..n]);
      StepKeeps(cfg, p, steps[n]);
      StepDispatches(cfg, p, steps[n]);
      StepRevoked(cfg, p, steps[n]);
    }
  }

  lemma StepRevoked(cfg: L.Config, s: State, step: Step)
    ensures s.revoked <= Next(cfg, s, step).revoked
  {
    match step
    case DoExpire(ids, now) => ExpireLog(s, ids, now);
    case _ =>
  }

  /** Every run: dispatches are of distinct requests, those that required approval
      consumed distinct nonces, and the dispatched requests are exactly those whose
      status says so. */
  lemma EveryRunDispatchesOnce(cfg: L.Config, jobs: map<Id, JobStatus>, steps: seq<Step>)
    ensures var s := Run(cfg, Init(jobs), steps);
            && (forall i, j :: 0 <= i < j < |s.log| ==> s.log[i].id != s.log[j].id)
            && (forall i, j :: 0 <= i < j < |s.log| && s.log[i].required && s.log[j].required ==>
                  s.log[i].nonce.Some? && s.log[i].nonce != s.log[j].nonce)
            && (forall id :: id in s.requests ==> (Sent(s.requests[id].status) <==> Logged(s, id)))
  {
    RunKeeps(cfg, jobs, steps);
    var s := Run(cfg, Init(jobs), steps);
    forall i, j | 0 <= i < j < |s.log| && s.log[i].required && s.log[j].required ensures s.log[i].nonce != s.log[j].nonce {
      assert Consumed(s, s.log[i]) && Consumed(s, s.log[j]);
    }
  }

  /** Every run: each account's counters are the sums over its rows, open rows
      holding exactly the unsettled or uncertain requests', every sent request has
      exactly one row in each of the three scopes and no other request has any, and
      the budget bound holds for every capped account. */
  lemma EveryRunBalances(cfg: L.Config, jobs: map<Id, JobStatus>, steps: seq<Step>, key: L.Key)
    ensures var s := Run(cfg, Init(jobs), steps);
            && L.AccountOf(s.books, key).reserved as int == L.Total(L.HeldBy, s.books.rows, key)
            && L.AccountOf(s.books, key).used as int == L.Total(L.SpentBy, s.books.rows, key)
            && L.Bounded(cfg, s.books, key)
            && (forall i :: 0 <= i < |s.books.rows| ==> RowOk(s, s.books.rows[i]))
            && (forall id :: id in s.requests && Sent(s.requests[id].status) ==> BookedEverywhere(s.books, id))
            && (forall i, j :: 0 <= i < j < |s.books.rows| && s.books.rows[i].request == s.books.rows[j].request ==>
                  s.books.rows[i].key.scope != s.books.rows[j].key.scope)
  {
    RunKeeps(cfg, jobs, steps);
    assert L.Balanced(Run(cfg, Init(jobs), steps).books, key);
  }

  /** In every reachable state settling a sent request can only fail on a cost that
      does not fit, never on the accounts; once completed, settling again, with any
      outcome, changes nothing. */
  lemma SettlingFailsOnlyOnOverflow(cfg: L.Config, jobs: map<Id, JobStatus>, steps: seq<Step>, id: RequestId, usage: L.Usage, success: bool)
    requires var s := Run(cfg, Init(jobs), steps); id in s.requests && Sent(s.requests[id].status)
    ensures var s := Run(cfg, Init(jobs), steps);
            var r := Settle(s, id, usage, success);
            var price := s.requests[id].effect.price;
            && (s.requests[id].status.Completed? ==> r == (s, true))
            && (!s.requests[id].status.Completed? ==>
                  && price.reserve >= 0
                  && var verdict := L.Decide(price, usage, success);
                  r.1 <==> verdict.Some? && (verdict.value.done ==>
                    forall i :: 0 <= i < |s.books.rows| ==> L.Payable(s.books, id, verdict.value.cost, i)))
  {
    var s := Run(cfg, Init(jobs), steps);
    RunKeeps(cfg, jobs, steps);
    if !s.requests[id].status.Completed? {
      L.SettleExactly(cfg, s.books, id, s.requests[id].effect.price, usage, success);
    }
  }

  /** Approving, from the tables: a valid token of an authorised source, before its
      own expiry and its request's, for an awaiting request with the same effect
      whose job awaits approval, under a nonce neither revoked nor granted before,
      approves the request, queues the job and adds one unused grant. Any other
      token changes nothing. */
  lemma ApproveExactly(s: State, t: Token, valid: bool, authorized: bool, now: int)
    ensures var u := Approve(s, t, valid, authorized, now);
            var accepted :=
              && valid && authorized
              && t.request in s.requests && s.requests[t.request].status == Awaiting && s.requests[t.request].expires > now
              && t.request.job in s.jobs && s.jobs[t.request.job] == AwaitingApproval
              && t.effect == s.requests[t.request].effect && t.expires > now
              && t.nonce !in s.revoked && (forall g :: g in s.grants ==> g.token.nonce != t.nonce);
            u == if accepted then
                   s.(requests := s.requests[t.request := s.requests[t.request].(status := Approved)],
                      jobs := s.jobs[t.request.job := Queued],
                      grants := s.grants + [Grant(t, false, false)])
                 else s
  {
  }

  /** The request's latest grant, unused, unrevoked by id and by nonce, with a token
      for the same effect that has not expired. */
  ghost predicate OpenGrant(s: State, id: RequestId, effect: Effect, now: int, g: nat) {
    && g < |s.grants| && s.grants[g].token.request == id
    && (forall h :: g < h < |s.grants| ==> s.grants[h].token.request != id)
    && s.grants[g].used == false && s.grants[g].revoked == false && s.grants[g].token.nonce !in s.revoked
    && s.grants[g].token.effect == effect && s.grants[g].token.expires > now
  }

  ghost predicate NoGrant(s: State, id: RequestId) {
    forall g :: 0 <= g < |s.grants| ==> s.grants[g].token.request != id
  }

  lemma {:induction false} GrantOfIsLatest(grants: seq<Grant>, id: RequestId)
    ensures var g := GrantOf(grants, id);
            g.Some? ==> forall h :: g.value < h < |grants| ==> grants[h].token.request != id
    decreases |grants|
  {
    if grants != [] && grants[|grants| - 1].token.request != id {
      GrantOfIsLatest(grants[..|grants| - 1], id);
    }
  }

  /** Whether a request may be begun at all, and how far it had come. */
  ghost predicate Askable(s: State, id: RequestId, effect: Effect, call: Call) {
    && effect.price.reserve as int >= 0 && id.job in s.jobs && s.jobs[id.job] == Running && call.authorized
    && (id in s.requests ==> s.requests[id].effect == effect)
  }

  /** When an effect is dispatched: approved and unexpired, or new and in no need of
      approval; with an open grant when approval is required; and with room for its
      reserve in the accounts. */
  lemma GoExactly(cfg: L.Config, s: State, id: RequestId, effect: Effect, call: Call)
    ensures Begin(cfg, s, id, effect, call).1.Go? <==>
              && Askable(s, id, effect, call)
              && (if id in s.requests then s.requests[id].status == Approved && s.requests[id].expires > call.now else !call.required)
              && (call.required ==> exists g: nat :: OpenGrant(s, id, effect, call.now, g))
              && L.Reserve(cfg, s.books, id, effect.price, call.user, call.source, call.day).Some?
  {
    OpenGrantIsConsumed(s, id, effect, call.now);
  }

  lemma OpenGrantIsConsumed(s: State, id: RequestId, effect: Effect, now: int)
    ensures Consume(s, id, effect, now).Some? <==> exists g: nat :: OpenGrant(s, id, effect, now, g)
    ensures forall g: nat :: OpenGrant(s, id, effect, now, g) ==>
              Consume(s, id, effect, now) == Some((s.(grants := s.grants[g := s.grants[g].(used := true)]), s.grants[g].token.nonce))
  {
    GrantOfIsLatest(s.grants, id);
    var g := GrantOf(s.grants, id);
    if Consume(s, id, effect, now).Some? {
      assert OpenGrant(s, id, effect, now, g.value);
    }
  }

  /** A dispatch writes exactly this: the request's status, the ledger's reserves,
      the grant's use and the history. */
  lemma GoWrites(cfg: L.Config, s: State, id: RequestId, effect: Effect, call: Call)
    requires Begin(cfg, s, id, effect, call).1.Go?
    ensures var t := Begin(cfg, s, id, effect, call).0;
            var expires := if id in s.requests then s.requests[id].expires else call.now + (if call.ttl < 1 then 1 else call.ttl);
            var chat := if id in s.requests then s.requests[id].chat else call.chat;
            && t.requests == s.requests[id := Request(chat, effect, Dispatched, expires)]
            && t.jobs == s.jobs && t.revoked == s.revoked
            && Some(t.books) == L.Reserve(cfg, s.books, id, effect.price, call.user, call.source, call.day)
            && (!call.required ==> t.grants == s.grants && t.log == s.log + [Dispatch(id, false, None)])
            && (call.required ==> exists g: nat ::
                  && OpenGrant(s, id, effect, call.now, g)
                  && t.grants == s.grants[g := s.grants[g].(used := true)]
                  && t.log == s.log + [Dispatch(id, true, Some(s.grants[g].token.nonce))])
  {
    OpenGrantIsConsumed(s, id, effect, call.now);
    if call.required {
      var g: nat :| OpenGrant(s, id, effect, call.now, g);
    }
  }

  /** When a request waits: recorded for approval on its first asking, and unchanged
      while it is awaiting or approved without a grant. Refusals change nothing. */
  lemma WaitsExactly(cfg: L.Config, s: State, id: RequestId, effect: Effect, call: Call)
    ensures var r := Begin(cfg, s, id, effect, call);
            && (r.1.Pending? <==>
                  && Askable(s, id, effect, call)
                  && (if id !in s.requests then call.required
                      else s.requests[id].status == Awaiting
                           || (s.requests[id].status == Approved && call.required && s.requests[id].expires > call.now && NoGrant(s, id))))
            && (r.1.Pending? && id !in s.requests ==>
                  r.0 == s.(requests := s.requests[id := Request(call.chat, effect, Awaiting, call.now + (if call.ttl < 1 then 1 else call.ttl))],
                            jobs := s.jobs[id.job := AwaitingApproval]))
            && (r.1.Pending? && id in s.requests ==> r.0 == s)
            && (r.1.Refused? ==> r.0 == s)
  {
  }

  /** The token was presented at step `k`: validly, by an authorised source, before it
      and its request expired, while that request was awaiting approval of the same
      effect and the nonce was not revoked. */
  ghost predicate Presented(cfg: L.Config, jobs: map<Id, JobStatus>, steps: seq<Step>, k: nat, t: Token) {
    && k < |steps| && steps[k].DoApprove? && steps[k].token == t && steps[k].valid && steps[k].authorized
    && t.expires > steps[k].now
    && var p := Run(cfg, Init(jobs), steps[..k]);
    && t.request in p.requests && p.requests[t.request].status == Awaiting && p.requests[t.request].expires > steps[k].now
    && p.requests[t.request].effect == t.effect && t.nonce !in p.revoked
  }

  /** Only an accepted approval adds a grant, and tokens never change. */
  lemma StepGrants(cfg: L.Config, s: State, step: Step)
    ensures var t := Next(cfg, s, step);
            && |s.grants| <= |t.grants|
            && (forall i :: 0 <= i < |s.grants| ==> t.grants[i].token == s.grants[i].token)
            && (|t.grants| > |s.grants| ==>
                  && step.DoApprove? && t == Approve(s, step.token, step.valid, step.authorized, step.now) && t != s
                  && |t.grants| == |s.grants| + 1 && t.grants[|s.grants|].token == step.token)
  {
    match step
    case DoBegin(id, effect, call) =>
      OpenGrantIsConsumed(s, id, effect, call.now);
      if Begin(cfg, s, id, effect, call).1.Go? { GoWrites(cfg, s, id, effect, call); }
      WaitsExactly(cfg, s, id, effect, call);
    case DoExpire(ids, now) => ExpireGrants(s, ids, now);
    case _ =>
  }

  lemma {:induction false} ExpireGrants(s: State, ids: seq<RequestId>, now: int)
    ensures Expire(s, ids, now).grants == s.grants
    decreases |ids|
  {
    if ids != [] {
      ExpireGrants(s, ids[..|ids| - 1], now);
    }
  }

  /** Every grant in every run was presented for approval, validly and in time. */
  lemma {:induction false} EveryGrantWasPresented(cfg: L.Config, jobs: map<Id, JobStatus>, steps: seq<Step>, i: nat)
    requires i < |Run(cfg, Init(jobs), steps).grants|
    ensures exists k: nat :: Presented(cfg, jobs, steps, k, Run(cfg, Init(jobs), steps).grants[i].token)
    decreases |steps|
  {
    if steps != [] {
      var n := |steps| - 1;
      var s := Run(cfg, Init(jobs), steps[..n]);
      StepGrants(cfg, s, steps[n]);
      if i < |s.grants| {
        EveryGrantWasPresented(cfg, jobs, steps[..n], i);
        var k: nat :| Presented(cfg, jobs, steps[..n], k, s.grants[i].token);
        assert steps[..n][..k] == steps[..k];
        assert Presented(cfg, jobs, steps, k, s.grants[i].token);
      } else {
        ApproveExactly(s, steps[n].token, steps[n].valid, steps[n].authorized, steps[n].now);
        assert Presented(cfg, jobs, steps, n, steps[n].token);
      }
    }
  }

  /** Hence every dispatch that required approval goes back to such a step, with its
      own request and its own nonce. */
  lemma EveryRequiredDispatchWasApproved(cfg: L.Config, jobs: map<Id, JobStatus>, steps: seq<Step>, i: nat)
    requires i < |Run(cfg, Init(jobs), steps).log| && Run(cfg, Init(jobs), steps).log[i].required
    ensures var d := Run(cfg, Init(jobs), steps).log[i];
            exists k: nat, t: Token :: Presented(cfg, jobs, steps, k, t) && t.request == d.id && d.nonce == Some(t.nonce)
  {
    var s := Run(cfg, Init(jobs), steps);
    RunKeeps(cfg, jobs, steps);
    assert Consumed(s, s.log[i]);
    var g: nat :| g < |s.grants| && s.grants[g].used && s.grants[g].token.request == s.log[i].id && s.log[i].nonce == Some(s.grants[g].token.nonce);
    EveryGrantWasPresented(cfg, jobs, steps, g);
  }

  /** A delete, a lapse and a revocation hold for good: what was still to be sent then
      is never dispatched in any later run. */
  lemma DeletedIsNeverSent(cfg: L.Config, s: State, chat: Id, steps: seq<Step>, id: RequestId)
    requires Inv(cfg, s) && id in s.requests && s.requests[id].chat == chat
    ensures var t := Run(cfg, Next(cfg, s, DoDelete(chat)), steps);
            s.log <= t.log && forall i :: |s.log| <= i < |t.log| ==> t.log[i].id != id
  {
    StepKeeps(cfg, s, DoDelete(chat));
    NeverAgain(cfg, Next(cfg, s, DoDelete(chat)), steps, id);
  }

  lemma LapsedIsNeverSent(cfg: L.Config, s: State, ids: seq<RequestId>, now: int, steps: seq<Step>, id: RequestId)
    requires Inv(cfg, s) && id in ids && id in s.requests && s.requests[id].expires <= now
    ensures var t := Run(cfg, Next(cfg, s, DoExpire(ids, now)), steps);
            s.log <= t.log && forall i :: |s.log| <= i < |t.log| ==> t.log[i].id != id
  {
    StepKeeps(cfg, s, DoExpire(ids, now));
    ExpireLog(s, ids, now);
    if !Closed(s.requests[id].status) {
      var k :| 0 <= k < |ids| && ids[k] == id;
      ExpireCloses(s, ids, now, k);
    }
    NeverAgain(cfg, Next(cfg, s, DoExpire(ids, now)), steps, id);
  }

  lemma RevokedIsNeverUsed(cfg: L.Config, s: State, steps: seq<Step>, nonce: Id)
    requires Inv(cfg, s) && forall i :: 0 <= i < |s.log| ==> s.log[i].nonce != Some(nonce)
    ensures var t := Run(cfg, Next(cfg, s, DoRevoke(nonce)), steps);
            forall i :: 0 <= i < |t.log| ==> t.log[i].nonce != Some(nonce)
  {
    StepKeeps(cfg, s, DoRevoke(nonce));
    RevokedNeverConsumed(cfg, Next(cfg, s, DoRevoke(nonce)), steps, nonce);
  }

  /** After a restart nothing counts as in flight: what had been sent is uncertain or
      completed, and is not sent again. */
  lemma RestartedIsNotResent(cfg: L.Config, s: State, steps: seq<Step>, id: RequestId)
    requires Inv(cfg, s) && Logged(s, id)
    ensures var r := Next(cfg, s, DoRestart);
            var t := Run(cfg, r, steps);
            && id in r.requests && (r.requests[id].status == Uncertain || r.requests[id].status == Completed)
            && s.log <= t.log && forall i :: |s.log| <= i < |t.log| ==> t.log[i].id != id
  {
    StepKeeps(cfg, s, DoRestart);
    NeverAgain(cfg, Next(cfg, s, DoRestart), steps, id);
  }

  /** How one step may move a request. */
  ghost predicate MovesBy(s: State, t: State, step: Step, id: RequestId)
    requires id in s.requests && id in t.requests
  {
    var a, b := s.requests[id].status, t.requests[id].status;
    b == a
    || (a == Awaiting && b == Approved && step.DoApprove? && step.token.request == id && step.valid && step.authorized)
    || (a == Approved && b == Dispatched && step.DoBegin? && step.id == id && step.call.authorized)
    || ((a == Awaiting || a == Approved) && b == Expired && step.DoExpire? && id in step.ids && s.requests[id].expires <= step.now)
    || ((a == Awaiting || a == Approved) && b == Cancelled && step == DoDelete(s.requests[id].chat))
    || (a == Dispatched && b == Uncertain && (step.DoRestart? || (step.DoSettle? && step.id == id)))
    || ((a == Dispatched || a == Uncertain) && b == Completed && step.DoSettle? && step.id == id && step.success)
  }

  /** No step moves a request in any other way, or changes its effect, chat or expiry. */
  lemma StatusMoves(cfg: L.Config, s: State, step: Step, id: RequestId)
    requires id in s.requests
    ensures var t := Next(cfg, s, step);
            && id in t.requests && t.requests[id] == s.requests[id].(status := t.requests[id].status)
            && MovesBy(s, t, step, id)
  {
    match step
    case DoBegin(k, effect, call) =>
      if Begin(cfg, s, k, effect, call).1.Go? { GoWrites(cfg, s, k, effect, call); GoExactly(cfg, s, k, effect, call); }
      WaitsExactly(cfg, s, k, effect, call);
    case DoApprove(token, valid, authorized, now) => ApproveExactly(s, token, valid, authorized, now);
    case DoExpire(ids, now) => ExpireMoves(s, ids, now, id);
    case _ =>
  }

  /** A cleanup pass expires exactly the lapsed requests it read. */
  lemma {:induction false} ExpireMoves(s: State, ids: seq<RequestId>, now: int, id: RequestId)
    requires id in s.requests
    ensures var t := Expire(s, ids, now);
            var open := s.requests[id].status == Awaiting || s.requests[id].status == Approved;
            && t.requests.Keys == s.requests.Keys
            && t.requests[id] == if id in ids && open && s.requests[id].expires <= now then s.requests[id].(status := Expired)
                                 else s.requests[id]
    decreases |ids|
  {
    if ids != [] {
      var n := |ids| - 1;
      ExpireMoves(s, ids[..n], now, id);
      assert ids == ids[..n] + [ids[n]];
    }
  }

  ghost predicate InFlight(s: State, job: Id) {
    exists id :: id in s.requests && id.job == job && (s.requests[id].status == Dispatched || s.requests[id].status == Uncertain)
  }

  /** A restart: exactly the running jobs with an effect in flight become uncertain. */
  lemma RestartJobs(s: State, job: Id)
    requires job in s.jobs
    ensures var t := Restart(s);
            && t.jobs.Keys == s.jobs.Keys
            && t.jobs[job] == if s.jobs[job] == Running && InFlight(s, job) then UncertainJob else s.jobs[job]
  {
    var t := Restart(s);
    forall id | id in s.requests
      ensures t.requests[id].status.Uncertain? <==> s.requests[id].status == Dispatched || s.requests[id].status == Uncertain
    {
    }
  }

  ghost predicate LapsedJob(s: State, ids: seq<RequestId>, now: int, job: Id) {
    exists id :: id in ids && id.job == job && id in s.requests && s.requests[id].expires <= now
                 && (s.requests[id].status == Awaiting || s.requests[id].status == Approved)
  }

  /** A cleanup pass: exactly the waiting jobs of the requests it expires fail. */
  lemma {:induction false} ExpireJobs(s: State, ids: seq<RequestId>, now: int, job: Id)
    requires job in s.jobs
    ensures var t := Expire(s, ids, now);
            && t.jobs.Keys == s.jobs.Keys
            && t.jobs[job] == if (s.jobs[job] == Queued || s.jobs[job] == AwaitingApproval) && LapsedJob(s, ids, now, job)
                              then Failed else s.jobs[job]
    decreases |ids|
  {
    if ids != [] {
      var n := |ids| - 1;
      ExpireJobs(s, ids[..n], now, job);
      assert ids == ids[..n] + [ids[n]];
      if ids[n] in s.requests {
        ExpireMoves(s, ids[..n], now, ids[n]);
      }
      ExpireKeys(s, ids[..n], now);
      assert LapsedJob(s, ids[..n], now, job) ==> LapsedJob(s, ids, now, job);
      assert LapsedJob(s, ids, now, job) ==>
          LapsedJob(s, ids[..n], now, job) || (ids[n].job == job && ids[n] in s.requests && s.requests[ids[n]].expires <= now
            && (s.requests[ids[n]].status == Awaiting || s.requests[ids[n]].status == Approved));
    }
  }

  lemma {:induction false} ExpireKeys(s: State, ids: seq<RequestId>, now: int)
    ensures Expire(s, ids, now).requests.Keys == s.requests.Keys
    decreases |ids|
  {
    if ids != [] {
      ExpireKeys(s, ids[..|ids| - 1], now);
    }
  }

  function Eligible(s: State, order: seq<RequestId>, now: int): seq<RequestId> {
    if order == [] then []
    else
      var n := |order| - 1;
      Eligible(s, order[..n], now) + if Lapsed(s, order[n], now) then [order[n]] else []
  }

  const CLEANUP_BATCH: nat := 256

  /** The index: every lapsed approval, once, by expiry. */
  ghost predicate ListsByExpiry(s: State, order: seq<RequestId>, now: int) {
    && (forall i, j :: 0 <= i < j < |order| ==> order[i] != order[j])
    && (forall id :: Lapsed(s, id, now) ==> id in order)
    && (forall i, j :: 0 <= i < j < |order| && Lapsed(s, order[i], now) && Lapsed(s, order[j], now) ==>
          s.requests[order[i]].expires <= s.requests[order[j]].expires)
  }

  /** The oldest lapsed approvals, all of them unless there are too many. */
  ghost predicate FirstLapsed(s: State, batch: seq<RequestId>, now: int) {
    && |batch| <= CLEANUP_BATCH
    && (forall i, j :: 0 <= i < j < |batch| ==> batch[i] != batch[j])
    && (forall b :: b in batch ==> Lapsed(s, b, now))
    && (forall id :: Lapsed(s, id, now) && id !in batch ==>
          |batch| == CLEANUP_BATCH && forall b :: b in batch ==> s.requests[b].expires <= s.requests[id].expires)
  }

  lemma PrefixIsFirst(s: State, order: seq<RequestId>, n: nat, batch: seq<RequestId>, now: int)
    requires ListsByExpiry(s, order, now) && n <= |order| && (n == |order| || |batch| == CLEANUP_BATCH)
    requires |batch| <= CLEANUP_BATCH && forall i, j :: 0 <= i < j < |batch| ==> batch[i] != batch[j]
    requires forall b :: b in batch <==> b in order[..n] && Lapsed(s, b, now)
    ensures FirstLapsed(s, batch, now)
  {
    assert n == |order| ==> order[..n] == order;
    assert forall k :: 0 <= k < n ==> order[k] in order[..n];
    forall id, b | Lapsed(s, id, now) && id !in batch && b in batch ensures s.requests[b].expires <= s.requests[id].expires {
      assert id in order && b in order[..n];
      var i, j :| 0 <= i < n && order[..n][i] == b && 0 <= j < |order| && order[j] == id;
      assert order[i] == b;
    }
  }

  /** Reading the batch: at most 256 lapsed approvals, as the index lists them. */
  method SelectLapsed(s: State, order: seq<RequestId>, now: int) returns (batch: seq<RequestId>)
    requires ListsByExpiry(s, order, now)
    ensures FirstLapsed(s, batch, now)
    ensures batch == Eligible(s, order, now)[..Min(CLEANUP_BATCH, |Eligible(s, order, now)|)]
  {
    batch := [];
    var i := 0;
    while i < |order| && |batch| < CLEANUP_BATCH
      invariant 0 <= i <= |order| && |batch| <= CLEANUP_BATCH
      invariant batch == Eligible(s, order[..i], now)
    {
      assert order[..i + 1][..i] == order[..i];
      if Lapsed(s, order[i], now) {
        batch := batch + [order[i]];
      }
      i := i + 1;
    }
    EligiblePrefix(s, order, i, now);
    EligibleMembers(s, order[..i], now);
    PrefixIsFirst(s, order, i, batch, now);
    assert i == |order| ==> order[..i] == order;
  }

  lemma {:induction false} EligibleMembers(s: State, order: seq<RequestId>, now: int)
    requires forall i, j :: 0 <= i < j < |order| ==> order[i] != order[j]
    ensures forall b :: b in Eligible(s, order, now) <==> b in order && Lapsed(s, b, now)
    ensures forall i, j :: 0 <= i < j < |Eligible(s, order, now)| ==> Eligible(s, order, now)[i] != Eligible(s, order, now)[j]
    decreases |order|
  {
    if order != [] {
      var n := |order| - 1;
      EligibleMembers(s, order[..n], now);
      assert order == order[..n] + [order[n]];
      assert order[n] !in order[..n];
    }
  }

  /** The policy tables behind one writer. */
  class PolicyStore {
    var s: State

    constructor (jobs: map<Id, JobStatus>)
      ensures s == Init(jobs)
    {
      s := Init(jobs);
    }

    /** Beginning an effect, in one transaction that an error drops. */
    method BeginTx(cfg: L.Config, id: RequestId, effect: Effect, call: Call) returns (outcome: Outcome)
      modifies this
      ensures (s, outcome) == Begin(cfg, old(s), id, effect, call)
      ensures outcome.Refused? ==> s == old(s)
      ensures outcome.Go? ==> Has(s, id, Dispatched) && |s.log| == |old(s).log| + 1
      ensures !outcome.Go? ==> s.log == old(s).log && s.books == old(s).books && s.grants == old(s).grants
    {
      if effect.price.reserve < 0 || !JobIs(s, id.job, Running) || !call.authorized {
        return Refused;
      }
      var tx := s;
      var status := Approved;
      if id !in tx.requests {
        tx := Inserted(tx, id, effect, call, if call.required then Awaiting else Approved);
        if call.required {
          s := MoveJob(tx, id.job, {Running}, AwaitingApproval);
          return Pending;
        }
      } else if tx.requests[id].effect != effect {
        return Refused;
      } else {
        status := tx.requests[id].status;
      }
      if status.Awaiting? {
        return Pending;
      }
      if !status.Approved? {
        return Refused;
      }
      var sent := DispatchTx(cfg, tx, id, effect, call);
      if sent.None? {
        var noGrant := call.required && tx.requests[id].expires > call.now && GrantOf(tx.grants, id).None?;
        return if noGrant then Pending else Refused;
      }
      s := sent.value;
      outcome := Go;
    }

    /** One cleanup pass over what the expiry index lists: the first 256 lapsed
        approvals expire, so one that is passed over is no older than any of them. */
    method CleanupExpired(order: seq<RequestId>, now: int) returns (batch: seq<RequestId>)
      requires ListsByExpiry(s, order, now)
      modifies this
      ensures FirstLapsed(old(s), batch, now)
      ensures batch == Eligible(old(s), order, now)[..Min(CLEANUP_BATCH, |Eligible(old(s), order, now)|)]
      ensures s == Expire(old(s), batch, now)
    {
      ghost var s0 := s;
      batch := SelectLapsed(s, order, now);
      var k := 0;
      while k < |batch|
        invariant 0 <= k <= |batch| && s == Expire(s0, batch[..k], now)
      {
        assert batch[..k + 1][..k] == batch[..k];
        if Lapsed(s, batch[k], now) {
          s := WithStatus(s, batch[k], Expired);
          s := MoveJob(s, batch[k].job, {Queued, AwaitingApproval}, Failed);
        }
        k := k + 1;
      }
      assert batch[..k] == batch;
    }
  }

  lemma {:induction false} EligiblePrefix(s: State, order: seq<RequestId>, i: nat, now: int)
    requires i <= |order|
    ensures Eligible(s, order[..i], now) <= Eligible(s, order, now)
    decreases |order| - i
  {
    if i == |order| {
      assert order[..i] == order;
    } else {
      assert order[..i + 1][..i] == order[..i];
      EligiblePrefix(s, order, i + 1, now);
    }
  }

  /** A cleanup pass releases every job whose approval lapsed first, without
      touching anything sent: afterwards none of the batch is open. */
  lemma {:induction false} ExpireCloses(s: State, ids: seq<RequestId>, now: int, k: nat)
    requires k < |ids| && Lapsed(s, ids[k], now)
    ensures Has(Expire(s, ids, now), ids[k], Expired)
    decreases |ids|
  {
    var n := |ids| - 1;
    if k < n {
      ExpireCloses(s, ids[..n], now, k);
    } else {
      ExpireUntilHit(s, ids[..n], ids[n], now);
    }
  }

  lemma {:induction false} ExpireUntilHit(s: State, ids: seq<RequestId>, id: RequestId, now: int)
    requires Lapsed(s, id, now)
    ensures Lapsed(Expire(s, ids, now), id, now) || Has(Expire(s, ids, now), id, Expired)
    decreases |ids|
  {
    if ids != [] {
      ExpireUntilHit(s, ids[..|ids| - 1], id, now);
    }
  }
}
