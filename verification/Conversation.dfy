/** An AI conversation that stops for approvals and is resumed from saved
    continuations, against the same conversation run without stopping. */
module Conversation {
  import opened Basics

  /** A JSON argument text. */
  type Args = int

  const MAX_CALLS: nat := 8

  const MAX_ARGUMENT_BYTES: nat := 65536

  const MAX_CONTINUATION_BYTES: nat := 1048576

  datatype Role = System | User | Assistant | ToolResult

  datatype Call = Call(id: Id, name: Id, args: Args)

  datatype Turn = Turn(role: Role, content: Id, calls: seq<Call>, callId: Id)

  /** The continuation's moving part. */
  datatype State = State(turns: seq<Turn>, step: nat, nextCall: nat, calls: seq<Call>, providerNeeded: bool)

  datatype Effect =
    | Ask(step: nat, turns: seq<Turn>)
    | Use(step: nat, index: nat, call: Call)

  datatype Reply = Said(text: Id, calls: seq<Call>) | Result(content: Id) | Broken

  /** Unchanged settings, the JSON functions, and a world that answers by what has
      been done so far. `canonical` rewrites arguments, `stored` is what encoding
      and decoding a continuation makes of them, `permit` is the tool lookup, its
      permission and its schema, `needs` says which effects require approval. */
  datatype Env = Env(
    maxSteps: nat, maxTurns: nat, maxBytes: nat,
    size: seq<Turn> -> nat, total: State -> nat,
    canonical: Args -> Option<Args>, stored: Args -> Args, length: Args -> nat,
    permit: (Id, Args) -> bool,
    reply: seq<Effect> -> Reply, needs: Effect -> bool)

  datatype Outcome =
    | Answered(text: Id, done: seq<Effect>)
    | Failed(done: seq<Effect>)
    | Paused(state: State, done: seq<Effect>)

  /** `Open` approves everything at once; `Closed` stops at effects that need
      approval unless this run resumes with the ticket for its first effect. */
  datatype Gate = Open | Closed(ticket: bool)

  predicate Stops(env: Env, gate: Gate, e: Effect) {
    gate.Closed? && !gate.ticket && env.needs(e)
  }

  function Later(gate: Gate): Gate {
    if gate.Open? then Open else Closed(false)
  }

  predicate Fits(env: Env, turns: seq<Turn>) {
    env.size(turns) <= env.maxBytes && |turns| <= env.maxTurns
  }

  predicate Shape(s: State) {
    s.nextCall <= |s.calls| <= MAX_CALLS
  }

  predicate Authorized(env: Env, call: Call) {
    env.permit(call.name, call.args) && env.length(call.args) <= MAX_ARGUMENT_BYTES
  }

  /** The latest assistant turn with calls gets the forwarded arguments. */
  function Bind(turns: seq<Turn>, calls: seq<Call>): (r: seq<Turn>)
    ensures |r| == |turns|
  {
    if turns == [] then []
    else
      var n := |turns| - 1;
      if turns[n].role.Assistant? && turns[n].calls != [] then turns[..n] + [turns[n].(calls := calls)]
      else Bind(turns[..n], calls) + [turns[n]]
  }

  function WithAnswer(s: State, text: Id, calls: seq<Call>): State {
    s.(turns := s.turns + [Turn(Assistant, text, calls, 0)], calls := calls, nextCall := 0, providerNeeded := false)
  }

  function Canonized(s: State, args: Args): State
    requires s.nextCall < |s.calls|
  {
    var calls := s.calls[s.nextCall := s.calls[s.nextCall].(args := args)];
    s.(calls := calls, turns := Bind(s.turns, calls))
  }

  function Advanced(s: State, content: Id): State
    requires s.nextCall < |s.calls|
  {
    s.(turns := s.turns + [Turn(ToolResult, content, [], s.calls[s.nextCall].id)], nextCall := s.nextCall + 1)
  }

  function NextStep(s: State): State {
    s.(step := s.step + 1, providerNeeded := true, calls := [], nextCall := 0)
  }

  function Work(env: Env, s: State): nat
    requires Shape(s)
  {
    20 * Max(0, env.maxSteps - s.step) + if s.providerNeeded then 10 else |s.calls| - s.nextCall
  }

  /** One run of the loop, from the top of a step. */
  function Top(env: Env, gate: Gate, s: State, done: seq<Effect>): Outcome
    requires Shape(s)
    decreases Work(env, s), 1
  {
    if s.step >= env.maxSteps || !Fits(env, s.turns) then Failed(done)
    else if s.providerNeeded then
      var e := Ask(s.step, s.turns);
      if Stops(env, gate, e) then Paused(s, done)
      else
        match env.reply(done + [e])
        case Said(text, calls) =>
          if calls == [] then Answered(text, done + [e])
          else if |calls| > MAX_CALLS then Failed(done + [e])
          else Tools(env, Later(gate), WithAnswer(s, text, calls), done + [e])
        case _ => Failed(done + [e])
    else Tools(env, gate, s, done)
  }

  /** The calls of one step still to be made. */
  function Tools(env: Env, gate: Gate, s: State, done: seq<Effect>): Outcome
    requires Shape(s) && s.step < env.maxSteps && !s.providerNeeded
    decreases Work(env, s), 0
  {
    if s.nextCall < |s.calls| then
      var call := s.calls[s.nextCall];
      if !Authorized(env, call) || env.canonical(call.args).None? then Failed(done)
      else
        var t := Canonized(s, env.canonical(call.args).value);
        var e := Use(t.step, t.nextCall, t.calls[t.nextCall]);
        if Stops(env, gate, e) then Paused(t, done)
        else
          match env.reply(done + [e])
          case Result(content) => Tools(env, Later(gate), Advanced(t, content), done + [e])
          case _ => Failed(done + [e])
    else Top(env, gate, NextStep(s), done)
  }

  function StoreCalls(env: Env, calls: seq<Call>): (r: seq<Call>)
    ensures |r| == |calls|
  {
    seq(|calls|, k requires 0 <= k < |calls| => calls[k].(args := env.stored(calls[k].args)))
  }

  function StoreTurns(env: Env, turns: seq<Turn>): (r: seq<Turn>)
    ensures |r| == |turns|
  {
    seq(|turns|, i requires 0 <= i < |turns| => turns[i].(calls := StoreCalls(env, turns[i].calls)))
  }

  /** A continuation after it has been saved and read back. */
  function Restore(env: Env, s: State): State {
    s.(turns := StoreTurns(env, s.turns), calls := StoreCalls(env, s.calls))
  }

  predicate Acceptable(env: Env, s: State) {
    env.total(s) <= MAX_CONTINUATION_BYTES
  }

  /** How many times the provider has been asked. */
  function Asks(done: seq<Effect>): nat {
    if done == [] then 0 else Asks(done[..|done| - 1]) + if done[|done| - 1].Ask? then 1 else 0
  }

  /** The calls of the provider's last answer, as it sent them. */
  function Wanted(env: Env, done: seq<Effect>): seq<Call> {
    if done == [] then []
    else if done[|done| - 1].Use? then Wanted(env, done[..|done| - 1])
    else if env.reply(done).Said? then env.reply(done).calls
    else []
  }

  /** The tools used since that answer. */
  function Made(done: seq<Effect>): nat {
    if done == [] || done[|done| - 1].Ask? then 0 else Made(done[..|done| - 1]) + 1
  }

  function CanonicalArgs(env: Env, calls: seq<Call>): (r: seq<Call>)
    ensures |r| == |calls|
  {
    seq(|calls|, k requires 0 <= k < |calls| =>
        if env.canonical(calls[k].args).Some? then calls[k].(args := env.canonical(calls[k].args).value) else calls[k])
  }

  /** What has been said, from the effects and the world's replies alone: after the
      turns given, an assistant turn for each answer with calls, its arguments
      canonical, and a result turn under its call's id for each tool used. */
  function Transcript(env: Env, turns: seq<Turn>, done: seq<Effect>): seq<Turn> {
    if done == [] then turns
    else
      var past := Transcript(env, turns, done[..|done| - 1]);
      match done[|done| - 1]
      case Ask(_, _) =>
        (match env.reply(done)
         case Said(text, calls) => past + [Turn(Assistant, text, CanonicalArgs(env, calls), 0)]
         case _ => past)
      case Use(_, _, call) =>
        (match env.reply(done)
         case Result(content) => past + [Turn(ToolResult, content, [], call.id)]
         case _ => past)
  }

  /** The conversation goes on after its last effect: at its very start, after an
      answer with one to eight calls, or after a tool's result. */
  ghost predicate GoesOn(env: Env, done: seq<Effect>) {
    done == []
    || (done[|done| - 1].Ask? && env.reply(done).Said? && 0 < |env.reply(done).calls| <= 8)
    || (done[|done| - 1].Use? && env.reply(done).Result?)
  }

  /** An argument text as it was sent or, in a resumed run, as it was saved. */
  predicate SentAs(env: Env, resumed: bool, sent: Args, args: Args) {
    args == sent || (resumed && (args == env.stored(sent) || env.canonical(sent) == Some(args)))
  }

  ghost predicate Within(env: Env, resumed: bool, name: Id, sent: Args) {
    exists args :: SentAs(env, resumed, sent, args) && env.permit(name, args) && env.length(args) <= 65536
  }

  /** The one effect that may come next: asking the provider with the transcript, in
      the next step and within the context limits, once every wanted call has been
      made; or else making the next wanted call, if it is permitted, with its
      canonical arguments. */
  ghost predicate Due(env: Env, resumed: bool, turns: seq<Turn>, done: seq<Effect>, e: Effect) {
    var wanted := Wanted(env, done);
    && GoesOn(env, done)
    && match e
       case Ask(step, sent) =>
         && Made(done) == |wanted|
         && step == Asks(done) < env.maxSteps
         && sent == Transcript(env, turns, done) && env.size(sent) <= env.maxBytes && |sent| <= env.maxTurns
       case Use(step, index, call) =>
         && index == Made(done) < |wanted| && step + 1 == Asks(done)
         && call.id == wanted[index].id && call.name == wanted[index].name
         && env.canonical(wanted[index].args) == Some(call.args)
         && Within(env, resumed, call.name, wanted[index].args)
  }

  /** Every effect was the one due after those before it. */
  ghost predicate Faithful(env: Env, resumed: bool, turns: seq<Turn>, done: seq<Effect>) {
    forall k :: 0 <= k < |done| ==> Due(env, resumed, turns, done[..k], done[k])
  }

  /** Why a run that was not resumed ended where it did. */
  ghost predicate Justified(env: Env, turns: seq<Turn>, o: Outcome) {
    match o
    case Answered(text, done) => done != [] && done[|done| - 1].Ask? && env.reply(done) == Said(text, [])
    case Paused(_, done) => exists e :: Due(env, false, turns, done, e) && env.needs(e)
    case Failed(done) =>
      if !GoesOn(env, done) then !(done[|done| - 1].Ask? && env.reply(done).Said? && env.reply(done).calls == [])
      else if Made(done) >= |Wanted(env, done)| then
        var next := Transcript(env, turns, done);
        Asks(done) >= env.maxSteps || env.size(next) > env.maxBytes || |next| > env.maxTurns
      else
        var call := Wanted(env, done)[Made(done)];
        !env.permit(call.name, call.args) || env.length(call.args) > 65536 || env.canonical(call.args).None?
  }

  /** A state is where these effects lead: between steps it holds the transcript;
      within one it also holds the wanted calls, canonical as far as made. */
  ghost predicate LedTo(env: Env, resumed: bool, turns: seq<Turn>, s: State, done: seq<Effect>) {
    var wanted := Wanted(env, done);
    && Shape(s) && GoesOn(env, done)
    && (s.providerNeeded ==>
          && s.calls == [] && s.nextCall == 0 && s.step == Asks(done) && Made(done) == |wanted|
          && s.turns == Transcript(env, turns, done))
    && (!s.providerNeeded ==>
          && s.step + 1 == Asks(done) && s.nextCall == Made(done) && |s.calls| == |wanted| > 0
          && InStep(env, s, Transcript(env, turns, done), CanonicalArgs(env, wanted))
          && forall k :: 0 <= k < |wanted| ==> CallLed(env, resumed, s, wanted, k))
  }

  ghost predicate CallLed(env: Env, resumed: bool, s: State, wanted: seq<Call>, k: nat)
    requires k < |wanted| == |s.calls|
  {
    && s.calls[k].id == wanted[k].id && s.calls[k].name == wanted[k].name
    && (if k < s.nextCall then env.canonical(wanted[k].args) == Some(s.calls[k].args)
        else SentAs(env, resumed, wanted[k].args, s.calls[k].args))
  }

  /** The transcript within a step, but for the assistant turn's calls. */
  ghost predicate InStep(env: Env, s: State, transcript: seq<Turn>, calls: seq<Call>) {
    var b := Base(s);
    && 0 <= b < |s.turns| && s.turns[b].role.Assistant? && s.turns[b].calls == s.calls
    && (forall i :: b < i < |s.turns| ==> s.turns[i].role.ToolResult? && s.turns[i].calls == [])
    && transcript == s.turns[b := s.turns[b].(calls := calls)]
  }

  /** From `s0` to `s` the calls in between were made in order: each permitted, within
      the limit, with its own id and canonical arguments, and followed by the turn
      that holds its own id and its own result. */
  ghost predicate CallsMade(env: Env, s0: State, done0: seq<Effect>, s: State, done: seq<Effect>) {
    && s0.nextCall <= s.nextCall <= |s0.calls| == |s.calls| && s.calls[s.nextCall..] == s0.calls[s.nextCall..]
    && |done| == |done0| + s.nextCall - s0.nextCall && |s.turns| == |s0.turns| + s.nextCall - s0.nextCall
    && done0 <= done
    && forall k :: s0.nextCall <= k < s.nextCall ==> CallMade(env, s0, done0, s, done, k)
  }

  ghost predicate CallMade(env: Env, s0: State, done0: seq<Effect>, s: State, done: seq<Effect>, k: nat)
    requires s0.nextCall <= k < |s0.calls| && k - s0.nextCall < |done| - |done0| && k - s0.nextCall < |s.turns| - |s0.turns|
  {
    var call, j := s0.calls[k], |done0| + k - s0.nextCall;
    && env.permit(call.name, call.args) && env.length(call.args) <= 65536 && env.canonical(call.args).Some?
    && done[j] == Use(s0.step, k, Call(call.id, call.name, env.canonical(call.args).value))
    && env.reply(done[..j + 1]).Result?
    && s.turns[|s0.turns| + k - s0.nextCall] == Turn(ToolResult, env.reply(done[..j + 1]).content, [], call.id)
  }

  lemma NoCallsMade(env: Env, s0: State, done0: seq<Effect>)
    requires Shape(s0)
    ensures CallsMade(env, s0, done0, s0, done0)
  {
  }

  /** Binding leaves result turns alone. */
  lemma {:induction false} BindKeepsResults(turns: seq<Turn>, calls: seq<Call>, i: nat)
    requires i < |turns| && !turns[i].role.Assistant?
    ensures Bind(turns, calls)[i] == turns[i]
    decreases |turns|
  {
    var n := |turns| - 1;
    if i < n && !(turns[n].role.Assistant? && turns[n].calls != []) {
      BindKeepsResults(turns[..n], calls, i);
    }
  }

  /** The next call of `s` was made, leading to `t`. */
  ghost predicate NextCallMade(env: Env, s: State, done: seq<Effect>, t: State, after: seq<Effect>) {
    && s.nextCall < |s.calls| && t.step == s.step && !t.providerNeeded && t.nextCall == s.nextCall + 1
    && Authorized(env, s.calls[s.nextCall]) && env.canonical(s.calls[s.nextCall].args).Some?
    && var call := s.calls[s.nextCall].(args := env.canonical(s.calls[s.nextCall].args).value);
    && after == done + [Use(s.step, s.nextCall, call)] && env.reply(after).Result?
    && t.calls == s.calls[s.nextCall := call]
    && t.turns == Bind(s.turns, t.calls) + [Turn(ToolResult, env.reply(after).content, [], call.id)]
  }

  lemma OneMoreCall(env: Env, s0: State, done0: seq<Effect>, s: State, done: seq<Effect>, t: State, after: seq<Effect>)
    requires CallsMade(env, s0, done0, s, done) && NextCallMade(env, s, done, t, after) && s.step == s0.step
    ensures CallsMade(env, s0, done0, t, after)
  {
    assert s.calls[s.nextCall] == s.calls[s.nextCall..][0] == s0.calls[s.nextCall..][0] == s0.calls[s.nextCall];
    assert t.calls[t.nextCall..] == s.calls[s.nextCall..][1..] == s0.calls[s.nextCall..][1..] == s0.calls[t.nextCall..];
    forall k | s0.nextCall <= k < t.nextCall ensures CallMade(env, s0, done0, t, after, k) {
      var j := |done0| + k - s0.nextCall;
      if k < s.nextCall {
        assert CallMade(env, s0, done0, s, done, k);
        assert after[..j + 1] == done[..j + 1];
        BindKeepsResults(s.turns, t.calls, |s0.turns| + k - s0.nextCall);
      } else {
        assert after[..j + 1] == after;
      }
    }
  }

  /** One turn of the loop over a step's calls. */
  method MakeCall(env: Env, gate0: Gate, s0: State, done0: seq<Effect>)
    returns (s: State, gate: Gate, done: seq<Effect>, stopped: Option<Outcome>)
    requires Shape(s0) && s0.step < env.maxSteps && !s0.providerNeeded && s0.nextCall < |s0.calls|
    ensures stopped.Some? ==> Tools(env, gate0, s0, done0) == stopped.value
    ensures stopped.None? ==> NextCallMade(env, s0, done0, s, done) && Tools(env, gate0, s0, done0) == Tools(env, gate, s, done)
  {
    s, gate, done, stopped := s0, gate0, done0, None;
    var call := s.calls[s.nextCall];
    if !Authorized(env, call) || env.canonical(call.args).None? {
      return s, gate, done, Some(Failed(done));
    }
    call := call.(args := env.canonical(call.args).value);
    s := s.(calls := s.calls[s.nextCall := call]);
    s := s.(turns := Bind(s.turns, s.calls));
    var e := Use(s.step, s.nextCall, call);
    if Stops(env, gate, e) {
      return s, gate, done, Some(Paused(s, done));
    }
    done := done + [e];
    gate := Later(gate);
    match env.reply(done) {
      case Result(content) =>
        s := s.(turns := s.turns + [Turn(ToolResult, content, [], call.id)], nextCall := s.nextCall + 1);
      case _ =>
        stopped := Some(Failed(done));
    }
  }

  /** The loop over one step's calls. */
  method MakeCalls(env: Env, gate0: Gate, s0: State, done0: seq<Effect>)
    returns (s: State, gate: Gate, done: seq<Effect>, stopped: Option<Outcome>)
    requires Shape(s0) && s0.step < env.maxSteps && !s0.providerNeeded
    ensures stopped.Some? ==> Tools(env, gate0, s0, done0) == stopped.value
    ensures stopped.None? ==>
              && Shape(s) && s.step == s0.step && s.nextCall == |s0.calls| && CallsMade(env, s0, done0, s, done)
              && Tools(env, gate0, s0, done0) == Top(env, gate, NextStep(s), done)
  {
    s, gate, done, stopped := s0, gate0, done0, None;
    NoCallsMade(env, s0, done0);
    while s.nextCall < |s.calls|
      invariant stopped.None? && Shape(s) && s.step == s0.step && !s.providerNeeded && CallsMade(env, s0, done0, s, done)
      invariant Tools(env, gate, s, done) == Tools(env, gate0, s0, done0)
      decreases |s.calls| - s.nextCall
    {
      ghost var was, before := s, done;
      s, gate, done, stopped := MakeCall(env, gate, s, done);
      if stopped.Some? {
        return;
      }
      OneMoreCall(env, s0, done0, was, before, s, done);
    }
  }

  /** The conversation's outer loop. */
  method RunConversation(env: Env, gate0: Gate, s0: State, done0: seq<Effect>) returns (outcome: Outcome)
    requires Shape(s0)
    ensures outcome == Top(env, gate0, s0, done0)
    ensures s0 == Start(s0.turns) && done0 == [] ==>
              Faithful(env, false, s0.turns, outcome.done) && Justified(env, s0.turns, outcome)
  {
    if s0 == Start(s0.turns) && done0 == [] {
      EveryRunIsFaithful(env, gate0, s0.turns);
    }
    var s, gate, done := s0, gate0, done0;
    while s.step < env.maxSteps
      invariant Shape(s) && Top(env, gate, s, done) == Top(env, gate0, s0, done0)
      decreases env.maxSteps - s.step
    {
      if !Fits(env, s.turns) {
        return Failed(done);
      }
      if s.providerNeeded {
        var e := Ask(s.step, s.turns);
        if Stops(env, gate, e) {
          return Paused(s, done);
        }
        done := done + [e];
        gate := Later(gate);
        match env.reply(done) {
          case Said(text, calls) =>
            if calls == [] {
              return Answered(text, done);
            }
            if |calls| > MAX_CALLS {
              return Failed(done);
            }
            s := State(s.turns + [Turn(Assistant, text, calls, 0)], s.step, 0, calls, false);
          case _ =>
            return Failed(done);
        }
      }
      var stopped: Option<Outcome>;
      s, gate, done, stopped := MakeCalls(env, gate, s, done);
      if stopped.Some? {
        return stopped.value;
      }
      s := State(s.turns, s.step + 1, 0, [], true);
    }
    outcome := Failed(done);
  }

  /** A run that stops only gets closer to the end. */
  lemma {:induction false} TopProgress(env: Env, gate: Gate, s: State, done: seq<Effect>)
    requires Shape(s)
    ensures var o := Top(env, gate, s, done);
            o.Paused? ==>
              && Shape(o.state) && o.state.step < env.maxSteps && Work(env, o.state) <= Work(env, s)
              && (gate == Closed(true) ==> Work(env, o.state) < Work(env, s))
    decreases Work(env, s), 1
  {
    if s.step < env.maxSteps && Fits(env, s.turns) {
      if s.providerNeeded {
        var e := Ask(s.step, s.turns);
        if !Stops(env, gate, e) {
          match env.reply(done + [e])
          case Said(text, calls) =>
            if calls != [] && |calls| <= MAX_CALLS {
              ToolsProgress(env, Later(gate), WithAnswer(s, text, calls), done + [e]);
            }
          case _ =>
        }
      } else {
        ToolsProgress(env, gate, s, done);
      }
    }
  }

  lemma {:induction false} ToolsProgress(env: Env, gate: Gate, s: State, done: seq<Effect>)
    requires Shape(s) && s.step < env.maxSteps && !s.providerNeeded
    ensures var o := Tools(env, gate, s, done);
            o.Paused? ==>
              && Shape(o.state) && o.state.step < env.maxSteps && Work(env, o.state) <= Work(env, s)
              && (gate == Closed(true) ==> Work(env, o.state) < Work(env, s))
    decreases Work(env, s), 0
  {
    if s.nextCall < |s.calls| {
      var call := s.calls[s.nextCall];
      if Authorized(env, call) && env.canonical(call.args).Some? {
        var t := Canonized(s, env.canonical(call.args).value);
        var e := Use(t.step, t.nextCall, t.calls[t.nextCall]);
        if !Stops(env, gate, e) {
          match env.reply(done + [e])
          case Result(content) => ToolsProgress(env, Later(gate), Advanced(t, content), done + [e]);
          case _ =>
        }
      }
    } else {
      TopProgress(env, gate, NextStep(s), done);
    }
  }

  /** Stopping at every approval and resuming each time from the continuation. */
  ghost function Interrupted(env: Env, ticket: bool, s: State, done: seq<Effect>): Outcome
    requires Shape(s)
    decreases Work(env, s), if ticket then 0 else 1
  {
    TopProgress(env, Closed(ticket), s, done);
    var o := Top(env, Closed(ticket), s, done);
    if !o.Paused? then o
    else if !Acceptable(env, o.state) then Failed(o.done)
    else Interrupted(env, true, Restore(env, o.state), o.done)
  }

  /** How things go on from the outcome of a run. */
  ghost function After(env: Env, o: Outcome): Outcome
    requires o.Paused? ==> Shape(o.state)
  {
    if !o.Paused? then o
    else if !Acceptable(env, o.state) then Failed(o.done)
    else Interrupted(env, true, Restore(env, o.state), o.done)
  }

  /** What JSON gives: reading back what was stored changes nothing more, and
      neither storing nor canonicalising changes an argument's meaning or the size
      of the encodings, which are taken of stored texts anyway. */
  ghost predicate Laws(env: Env) {
    && (forall a :: env.canonical(a).Some? ==>
          && env.canonical(env.canonical(a).value) == env.canonical(a)
          && env.stored(env.canonical(a).value) == env.canonical(a).value)
    && (forall a :: env.canonical(env.stored(a)) == env.canonical(a) && env.stored(env.stored(a)) == env.stored(a))
    && (forall n, a :: env.permit(n, env.stored(a)) == env.permit(n, a))
    && (forall n, a :: env.canonical(a).Some? ==> env.permit(n, env.canonical(a).value) == env.permit(n, a))
    && (forall turns :: env.size(StoreTurns(env, turns)) == env.size(turns))
    && (forall s :: env.total(Restore(env, s)) == env.total(s))
  }

  ghost predicate StableCalls(env: Env, calls: seq<Call>) {
    forall k :: 0 <= k < |calls| ==> env.stored(calls[k].args) == calls[k].args
  }

  ghost predicate StableTurns(env: Env, turns: seq<Turn>) {
    forall i :: 0 <= i < |turns| ==> StableCalls(env, turns[i].calls)
  }

  /** Where the assistant turn of the current step stands. */
  function Base(s: State): int {
    |s.turns| - 1 - s.nextCall
  }

  /** What both runs keep: settled turns, then the assistant turn bound to the
      calls, then one result for each call made. */
  ghost predicate Tidy(env: Env, s: State) {
    && Shape(s)
    && (s.providerNeeded ==> s.calls == [] && s.nextCall == 0 && StableTurns(env, s.turns))
    && (!s.providerNeeded ==>
          var b := Base(s);
          && b >= 0 && s.calls != []
          && StableTurns(env, s.turns[..b]) && StableCalls(env, s.calls[..s.nextCall])
          && s.turns[b].role.Assistant? && s.turns[b].calls == s.calls
          && forall i :: b < i < |s.turns| ==> s.turns[i].role.ToolResult? && s.turns[i].calls == [])
  }

  lemma {:induction false} BindAt(turns: seq<Turn>, b: nat, calls: seq<Call>)
    requires b < |turns| && turns[b].role.Assistant? && turns[b].calls != []
    requires forall i :: b < i < |turns| ==> turns[i].role.ToolResult?
    ensures Bind(turns, calls) == turns[b := turns[b].(calls := calls)]
    decreases |turns|
  {
    var n := |turns| - 1;
    if b < n {
      BindAt(turns[..n], b, calls);
      assert turns[..n][b := turns[b].(calls := calls)] + [turns[n]] == turns[b := turns[b].(calls := calls)];
    } else {
      assert turns[..n] + [turns[n].(calls := calls)] == turns[b := turns[b].(calls := calls)];
    }
  }

  lemma StableStays(env: Env, turns: seq<Turn>)
    requires StableTurns(env, turns)
    ensures StoreTurns(env, turns) == turns
  {
    forall i | 0 <= i < |turns| ensures StoreCalls(env, turns[i].calls) == turns[i].calls {
      assert StableCalls(env, turns[i].calls);
    }
  }

  /** The interrupted run's counterpart of a state: the same up to the storing of
      calls not yet made. */
  ghost predicate Alike(env: Env, s: State, t: State) {
    && t.step == s.step && t.nextCall == s.nextCall && t.providerNeeded == s.providerNeeded && |t.calls| == |s.calls|
    && (s.providerNeeded ==> t == s)
    && (!s.providerNeeded ==>
          && 0 <= Base(s) < |s.turns|
          && t.turns == s.turns[Base(s) := s.turns[Base(s)].(calls := t.calls)]
          && forall k :: 0 <= k < |s.calls| ==> AlikeCall(env, s.nextCall, s.calls[k], t.calls[k], k))
  }

  ghost predicate AlikeCall(env: Env, next: nat, c: Call, d: Call, k: nat) {
    && d.id == c.id && d.name == c.name
    && (if k < next then d.args == c.args else d.args == c.args || d.args == env.stored(c.args))
  }

  /** `p` is `s` with its next call and its assistant turn rewritten. */
  predicate Rewritten(s: State, p: State, args: Args) {
    && s.nextCall < |s.calls| && 0 <= Base(s) < |s.turns|
    && p.calls == s.calls[s.nextCall := s.calls[s.nextCall].(args := args)]
    && p == s.(calls := p.calls, turns := s.turns[Base(s) := s.turns[Base(s)].(calls := p.calls)])
  }

  lemma CanonizedTidy(env: Env, s: State, args: Args)
    requires Laws(env) && Tidy(env, s) && !s.providerNeeded && s.nextCall < |s.calls|
    requires env.canonical(s.calls[s.nextCall].args) == Some(args)
    ensures var t := Canonized(s, args);
            && Tidy(env, t) && env.canonical(args) == Some(args) && env.stored(args) == args
            && Rewritten(s, t, args)
  {
    var t := Canonized(s, args);
    var b := Base(s);
    BindAt(s.turns, b, t.calls);
    assert t.turns[..b] == s.turns[..b] && t.calls[..s.nextCall] == s.calls[..s.nextCall];
  }

  lemma AdvancedTidy(env: Env, s: State, content: Id)
    requires Tidy(env, s) && !s.providerNeeded && s.nextCall < |s.calls|
    requires env.stored(s.calls[s.nextCall].args) == s.calls[s.nextCall].args
    ensures Tidy(env, Advanced(s, content))
  {
    var t := Advanced(s, content);
    var b := Base(s);
    assert t.turns[..b] == s.turns[..b];
    assert s.calls[..s.nextCall + 1] == s.calls[..s.nextCall] + [s.calls[s.nextCall]];
  }

  /** A continuation that a resumed run can go on from: it fits, its turns fit,
      and so do the arguments still to be forwarded, as they were stored. */
  ghost predicate Resumable(env: Env, s: State) {
    && Acceptable(env, s) && Fits(env, s.turns)
    && forall k :: s.nextCall <= k < |s.calls| ==> env.length(env.stored(s.calls[k].args)) <= MAX_ARGUMENT_BYTES
  }

  /** Every continuation that the run would save at an approval is resumable. */
  ghost predicate TopSmooth(env: Env, s: State, done: seq<Effect>)
    requires Shape(s)
    decreases Work(env, s), 1
  {
    s.step < env.maxSteps && Fits(env, s.turns) ==>
      if s.providerNeeded then
        var e := Ask(s.step, s.turns);
        && (env.needs(e) ==> Resumable(env, s))
        && match env.reply(done + [e])
           case Said(text, calls) => calls != [] && |calls| <= MAX_CALLS ==> ToolsSmooth(env, WithAnswer(s, text, calls), done + [e])
           case _ => true
      else ToolsSmooth(env, s, done)
  }

  ghost predicate ToolsSmooth(env: Env, s: State, done: seq<Effect>)
    requires Shape(s) && s.step < env.maxSteps && !s.providerNeeded
    decreases Work(env, s), 0
  {
    if s.nextCall < |s.calls| then
      var call := s.calls[s.nextCall];
      Authorized(env, call) && env.canonical(call.args).Some? ==>
        var t := Canonized(s, env.canonical(call.args).value);
        var e := Use(t.step, t.nextCall, t.calls[t.nextCall]);
        && (env.needs(e) ==> Resumable(env, t))
        && match env.reply(done + [e])
           case Result(content) => ToolsSmooth(env, Advanced(t, content), done + [e])
           case _ => true
    else TopSmooth(env, NextStep(s), done)
  }

  lemma StoreCallsAlike(env: Env, s: State, t: State)
    requires Laws(env) && Alike(env, s, t) && !s.providerNeeded
    ensures StoreCalls(env, s.calls) == StoreCalls(env, t.calls)
  {
    forall k | 0 <= k < |s.calls| ensures StoreCalls(env, s.calls)[k] == StoreCalls(env, t.calls)[k] {
      assert AlikeCall(env, s.nextCall, s.calls[k], t.calls[k], k);
    }
  }

  /** Saving and reading back a state within a step. */
  lemma RestoreTidy(env: Env, s: State)
    requires Laws(env) && Tidy(env, s) && !s.providerNeeded
    ensures var r := Restore(env, s);
            && r.turns == s.turns[Base(s) := s.turns[Base(s)].(calls := r.calls)]
            && Tidy(env, r) && Alike(env, s, r)
  {
    var r := Restore(env, s);
    var b := Base(s);
    forall i | 0 <= i < |s.turns| && i != b ensures r.turns[i] == s.turns[i] {
      if i < b {
        assert s.turns[..b][i] == s.turns[i];
        assert StableCalls(env, s.turns[..b][i].calls);
        assert StoreCalls(env, s.turns[i].calls) == s.turns[i].calls;
      } else {
        assert StoreCalls(env, s.turns[i].calls) == s.turns[i].calls;
      }
    }
    forall k | 0 <= k < |s.calls| ensures AlikeCall(env, s.nextCall, s.calls[k], r.calls[k], k) {
      if k < s.nextCall {
        assert s.calls[..s.nextCall][k] == s.calls[k];
      }
    }
    assert r.turns[..b] == s.turns[..b];
    assert StableCalls(env, r.calls);
    assert forall k :: 0 <= k < r.nextCall ==> r.calls[..r.nextCall][k] == r.calls[k];
  }

  /** Two counterparts are saved as one and the same continuation. */
  lemma SavedAlike(env: Env, s: State, t: State)
    requires Laws(env) && Tidy(env, s) && Tidy(env, t) && Alike(env, s, t) && !s.providerNeeded
    ensures Restore(env, t) == Restore(env, s)
    ensures env.total(t) == env.total(s) && env.size(t.turns) == env.size(s.turns)
  {
    StoreCallsAlike(env, s, t);
    RestoreTidy(env, s);
    RestoreTidy(env, t);
    var r, q := Restore(env, s), Restore(env, t);
    assert q.turns == r.turns;
    assert env.total(Restore(env, t)) == env.total(t) && env.total(Restore(env, s)) == env.total(s);
    assert env.size(StoreTurns(env, t.turns)) == env.size(t.turns) && env.size(StoreTurns(env, s.turns)) == env.size(s.turns);
  }

  lemma CanonizedAlike(env: Env, s: State, t: State, args: Args)
    requires Laws(env) && Tidy(env, s) && Tidy(env, t) && Alike(env, s, t)
    requires !s.providerNeeded && s.nextCall < |s.calls| && env.canonical(s.calls[s.nextCall].args) == Some(args)
    ensures env.canonical(t.calls[t.nextCall].args) == Some(args)
    ensures t.calls[t.nextCall].name == s.calls[s.nextCall].name
    ensures env.permit(t.calls[t.nextCall].name, t.calls[t.nextCall].args) == env.permit(s.calls[s.nextCall].name, s.calls[s.nextCall].args)
    ensures Alike(env, Canonized(s, args), Canonized(t, args))
    ensures Canonized(t, args).calls[t.nextCall] == Canonized(s, args).calls[s.nextCall]
  {
    CanonizedTidy(env, s, args);
    CanonizedTidy(env, t, args);
  }

  /** Once all calls of a step are made the two runs coincide again. */
  lemma AlikeAtTheEnd(env: Env, s: State, t: State)
    requires Tidy(env, s) && Alike(env, s, t) && !s.providerNeeded && s.nextCall == |s.calls|
    ensures t == s && Tidy(env, NextStep(s))
  {
    forall k | 0 <= k < |s.calls| ensures t.calls[k] == s.calls[k] {
      assert AlikeCall(env, s.nextCall, s.calls[k], t.calls[k], k);
    }
    assert t.calls == s.calls;
    var b := Base(s);
    assert s.calls[..s.nextCall] == s.calls;
    forall i | 0 <= i < |s.turns| ensures StableCalls(env, s.turns[i].calls) {
      if i < b { assert s.turns[..b][i] == s.turns[i]; }
    }
  }

  /** A stored argument over the limit stays over it: such a run never answers. */
  lemma {:induction false} Doomed(env: Env, ticket: bool, s: State, done: seq<Effect>, j: nat)
    requires Laws(env) && Shape(s) && s.step < env.maxSteps && !s.providerNeeded && s.nextCall <= j < |s.calls|
    requires env.stored(s.calls[j].args) == s.calls[j].args && env.length(s.calls[j].args) > MAX_ARGUMENT_BYTES
    ensures var o := Tools(env, Closed(ticket), s, done);
            (o.Paused? ==> Shape(o.state)) && !After(env, o).Answered?
    decreases Work(env, s), if ticket then 0 else 1
  {
    var gate := Closed(ticket);
    ToolsProgress(env, gate, s, done);
    var call := s.calls[s.nextCall];
    if Authorized(env, call) && env.canonical(call.args).Some? {
      var t := Canonized(s, env.canonical(call.args).value);
      var e := Use(t.step, t.nextCall, t.calls[t.nextCall]);
      if Stops(env, gate, e) {
        var r := Restore(env, t);
        if Acceptable(env, t) && Fits(env, r.turns) {
          Doomed(env, true, r, done, j);
        }
      } else {
        match env.reply(done + [e])
        case Result(content) => Doomed(env, false, Advanced(t, content), done + [e], j);
        case _ =>
      }
    }
  }

  /** Stored arguments of calls still to be made are within the limit. */
  ghost predicate LengthsFit(env: Env, s: State, t: State)
    requires |t.calls| == |s.calls|
  {
    forall k :: s.nextCall <= k < |s.calls| ==>
      t.calls[k].args == s.calls[k].args || env.length(t.calls[k].args) <= MAX_ARGUMENT_BYTES
  }

  lemma CanonizedSame(env: Env, r: State)
    requires Tidy(env, r) && !r.providerNeeded && r.nextCall < |r.calls|
    ensures Canonized(r, r.calls[r.nextCall].args) == r
  {
    var call := r.calls[r.nextCall];
    assert r.calls[r.nextCall := call.(args := call.args)] == r.calls;
    BindAt(r.turns, Base(r), r.calls);
    assert r.turns[Base(r) := r.turns[Base(r)].(calls := r.calls)] == r.turns;
  }

  /** The next call's effect. */
  function NextEffect(s: State): Effect
    requires s.nextCall < |s.calls|
  {
    Use(s.step, s.nextCall, s.calls[s.nextCall])
  }

  /** A resumed run repeats its first call's checks and makes it. */
  lemma TicketSpent(env: Env, r: State, done: seq<Effect>, content: Id)
    requires Tidy(env, r) && r.step < env.maxSteps && !r.providerNeeded && r.nextCall < |r.calls|
    requires env.canonical(r.calls[r.nextCall].args) == Some(r.calls[r.nextCall].args)
    requires env.permit(r.calls[r.nextCall].name, r.calls[r.nextCall].args)
    requires env.reply(done + [NextEffect(r)]) == Result(content)
    ensures Tools(env, Closed(true), r, done)
            == if env.length(r.calls[r.nextCall].args) <= MAX_ARGUMENT_BYTES
               then Tools(env, Closed(false), Advanced(r, content), done + [NextEffect(r)]) else Failed(done)
  {
    CanonizedSame(env, r);
  }

  /** Going on from a continuation saved at a call. */
  lemma ResumedCall(env: Env, q: State, done: seq<Effect>)
    requires Shape(q) && q.step < env.maxSteps && !q.providerNeeded
    ensures var r := Restore(env, q);
            var o := Tools(env, Closed(true), r, done);
            && (o.Paused? ==> Shape(o.state))
            && After(env, Paused(q, done))
               == if Acceptable(env, q) && Fits(env, r.turns) then After(env, o) else Failed(done)
  {
    var r := Restore(env, q);
    ToolsProgress(env, Closed(true), r, done);
    TopProgress(env, Closed(true), r, done);
  }

  /** Making one step's remaining calls with stops. */
  ghost function FromTools(env: Env, s: State, done: seq<Effect>): Outcome
    requires Shape(s) && s.step < env.maxSteps && !s.providerNeeded
  {
    ToolsProgress(env, Closed(false), s, done);
    After(env, Tools(env, Closed(false), s, done))
  }

  /** The uninterrupted run makes its next call. */
  ghost predicate Makes(env: Env, s: State, args: Args, done: seq<Effect>, content: Id)
    requires Shape(s)
  {
    && Tidy(env, s) && s.step < env.maxSteps && !s.providerNeeded && s.nextCall < |s.calls|
    && Authorized(env, s.calls[s.nextCall]) && env.canonical(s.calls[s.nextCall].args) == Some(args)
    && env.reply(done + [NextEffect(Canonized(s, args))]) == Result(content)
  }

  lemma OpenCall(env: Env, s: State, done: seq<Effect>) returns (args: Args, content: Id)
    requires Tidy(env, s) && s.step < env.maxSteps && !s.providerNeeded && s.nextCall < |s.calls|
    requires Tools(env, Open, s, done).Answered?
    ensures Makes(env, s, args, done, content)
    ensures var p := Canonized(s, args);
            Tools(env, Open, s, done) == Tools(env, Open, Advanced(p, content), done + [NextEffect(p)])
    ensures var p := Canonized(s, args);
            ToolsSmooth(env, s, done)
            <==> (env.needs(NextEffect(p)) ==> Resumable(env, p)) && ToolsSmooth(env, Advanced(p, content), done + [NextEffect(p)])
  {
    args := env.canonical(s.calls[s.nextCall].args).value;
    content := env.reply(done + [NextEffect(Canonized(s, args))]).content;
  }

  /** `r` is what both counterparts' continuations are read back as. */
  ghost predicate Saves(env: Env, p: State, q: State, r: State) {
    && Tidy(env, r) && r == Restore(env, q) && q.step == r.step == p.step && !q.providerNeeded && !r.providerNeeded && Shape(q)
    && r.nextCall == q.nextCall == p.nextCall < |p.calls| == |r.calls| == |q.calls|
    && r.calls[r.nextCall] == p.calls[p.nextCall]
    && env.total(q) == env.total(p) && Fits(env, r.turns) == Fits(env, p.turns)
    && (forall j :: p.nextCall <= j < |p.calls| ==> r.calls[j].args == env.stored(p.calls[j].args))
  }

  lemma SavesAlike(env: Env, p: State, q: State)
    requires Laws(env) && Tidy(env, p) && Tidy(env, q) && Alike(env, p, q) && !p.providerNeeded && p.nextCall < |p.calls|
    requires env.stored(p.calls[p.nextCall].args) == p.calls[p.nextCall].args
    ensures Saves(env, p, q, Restore(env, p))
  {
    RestoreTidy(env, p);
    SavedAlike(env, p, q);
    SavedAlike(env, p, Restore(env, p));
  }

  /** Stopping for one call and resuming goes on from the stored continuation when
      it is resumable, and never answers otherwise. */
  lemma StoppedCall(env: Env, p: State, q: State, r: State, done: seq<Effect>, content: Id)
    requires Laws(env) && Saves(env, p, q, r) && p.step < env.maxSteps
    requires env.canonical(r.calls[r.nextCall].args) == Some(r.calls[r.nextCall].args)
    requires env.permit(r.calls[r.nextCall].name, r.calls[r.nextCall].args)
    requires env.reply(done + [NextEffect(r)]) == Result(content)
    ensures var o := After(env, Paused(q, done));
            && (Resumable(env, p) ==> o == FromTools(env, Advanced(r, content), done + [NextEffect(r)]))
            && (!Resumable(env, p) ==> !o.Answered?)
  {
    ResumedCall(env, q, done);
    TicketSpent(env, r, done, content);
    if exists j :: p.nextCall <= j < |p.calls| && env.length(env.stored(p.calls[j].args)) > MAX_ARGUMENT_BYTES {
      var j :| p.nextCall <= j < |p.calls| && env.length(env.stored(p.calls[j].args)) > MAX_ARGUMENT_BYTES;
      assert env.stored(r.calls[j].args) == r.calls[j].args;
      Doomed(env, true, r, done, j);
    }
  }

  /** Counterpart states within a step, whose stored arguments fit. */
  ghost predicate Paired(env: Env, s: State, t: State) {
    Tidy(env, s) && Tidy(env, t) && Alike(env, s, t) && LengthsFit(env, s, t) && !s.providerNeeded
  }

  lemma PairedCall(env: Env, s: State, t: State, args: Args)
    requires Laws(env) && Paired(env, s, t)
    requires s.nextCall < |s.calls| && env.canonical(s.calls[s.nextCall].args) == Some(args)
    ensures env.canonical(args) == Some(args) && env.stored(args) == args
    ensures Tidy(env, Canonized(s, args)) && Tidy(env, Canonized(t, args)) && Alike(env, Canonized(s, args), Canonized(t, args))
    ensures env.permit(s.calls[s.nextCall].name, args) == env.permit(s.calls[s.nextCall].name, s.calls[s.nextCall].args)
  {
    CanonizedTidy(env, s, args);
    CanonizedAlike(env, s, t, args);
    CanonizedTidy(env, t, args);
  }

  lemma PairedGoes(env: Env, s: State, t: State, args: Args, done: seq<Effect>, content: Id)
    requires Laws(env) && Paired(env, s, t)
    requires Makes(env, s, args, done, content) && !env.needs(NextEffect(Canonized(s, args)))
    ensures var p, q := Canonized(s, args), Canonized(t, args);
            && Paired(env, Advanced(p, content), Advanced(q, content))
            && FromTools(env, t, done) == FromTools(env, Advanced(q, content), done + [NextEffect(p)])
  {
    var p, q := Canonized(s, args), Canonized(t, args);
    PairedCall(env, s, t, args);
    AdvancedTidy(env, p, content);
    AdvancedTidy(env, q, content);
  }

  lemma PairedStops(env: Env, s: State, t: State, args: Args, done: seq<Effect>, content: Id)
    requires Laws(env) && Paired(env, s, t)
    requires Makes(env, s, args, done, content) && env.needs(NextEffect(Canonized(s, args)))
    ensures var p := Canonized(s, args);
            var r := Restore(env, p);
            && Shape(r) && r.nextCall < |r.calls| && !r.providerNeeded && r.step == s.step
            && (Resumable(env, p) ==> FromTools(env, t, done) == FromTools(env, Advanced(r, content), done + [NextEffect(p)]))
            && (!Resumable(env, p) ==> !FromTools(env, t, done).Answered?)
  {
    PairedCall(env, s, t, args);
    var p, q := Canonized(s, args), Canonized(t, args);
    SavesAlike(env, p, q);
    StoppedCall(env, p, q, Restore(env, p), done, content);
  }

  lemma PairedRestored(env: Env, p: State, args: Args, content: Id)
    requires Laws(env) && Tidy(env, p) && !p.providerNeeded && p.nextCall < |p.calls| && Resumable(env, p)
    requires p.calls[p.nextCall].args == args == env.stored(args)
    ensures Paired(env, Advanced(p, content), Advanced(Restore(env, p), content))
  {
    RestoreTidy(env, p);
    AdvancedTidy(env, p, content);
    AdvancedTidy(env, Restore(env, p), content);
  }

  /** From counterpart states within a step: the run with stops gives the same
      answer and effects when every continuation is resumable, and none otherwise. */
  lemma {:induction false} ToolsResume(env: Env, s: State, t: State, done: seq<Effect>)
    requires Laws(env) && Paired(env, s, t) && s.step < env.maxSteps && Tools(env, Open, s, done).Answered?
    ensures ToolsSmooth(env, s, done) ==> FromTools(env, t, done) == Tools(env, Open, s, done)
    ensures !ToolsSmooth(env, s, done) ==> !FromTools(env, t, done).Answered?
    decreases Work(env, s), 0
  {
    if s.nextCall == |s.calls| {
      AlikeAtTheEnd(env, s, t);
      TopResume(env, NextStep(s), done);
    } else {
      var args, content := OpenCall(env, s, done);
      var p := Canonized(s, args);
      PairedCall(env, s, t, args);
      if env.needs(NextEffect(p)) {
        PairedStops(env, s, t, args, done, content);
        if Resumable(env, p) {
          PairedRestored(env, p, args, content);
          ToolsResume(env, Advanced(p, content), Advanced(Restore(env, p), content), done + [NextEffect(p)]);
        }
      } else {
        PairedGoes(env, s, t, args, done, content);
        ToolsResume(env, Advanced(p, content), Advanced(Canonized(t, args), content), done + [NextEffect(p)]);
      }
    }
  }

  /** Stopping at the provider itself: its continuation is read back unchanged. */
  lemma AskedAgain(env: Env, s: State, done: seq<Effect>)
    requires Laws(env) && Tidy(env, s) && s.providerNeeded && s.step < env.maxSteps && Fits(env, s.turns)
    ensures var e := Ask(s.step, s.turns);
            Interrupted(env, false, s, done)
            == if env.needs(e) && !Acceptable(env, s) then Failed(done)
               else
                 match env.reply(done + [e])
                 case Said(text, calls) =>
                   if calls == [] then Answered(text, done + [e])
                   else if |calls| > MAX_CALLS then Failed(done + [e])
                   else FromTools(env, WithAnswer(s, text, calls), done + [e])
                 case _ => Failed(done + [e])
  {
    StableStays(env, s.turns);
    assert Restore(env, s) == s;
  }

  lemma {:induction false} TopResume(env: Env, s: State, done: seq<Effect>)
    requires Laws(env) && Tidy(env, s) && s.providerNeeded && Top(env, Open, s, done).Answered?
    ensures TopSmooth(env, s, done) ==> Interrupted(env, false, s, done) == Top(env, Open, s, done)
    ensures !TopSmooth(env, s, done) ==> !Interrupted(env, false, s, done).Answered?
    decreases Work(env, s), 1
  {
    AskedAgain(env, s, done);
    var e := Ask(s.step, s.turns);
    match env.reply(done + [e])
    case Said(text, calls) =>
      if calls != [] {
        ToolsResume(env, WithAnswer(s, text, calls), WithAnswer(s, text, calls), done + [e]);
      }
    case _ =>
  }

  function Start(turns: seq<Turn>): State {
    State(turns, 0, 0, [], true)
  }

  /** What holds as a run goes on; a resumed one also keeps its stored texts stable. */
  ghost predicate OnCourse(env: Env, resumed: bool, turns: seq<Turn>, s: State, done: seq<Effect>) {
    LedTo(env, resumed, turns, s, done) && Faithful(env, resumed, turns, done) && (resumed ==> Laws(env) && Tidy(env, s))
  }

  lemma DueExtends(env: Env, resumed: bool, turns: seq<Turn>, done: seq<Effect>, e: Effect)
    requires Faithful(env, resumed, turns, done) && Due(env, resumed, turns, done, e)
    ensures Faithful(env, resumed, turns, done + [e])
  {
    var after := done + [e];
    assert after[..|done|] == done;
    forall k | 0 <= k < |after| ensures Due(env, resumed, turns, after[..k], after[k]) {
      if k < |done| { assert after[..k] == done[..k] && after[k] == done[k]; }
    }
  }

  lemma AskIsDue(env: Env, resumed: bool, turns: seq<Turn>, s: State, done: seq<Effect>)
    requires LedTo(env, resumed, turns, s, done) && s.providerNeeded && s.step < env.maxSteps && Fits(env, s.turns)
    ensures Due(env, resumed, turns, done, Ask(s.step, s.turns))
  {
  }

  lemma AnsweredIsLedTo(env: Env, resumed: bool, turns: seq<Turn>, s: State, done: seq<Effect>, text: Id, calls: seq<Call>)
    requires LedTo(env, resumed, turns, s, done) && s.providerNeeded
    requires env.reply(done + [Ask(s.step, s.turns)]) == Said(text, calls) && 0 < |calls| <= MAX_CALLS
    ensures LedTo(env, resumed, turns, WithAnswer(s, text, calls), done + [Ask(s.step, s.turns)])
  {
    var t, after := WithAnswer(s, text, calls), done + [Ask(s.step, s.turns)];
    assert after[..|done|] == done;
    assert Wanted(env, after) == calls && Made(after) == 0 && Asks(after) == Asks(done) + 1;
    assert InStep(env, t, Transcript(env, turns, after), CanonicalArgs(env, calls));
  }

  lemma AnsweredLeads(env: Env, resumed: bool, turns: seq<Turn>, s: State, done: seq<Effect>, text: Id, calls: seq<Call>)
    requires OnCourse(env, resumed, turns, s, done) && s.providerNeeded && s.step < env.maxSteps && Fits(env, s.turns)
    requires env.reply(done + [Ask(s.step, s.turns)]) == Said(text, calls) && 0 < |calls| <= MAX_CALLS
    ensures OnCourse(env, resumed, turns, WithAnswer(s, text, calls), done + [Ask(s.step, s.turns)])
  {
    var t := WithAnswer(s, text, calls);
    AskIsDue(env, resumed, turns, s, done);
    DueExtends(env, resumed, turns, done, Ask(s.step, s.turns));
    AnsweredIsLedTo(env, resumed, turns, s, done, text, calls);
    assert resumed ==> t.turns[..Base(t)] == s.turns;
  }

  /** In a resumed run the saved text has the sent one's canonical form. */
  lemma SameCanonical(env: Env, resumed: bool, turns: seq<Turn>, s: State, done: seq<Effect>)
    requires LedTo(env, resumed, turns, s, done) && (resumed ==> Laws(env)) && !s.providerNeeded && s.nextCall < |s.calls|
    ensures env.canonical(s.calls[s.nextCall].args) == env.canonical(Wanted(env, done)[s.nextCall].args)
    ensures s.calls[s.nextCall].id == Wanted(env, done)[s.nextCall].id && s.calls[s.nextCall].name == Wanted(env, done)[s.nextCall].name
    ensures SentAs(env, resumed, Wanted(env, done)[s.nextCall].args, s.calls[s.nextCall].args)
  {
    assert CallLed(env, resumed, s, Wanted(env, done), s.nextCall);
  }

  lemma UseIsDue(env: Env, resumed: bool, turns: seq<Turn>, s: State, done: seq<Effect>, args: Args)
    requires LedTo(env, resumed, turns, s, done) && (resumed ==> Laws(env)) && !s.providerNeeded && s.nextCall < |s.calls|
    requires Authorized(env, s.calls[s.nextCall]) && env.canonical(s.calls[s.nextCall].args) == Some(args)
    ensures Due(env, resumed, turns, done, Use(s.step, s.nextCall, s.calls[s.nextCall].(args := args)))
  {
    SameCanonical(env, resumed, turns, s, done);
    var call := s.calls[s.nextCall];
    assert Within(env, resumed, call.name, Wanted(env, done)[s.nextCall].args);
  }

  /** Making canonical the next call: a continuation saved here leads on. */
  lemma CanonizedLeads(env: Env, resumed: bool, turns: seq<Turn>, s: State, done: seq<Effect>, args: Args)
    requires OnCourse(env, resumed, turns, s, done) && !s.providerNeeded && s.nextCall < |s.calls|
    requires env.canonical(s.calls[s.nextCall].args) == Some(args)
    ensures var p := Canonized(s, args);
            && LedTo(env, true, turns, p, done) && Rewritten(s, p, args) && (resumed ==> Tidy(env, p))
            && env.canonical(Wanted(env, done)[s.nextCall].args) == Some(args)
  {
    SameCanonical(env, resumed, turns, s, done);
    var p := Canonized(s, args);
    BindAt(s.turns, Base(s), p.calls);
    var wanted := Wanted(env, done);
    forall k | 0 <= k < |wanted| ensures CallLed(env, true, p, wanted, k) {
      assert CallLed(env, resumed, s, wanted, k);
    }
    if resumed {
      CanonizedTidy(env, s, args);
    }
  }

  lemma UsedIsLedTo(env: Env, resumed: bool, turns: seq<Turn>, s: State, p: State, done: seq<Effect>, args: Args, content: Id)
    requires LedTo(env, resumed, turns, s, done) && !s.providerNeeded && Rewritten(s, p, args)
    requires env.canonical(Wanted(env, done)[s.nextCall].args) == Some(args)
    requires env.reply(done + [NextEffect(p)]) == Result(content)
    ensures LedTo(env, resumed, turns, Advanced(p, content), done + [NextEffect(p)])
  {
    var t, after := Advanced(p, content), done + [NextEffect(p)];
    assert after[..|done|] == done;
    var wanted := Wanted(env, done);
    assert Wanted(env, after) == wanted && Made(after) == s.nextCall + 1 && Asks(after) == Asks(done);
    forall k | 0 <= k < |wanted| ensures CallLed(env, resumed, t, wanted, k) {
      assert CallLed(env, resumed, s, wanted, k);
    }
    assert InStep(env, t, Transcript(env, turns, after), CanonicalArgs(env, wanted)) by {
      assert t.calls[s.nextCall].id == s.calls[s.nextCall].id;
      var was := Transcript(env, turns, done);
      assert CallLed(env, resumed, s, wanted, s.nextCall);
      assert Transcript(env, turns, after) == was + [Turn(ToolResult, content, [], s.calls[s.nextCall].id)];
      assert Base(t) == Base(s);
    }
  }

  lemma UsedLeads(env: Env, resumed: bool, turns: seq<Turn>, s: State, done: seq<Effect>, args: Args, content: Id)
    requires OnCourse(env, resumed, turns, s, done) && !s.providerNeeded && s.nextCall < |s.calls|
    requires Authorized(env, s.calls[s.nextCall]) && env.canonical(s.calls[s.nextCall].args) == Some(args)
    requires env.reply(done + [Use(s.step, s.nextCall, s.calls[s.nextCall].(args := args))]) == Result(content)
    ensures OnCourse(env, resumed, turns, Advanced(Canonized(s, args), content),
                     done + [Use(s.step, s.nextCall, s.calls[s.nextCall].(args := args))])
  {
    var p := Canonized(s, args);
    UseIsDue(env, resumed, turns, s, done, args);
    CanonizedLeads(env, resumed, turns, s, done, args);
    assert NextEffect(p) == Use(s.step, s.nextCall, s.calls[s.nextCall].(args := args));
    DueExtends(env, resumed, turns, done, NextEffect(p));
    UsedIsLedTo(env, resumed, turns, s, p, done, args, content);
    if resumed {
      CanonizedTidy(env, s, args);
      AdvancedTidy(env, p, content);
    }
  }

  lemma StepDoneLeads(env: Env, resumed: bool, turns: seq<Turn>, s: State, done: seq<Effect>)
    requires OnCourse(env, resumed, turns, s, done) && !s.providerNeeded && s.nextCall == |s.calls|
    ensures OnCourse(env, resumed, turns, NextStep(s), done)
  {
    var wanted := Wanted(env, done);
    forall k | 0 <= k < |wanted| ensures s.calls[k] == CanonicalArgs(env, wanted)[k] {
      assert CallLed(env, resumed, s, wanted, k);
    }
    assert s.calls == CanonicalArgs(env, wanted);
    if resumed {
      AlikeItself(env, s);
      AlikeAtTheEnd(env, s, s);
    }
  }

  lemma AlikeItself(env: Env, s: State)
    requires Tidy(env, s)
    ensures Alike(env, s, s)
  {
  }

  /** How a run ends that began on course. */
  ghost predicate EndsWell(env: Env, resumed: bool, turns: seq<Turn>, o: Outcome) {
    && Faithful(env, resumed, turns, o.done)
    && (o.Answered? || !resumed ==> Justified(env, turns, o))
    && (o.Paused? ==> LedTo(env, true, turns, o.state, o.done) && (resumed ==> Tidy(env, o.state)))
  }

  lemma CallRefused(env: Env, resumed: bool, turns: seq<Turn>, s: State, done: seq<Effect>)
    requires OnCourse(env, resumed, turns, s, done) && !s.providerNeeded && s.nextCall < |s.calls|
    requires !Authorized(env, s.calls[s.nextCall]) || env.canonical(s.calls[s.nextCall].args).None?
    ensures EndsWell(env, resumed, turns, Failed(done))
  {
    SameCanonical(env, resumed, turns, s, done);
  }

  lemma CallStops(env: Env, resumed: bool, turns: seq<Turn>, s: State, done: seq<Effect>, args: Args)
    requires OnCourse(env, resumed, turns, s, done) && !s.providerNeeded && s.nextCall < |s.calls|
    requires Authorized(env, s.calls[s.nextCall]) && env.canonical(s.calls[s.nextCall].args) == Some(args)
    requires env.needs(Use(s.step, s.nextCall, s.calls[s.nextCall].(args := args)))
    ensures EndsWell(env, resumed, turns, Paused(Canonized(s, args), done))
  {
    CanonizedLeads(env, resumed, turns, s, done, args);
    UseIsDue(env, resumed, turns, s, done, args);
  }

  lemma EffectBroke(env: Env, resumed: bool, turns: seq<Turn>, done: seq<Effect>, e: Effect)
    requires Faithful(env, resumed, turns, done) && Due(env, resumed, turns, done, e)
    requires if e.Use? then !env.reply(done + [e]).Result?
             else env.reply(done + [e]).Said? ==> |env.reply(done + [e]).calls| > MAX_CALLS
    ensures EndsWell(env, resumed, turns, Failed(done + [e]))
  {
    DueExtends(env, resumed, turns, done, e);
  }

  lemma CallGoes(env: Env, resumed: bool, turns: seq<Turn>, s: State, done: seq<Effect>, args: Args)
    requires OnCourse(env, resumed, turns, s, done) && !s.providerNeeded && s.nextCall < |s.calls|
    requires Authorized(env, s.calls[s.nextCall]) && env.canonical(s.calls[s.nextCall].args) == Some(args)
    ensures var after := done + [Use(s.step, s.nextCall, s.calls[s.nextCall].(args := args))];
            match env.reply(after)
            case Result(content) => OnCourse(env, resumed, turns, Advanced(Canonized(s, args), content), after)
            case _ => EndsWell(env, resumed, turns, Failed(after))
  {
    var e := Use(s.step, s.nextCall, s.calls[s.nextCall].(args := args));
    match env.reply(done + [e])
    case Result(content) => UsedLeads(env, resumed, turns, s, done, args, content);
    case _ =>
      UseIsDue(env, resumed, turns, s, done, args);
      EffectBroke(env, resumed, turns, done, e);
  }

  lemma {:induction false} TopIsFaithful(env: Env, gate: Gate, resumed: bool, turns: seq<Turn>, s: State, done: seq<Effect>)
    requires OnCourse(env, resumed, turns, s, done) && (s.providerNeeded || resumed)
    ensures EndsWell(env, resumed, turns, Top(env, gate, s, done))
    decreases Work(env, s), 1
  {
    if s.step < env.maxSteps && Fits(env, s.turns) {
      if s.providerNeeded {
        var e := Ask(s.step, s.turns);
        AskIsDue(env, resumed, turns, s, done);
        if !Stops(env, gate, e) {
          match env.reply(done + [e])
          case Said(text, calls) =>
            if calls == [] {
              DueExtends(env, resumed, turns, done, e);
            } else if |calls| > MAX_CALLS {
              EffectBroke(env, resumed, turns, done, e);
            } else {
              AnsweredLeads(env, resumed, turns, s, done, text, calls);
              ToolsIsFaithful(env, Later(gate), resumed, turns, WithAnswer(s, text, calls), done + [e]);
            }
          case _ => EffectBroke(env, resumed, turns, done, e);
        }
      } else {
        ToolsIsFaithful(env, gate, resumed, turns, s, done);
      }
    }
  }

  lemma {:induction false} ToolsIsFaithful(env: Env, gate: Gate, resumed: bool, turns: seq<Turn>, s: State, done: seq<Effect>)
    requires OnCourse(env, resumed, turns, s, done) && !s.providerNeeded && s.step < env.maxSteps
    ensures EndsWell(env, resumed, turns, Tools(env, gate, s, done))
    decreases Work(env, s), 0
  {
    if s.nextCall < |s.calls| {
      var call := s.calls[s.nextCall];
      if !Authorized(env, call) || env.canonical(call.args).None? {
        CallRefused(env, resumed, turns, s, done);
      } else {
        var args := env.canonical(call.args).value;
        var e := Use(s.step, s.nextCall, call.(args := args));
        if Stops(env, gate, e) {
          CallStops(env, resumed, turns, s, done, args);
        } else {
          CallGoes(env, resumed, turns, s, done, args);
          match env.reply(done + [e])
          case Result(content) =>
            ToolsIsFaithful(env, Later(gate), resumed, turns, Advanced(Canonized(s, args), content), done + [e]);
          case _ =>
        }
      }
    } else {
      StepDoneLeads(env, resumed, turns, s, done);
      TopIsFaithful(env, gate, resumed, turns, NextStep(s), done);
    }
  }

  /** Every run from the given turns: each effect is the one due after those before
      it, with the transcript the world's replies make, and the run ends for the
      reason the last of them gives. */
  lemma EveryRunIsFaithful(env: Env, gate: Gate, turns: seq<Turn>)
    ensures var o := Top(env, gate, Start(turns), []);
            Faithful(env, false, turns, o.done) && Justified(env, turns, o)
  {
    TopIsFaithful(env, gate, false, turns, Start(turns), []);
  }

  /** A continuation read back leads on from the same effects. */
  lemma RestoredLeads(env: Env, turns: seq<Turn>, s: State, done: seq<Effect>)
    requires Laws(env) && Tidy(env, s) && LedTo(env, true, turns, s, done)
    ensures LedTo(env, true, turns, Restore(env, s), done) && Tidy(env, Restore(env, s))
  {
    if s.providerNeeded {
      StableStays(env, s.turns);
    } else {
      RestoreTidy(env, s);
      var r, wanted := Restore(env, s), Wanted(env, done);
      forall k | 0 <= k < |wanted| ensures CallLed(env, true, r, wanted, k) {
        assert CallLed(env, true, s, wanted, k) && AlikeCall(env, s.nextCall, s.calls[k], r.calls[k], k);
      }
    }
  }

  lemma {:induction false} ResumedRunsAreFaithful(env: Env, ticket: bool, turns: seq<Turn>, s: State, done: seq<Effect>)
    requires OnCourse(env, true, turns, s, done)
    ensures var o := Interrupted(env, ticket, s, done);
            && Faithful(env, true, turns, o.done)
            && (o.Answered? ==> Justified(env, turns, o))
    decreases Work(env, s), if ticket then 0 else 1
  {
    TopProgress(env, Closed(ticket), s, done);
    TopIsFaithful(env, Closed(ticket), true, turns, s, done);
    var o := Top(env, Closed(ticket), s, done);
    if o.Paused? && Acceptable(env, o.state) {
      RestoredLeads(env, turns, o.state, o.done);
      ResumedRunsAreFaithful(env, true, turns, Restore(env, o.state), o.done);
    }
  }

  /** However often it stops, and whether or not it comes to an answer, the effects of
      a conversation are the ones due. */
  lemma EveryConversationIsFaithful(env: Env, turns: seq<Turn>)
    requires Laws(env) && StableTurns(env, turns)
    ensures var o := Interrupted(env, false, Start(turns), []);
            Faithful(env, true, turns, o.done) && (o.Answered? ==> Justified(env, turns, o))
  {
    ResumedRunsAreFaithful(env, false, turns, Start(turns), []);
  }

  /** What a run does without a ticket needs no approval, a ticket lets through its
      first effect alone, and a pause is at an effect that needs one. */
  ghost predicate GateKept(env: Env, ticket: bool, done: seq<Effect>, o: Outcome) {
    && done <= o.done
    && (forall k :: |done| <= k < |o.done| && (k > |done| || !ticket) ==> !env.needs(o.done[k]))
    && (o.Paused? ==>
          && (ticket ==> |o.done| > |done|)
          && (o.state.providerNeeded || o.state.nextCall < |o.state.calls|)
          && env.needs(if o.state.providerNeeded then Ask(o.state.step, o.state.turns) else NextEffect(o.state)))
  }

  lemma GateLater(env: Env, ticket: bool, done: seq<Effect>, e: Effect, o: Outcome)
    requires !Stops(env, Closed(ticket), e) && GateKept(env, false, done + [e], o)
    ensures GateKept(env, ticket, done, o)
  {
    assert o.done[|done|] == (done + [e])[|done|] == e;
  }

  lemma {:induction false} TopKeepsTheGate(env: Env, ticket: bool, s: State, done: seq<Effect>)
    requires Shape(s)
    ensures GateKept(env, ticket, done, Top(env, Closed(ticket), s, done))
    decreases Work(env, s), 1
  {
    if s.step < env.maxSteps && Fits(env, s.turns) {
      if s.providerNeeded {
        var e := Ask(s.step, s.turns);
        if !Stops(env, Closed(ticket), e) {
          match env.reply(done + [e])
          case Said(text, calls) =>
            if calls != [] && |calls| <= MAX_CALLS {
              ToolsKeepTheGate(env, false, WithAnswer(s, text, calls), done + [e]);
              GateLater(env, ticket, done, e, Tools(env, Closed(false), WithAnswer(s, text, calls), done + [e]));
            }
          case _ =>
        }
      } else {
        ToolsKeepTheGate(env, ticket, s, done);
      }
    }
  }

  lemma {:induction false} ToolsKeepTheGate(env: Env, ticket: bool, s: State, done: seq<Effect>)
    requires Shape(s) && s.step < env.maxSteps && !s.providerNeeded
    ensures GateKept(env, ticket, done, Tools(env, Closed(ticket), s, done))
    decreases Work(env, s), 0
  {
    if s.nextCall < |s.calls| {
      var call := s.calls[s.nextCall];
      if Authorized(env, call) && env.canonical(call.args).Some? {
        var t := Canonized(s, env.canonical(call.args).value);
        if !Stops(env, Closed(ticket), NextEffect(t)) {
          match env.reply(done + [NextEffect(t)])
          case Result(content) =>
            ToolsKeepTheGate(env, false, Advanced(t, content), done + [NextEffect(t)]);
            GateLater(env, ticket, done, NextEffect(t), Tools(env, Closed(false), Advanced(t, content), done + [NextEffect(t)]));
          case _ =>
        }
      }
    } else {
      TopKeepsTheGate(env, ticket, NextStep(s), done);
    }
  }

  /** Resume equals never pausing, exactly: whenever the uninterrupted conversation
      answers, the one stopped at every approval gives the same answer through the
      same effects in the same order if and only if each continuation it saves is
      resumable; otherwise it gives no answer at all. */
  lemma ResumeEqualsNeverPausing(env: Env, turns: seq<Turn>)
    requires Laws(env) && StableTurns(env, turns) && Top(env, Open, Start(turns), []).Answered?
    ensures Interrupted(env, false, Start(turns), []) == Top(env, Open, Start(turns), []) <==> TopSmooth(env, Start(turns), [])
    ensures Interrupted(env, false, Start(turns), []).Answered? ==>
              Interrupted(env, false, Start(turns), []) == Top(env, Open, Start(turns), [])
  {
    TopResume(env, Start(turns), []);
  }

  ghost predicate CanonicalCalls(env: Env, calls: seq<Call>) {
    forall k :: 0 <= k < |calls| ==> env.canonical(calls[k].args) == Some(calls[k].args)
  }

  /** How JSON text adds up: the bytes of a list of calls, and of what a
      continuation holds besides its turns and calls. */
  datatype Encoding = Encoding(calls: seq<Call> -> nat, envelope: nat)

  /** A turn's text contains its calls', a list's text its turns', and a
      continuation is its turns, its pending calls and its envelope. */
  ghost predicate AddsUp(env: Env, enc: Encoding) {
    && (forall turns, turn :: env.size(turns) <= env.size(turns + [turn]))
    && (forall turns: seq<Turn>, i :: 0 <= i < |turns| ==> enc.calls(turns[i].calls) <= env.size(turns))
    && (forall s: State :: env.total(s) <= env.size(s.turns) + (if s.calls == [] then 0 else enc.calls(s.calls)) + enc.envelope)
  }

  /** The provider sends canonical arguments, texts add up, and the configured
      context limit leaves a continuation room for its calls a second time. */
  ghost predicate WellBehaved(env: Env, enc: Encoding) {
    && (forall done :: env.reply(done).Said? ==> CanonicalCalls(env, env.reply(done).calls))
    && AddsUp(env, enc)
    && 2 * env.maxBytes + enc.envelope <= MAX_CONTINUATION_BYTES
  }

  /** Pending calls are the calls of the step's assistant turn, so a context within
      its limit makes a continuation within its own. */
  lemma FittingIsAcceptable(env: Env, enc: Encoding, s: State)
    requires WellBehaved(env, enc) && Tidy(env, s) && Fits(env, s.turns)
    ensures Acceptable(env, s)
  {
    if !s.providerNeeded {
      assert enc.calls(s.turns[Base(s)].calls) <= env.size(s.turns);
    }
  }

  lemma {:induction false} AnsweringStepFits(env: Env, enc: Encoding, s: State, done: seq<Effect>)
    requires Laws(env) && WellBehaved(env, enc) && Tidy(env, s) && CanonicalCalls(env, s.calls)
    requires s.step < env.maxSteps && !s.providerNeeded && Tools(env, Open, s, done).Answered?
    ensures Fits(env, s.turns) && forall k :: s.nextCall <= k < |s.calls| ==> env.length(s.calls[k].args) <= MAX_ARGUMENT_BYTES
    decreases Work(env, s)
  {
    if s.nextCall < |s.calls| {
      var args, content := OpenCall(env, s, done);
      CanonizedSame(env, s);
      AdvancedTidy(env, s, content);
      AnsweringStepFits(env, enc, Advanced(s, content), done + [NextEffect(s)]);
    }
  }

  lemma {:induction false} ToolsAlwaysSmooth(env: Env, enc: Encoding, s: State, done: seq<Effect>)
    requires Laws(env) && WellBehaved(env, enc) && Tidy(env, s) && CanonicalCalls(env, s.calls)
    requires s.step < env.maxSteps && !s.providerNeeded && Tools(env, Open, s, done).Answered?
    ensures ToolsSmooth(env, s, done)
    decreases Work(env, s), 0
  {
    if s.nextCall < |s.calls| {
      var args, content := OpenCall(env, s, done);
      CanonizedSame(env, s);
      AnsweringStepFits(env, enc, s, done);
      FittingIsAcceptable(env, enc, s);
      AdvancedTidy(env, s, content);
      ToolsAlwaysSmooth(env, enc, Advanced(s, content), done + [NextEffect(s)]);
    } else {
      AlikeAtTheEnd(env, s, s);
      TopAlwaysSmooth(env, enc, NextStep(s), done);
    }
  }

  lemma {:induction false} TopAlwaysSmooth(env: Env, enc: Encoding, s: State, done: seq<Effect>)
    requires Laws(env) && WellBehaved(env, enc) && Tidy(env, s) && s.providerNeeded && Top(env, Open, s, done).Answered?
    ensures TopSmooth(env, s, done)
    decreases Work(env, s), 1
  {
    FittingIsAcceptable(env, enc, s);
    var e := Ask(s.step, s.turns);
    match env.reply(done + [e])
    case Said(text, calls) =>
      if calls != [] {
        ToolsAlwaysSmooth(env, enc, WithAnswer(s, text, calls), done + [e]);
      }
    case _ =>
  }

  /** With canonical arguments, stopping at any approvals never changes anything. */
  lemma CanonicalCallsAlwaysResume(env: Env, enc: Encoding, turns: seq<Turn>)
    requires Laws(env) && WellBehaved(env, enc) && StableTurns(env, turns) && Top(env, Open, Start(turns), []).Answered?
    ensures Interrupted(env, false, Start(turns), []) == Top(env, Open, Start(turns), [])
  {
    TopAlwaysSmooth(env, enc, Start(turns), []);
    TopResume(env, Start(turns), []);
  }

  // Three argument texts: 0 is 65536 bytes with one `<` inside a string, which
  // encoding escapes in six bytes instead of one; 1 is that encoding; 2 is short
  // and already encoded.

  function Length(a: Args): nat {
    if a == 0 then MAX_ARGUMENT_BYTES else if a == 1 then MAX_ARGUMENT_BYTES + 5 else 100
  }

  function Escaped(a: Args): Args {
    if a == 0 then 1 else a
  }

  function CallBytes(calls: seq<Call>): nat {
    if calls == [] then 2 else CallBytes(calls[..|calls| - 1]) + 64 + Length(Escaped(calls[|calls| - 1].args))
  }

  function TurnBytes(turns: seq<Turn>): nat {
    if turns == [] then 2 else TurnBytes(turns[..|turns| - 1]) + 64 + CallBytes(turns[|turns| - 1].calls)
  }

  const ENVELOPE: nat := 4096

  /** A provider that sends one call, under the default limits, to a tool whose use
      needs approval; its answer follows the tool's. */
  function OneCall(args: Args): Env {
    Env(8, 20, 262144, TurnBytes, (s: State) => TurnBytes(s.turns) + CallBytes(s.calls) + ENVELOPE - 2,
        a => Some(Escaped(a)), Escaped, Length, (_, _) => true,
        done => if |done| == 1 then Said(7, [Call(1, 2, args)]) else if |done| == 2 then Result(3) else Said(9, []),
        (e: Effect) => e.Use?)
  }

  lemma {:induction false} CallBytesStored(env: Env, calls: seq<Call>)
    requires env.stored == Escaped
    ensures CallBytes(StoreCalls(env, calls)) == CallBytes(calls)
    decreases |calls|
  {
    if calls != [] {
      var n := |calls| - 1;
      CallBytesStored(env, calls[..n]);
      assert StoreCalls(env, calls)[..n] == StoreCalls(env, calls[..n]);
    }
  }

  lemma {:induction false} TurnBytesStored(env: Env, turns: seq<Turn>)
    requires env.stored == Escaped
    ensures TurnBytes(StoreTurns(env, turns)) == TurnBytes(turns)
    decreases |turns|
  {
    if turns != [] {
      var n := |turns| - 1;
      TurnBytesStored(env, turns[..n]);
      CallBytesStored(env, turns[n].calls);
      assert StoreTurns(env, turns)[..n] == StoreTurns(env, turns[..n]);
    }
  }

  lemma OneCallIsLawful(args: Args)
    ensures Laws(OneCall(args))
  {
    var env := OneCall(args);
    forall turns ensures env.size(StoreTurns(env, turns)) == env.size(turns) { TurnBytesStored(env, turns); }
    forall s ensures env.total(Restore(env, s)) == env.total(s) {
      TurnBytesStored(env, s.turns);
      CallBytesStored(env, s.calls);
    }
  }

  lemma {:induction false} TurnBytesCover(turns: seq<Turn>, i: nat)
    requires i < |turns|
    ensures CallBytes(turns[i].calls) <= TurnBytes(turns)
    decreases |turns|
  {
    if i < |turns| - 1 {
      TurnBytesCover(turns[..|turns| - 1], i);
    }
  }

  lemma OneCallAddsUp(args: Args)
    ensures AddsUp(OneCall(args), Encoding(CallBytes, ENVELOPE))
  {
    forall turns: seq<Turn>, turn: Turn ensures TurnBytes(turns) <= TurnBytes(turns + [turn]) {
      assert (turns + [turn])[..|turns|] == turns;
    }
    forall turns: seq<Turn>, i | 0 <= i < |turns| ensures CallBytes(turns[i].calls) <= TurnBytes(turns) { TurnBytesCover(turns, i); }
  }

  function Called(args: Args): State {
    WithAnswer(Start([]), 7, [Call(1, 2, args)])
  }

  lemma OneCallAsks(args: Args)
    ensures Top(OneCall(args), Open, Start([]), []) == Tools(OneCall(args), Open, Called(args), [Ask(0, [])])
  {
    assert [] + [Ask(0, [])] == [Ask(0, [])];
  }

  lemma OneCallUses(args: Args)
    requires Length(args) <= MAX_ARGUMENT_BYTES
    ensures var s := NextStep(Advanced(Canonized(Called(args), Escaped(args)), 3));
            && |s.turns| == 2 && TurnBytes(s.turns) <= 262144
            && exists done: seq<Effect> ::
                 |done| == 2 && Tools(OneCall(args), Open, Called(args), [Ask(0, [])]) == Top(OneCall(args), Open, s, done)
  {
    var env := OneCall(args);
    var p := Canonized(Called(args), Escaped(args));
    assert Called(args).turns[..0] == [];
    var done := [Ask(0, []), NextEffect(p)];
    assert [Ask(0, [])] + [NextEffect(p)] == done;
    assert Tools(env, Open, Called(args), [Ask(0, [])]) == Tools(env, Open, Advanced(p, 3), done);
    OneCallFits(p.turns, Advanced(p, 3).turns);
    assert Tools(env, Open, Advanced(p, 3), done) == Top(env, Open, NextStep(Advanced(p, 3)), done);
  }

  /** The conversation, unstopped: ask, use the tool, ask again, answer. */
  lemma OneCallAnswers(args: Args)
    requires Length(args) <= MAX_ARGUMENT_BYTES
    ensures Top(OneCall(args), Open, Start([]), []).Answered?
  {
    OneCallAsks(args);
    OneCallUses(args);
    var s := NextStep(Advanced(Canonized(Called(args), Escaped(args)), 3));
    var done: seq<Effect> :| |done| == 2 && Tools(OneCall(args), Open, Called(args), [Ask(0, [])]) == Top(OneCall(args), Open, s, done);
    assert |done + [Ask(1, s.turns)]| == 3;
  }

  lemma OneCallStops(args: Args)
    requires Length(args) <= MAX_ARGUMENT_BYTES
    ensures Top(OneCall(args), Closed(false), Start([]), []).Paused?
  {
    assert [] + [Ask(0, [])] == [Ask(0, [])];
  }

  lemma OneCallFits(bound: seq<Turn>, turns: seq<Turn>)
    requires |bound| == 1 && |bound[0].calls| == 1 && |turns| == 2 && turns[0] == bound[0] && turns[1].calls == []
    ensures TurnBytes(turns) <= 262144
  {
    assert turns[..1] == bound && bound[..0] == [];
    assert bound[0].calls[..0] == [];
  }

  lemma LongCallIsNotResumable()
    ensures !TopSmooth(OneCall(0), Start([]), [])
  {
    var env := OneCall(0);
    assert Canonized(Called(0), 1).calls[0].args == 1;
    assert !Resumable(env, Canonized(Called(0), 1));
    assert !ToolsSmooth(env, Called(0), [Ask(0, [])]);
    assert [] + [Ask(0, [])] == [Ask(0, [])];
  }

  /** The tool limit is checked again on the canonical arguments after a resume, so
      a conversation that would answer can fail because it was stopped. All other
      limits are kept with room to spare. */
  lemma ResumingCanFail()
    ensures var env := OneCall(0);
            && Laws(env) && AddsUp(env, Encoding(CallBytes, ENVELOPE))
            && Top(env, Open, Start([]), []).Answered?
            && !Interrupted(env, false, Start([]), []).Answered?
  {
    var env := OneCall(0);
    OneCallIsLawful(0);
    OneCallAddsUp(0);
    OneCallAnswers(0);
    LongCallIsNotResumable();
    TopResume(env, Start([]), []);
  }

  lemma OneCallBehaves()
    ensures WellBehaved(OneCall(2), Encoding(CallBytes, ENVELOPE))
  {
    OneCallAddsUp(2);
  }

  /** The same conversation with a short canonical argument is well behaved, and so
      gives its answer through the stop: the hypotheses are those of a real run. */
  lemma ResumingCanSucceed()
    ensures var env := OneCall(2);
            && Laws(env) && WellBehaved(env, Encoding(CallBytes, ENVELOPE))
            && Top(env, Closed(false), Start([]), []).Paused?
            && Interrupted(env, false, Start([]), []) == Top(env, Open, Start([]), [])
            && Top(env, Open, Start([]), []).Answered?
  {
    var env := OneCall(2);
    OneCallIsLawful(2);
    OneCallBehaves();
    OneCallAnswers(2);
    OneCallStops(2);
    CanonicalCallsAlwaysResume(env, Encoding(CallBytes, ENVELOPE), []);
  }
}
