/** What one send, and a list of them, must answer: stated from the tables alone. */
module Sending {
  import opened Basics
  import opened Relay
  import opened GroupCommit
  import opened BatchEndpoint

  /** An active member who may send, from a device of theirs that is not revoked,
      with an account that is not disabled. */
  ghost predicate SenderMay(db: DB, id: Identity, chat: Id) {
    && (chat, id.user) in db.members && db.members[(chat, id.user)].active && db.members[(chat, id.user)].canSend
    && id.device in db.devices && db.devices[id.device].user == id.user && !db.devices[id.device].revoked
    && id.user in db.users && db.users[id.user] == false
    && chat in db.chats
  }

  ghost predicate FeaturesAllow(srv: Server, input: Input) {
    && (input.replyTo.Some? ==> srv.reply) && (input.forwardFrom.Some? ==> srv.forward)
    && (input.attachments != [] ==> srv.files)
  }

  /** The text a message carries: an HPKE envelope that opens under its binding, or
      an authenticated MLS application message of the current group and epoch from
      a device in the roster. */
  ghost predicate Carries(srv: Server, db: DB, id: Identity, chat: Id, input: Input, text: Bytes)
    requires chat in db.chats
  {
    match db.chats[chat].mode
    case Basic => input.envelope.Some? && input.mls == "" && srv.open(input.envelope.value, chat, id, input.op) == Some(text)
    case E2ee =>
      && input.envelope.None? && input.mls != "" && text == input.mls
      && input.epoch == db.chats[chat].epoch
      && chat in db.groups && srv.wire(input.mls) == Some((db.groups[chat], db.chats[chat].epoch))
      && chat in db.roster && id.device in db.roster[chat]
      && srv.bound(input.mls, chat, id, input.op)
  }

  /** A first send gets as far as its content. */
  ghost predicate Admitted(srv: Server, db: DB, id: Identity, chat: Id, input: Input) {
    && srv.validOp(input.op) && (id.device, input.op) !in db.operations
    && SenderMay(db, id, chat) && !db.chats[chat].pending && FeaturesAllow(srv, input)
  }

  ghost predicate Acceptable(srv: Server, db: DB, id: Identity, chat: Id, input: Input) {
    && Admitted(srv, db, id, chat, input)
    && exists text: Bytes :: Carries(srv, db, id, chat, input, text) && 0 < |text| <= srv.maxMessageBytes
  }

  /** The draft carries exactly what was validated. */
  ghost predicate DraftOf(srv: Server, db: DB, id: Identity, chat: Id, input: Input, stamp: Stamp, d: Draft)
    requires chat in db.chats
  {
    && d.id == id && d.chat == chat && d.input == input && d.messageId == stamp.messageId && d.at == stamp.at
    && d.mode == db.chats[chat].mode && d.epoch == db.chats[chat].epoch
    && exists text: Bytes :: Carries(srv, db, id, chat, input, text) && d.stored == srv.seal(text, stamp.messageId)
  }

  /** Validation lets through exactly the acceptable messages, unchanged. */
  lemma PrepareExactly(srv: Server, db: DB, id: Identity, chat: Id, input: Input, stamp: Stamp)
    ensures var p := Prepare(srv, db, id, chat, input, stamp);
            var key := (id.device, input.op);
            && (p.Ready? <==> Acceptable(srv, db, id, chat, input))
            && (p.Ready? ==> DraftOf(srv, db, id, chat, input, stamp, p.draft))
            && (p.Saved? <==> srv.validOp(input.op) && key in db.operations && db.operations[key].hash == Digest(chat, input))
            && (p.Saved? ==> p.message == db.operations[key].result)
  {
    if Admitted(srv, db, id, chat, input) {
      var payload := Payload(srv, db, id, chat, input);
      if payload.Ok? {
        assert Carries(srv, db, id, chat, input, payload.value);
      }
      forall text: Bytes | Carries(srv, db, id, chat, input, text) ensures payload == Ok(text) { }
    }
  }

  /** Each refusal of validation, exactly. */
  lemma PrepareRefusals(srv: Server, db: DB, id: Identity, chat: Id, input: Input, stamp: Stamp)
    ensures var p := Prepare(srv, db, id, chat, input, stamp);
            var key := (id.device, input.op);
            var unused := srv.validOp(input.op) && key !in db.operations;
            && (p == Reject(Err(400, BadOperationId)) <==> !srv.validOp(input.op))
            && (p == Reject(Err(409, OperationReused)) <==>
                  srv.validOp(input.op) && key in db.operations && db.operations[key].hash != Digest(chat, input))
            && (p == Reject(Err(403, SendDenied)) <==> unused && !SenderMay(db, id, chat))
            && (p == Reject(Err(409, TransitionPending)) <==> unused && SenderMay(db, id, chat) && db.chats[chat].pending)
            && (p == Reject(Err(400, FeatureAbsent)) <==>
                  unused && SenderMay(db, id, chat) && !db.chats[chat].pending && !FeaturesAllow(srv, input))
  {
  }

  /** Each refusal of a message's content, exactly. */
  lemma ContentRefusals(srv: Server, db: DB, id: Identity, chat: Id, input: Input, stamp: Stamp)
    requires Admitted(srv, db, id, chat, input)
    ensures var p := Prepare(srv, db, id, chat, input, stamp);
            var basic := db.chats[chat].mode.Basic?;
            var epoch := db.chats[chat].epoch;
            var shaped := input.envelope.None? && input.mls != "" && input.epoch == epoch;
            var current := chat in db.groups && chat in db.roster && id.device in db.roster[chat]
                           && srv.wire(input.mls) == Some((db.groups[chat], epoch));
            && (p == Reject(Err(400, BasicHpkeEnvelopeRequired)) <==> basic && (input.envelope.None? || input.mls != ""))
            && (p == Reject(Err(400, InvalidEnvelope)) <==>
                  basic && input.envelope.Some? && input.mls == "" && srv.open(input.envelope.value, chat, id, input.op).None?)
            && (p == Reject(Err(409, InvalidMlsMessage)) <==> !basic && !shaped)
            && (p == Reject(Err(400, InvalidMlsWire)) <==> !basic && shaped && srv.wire(input.mls).None?)
            && (p == Reject(Err(409, MlsMismatch)) <==> !basic && shaped && srv.wire(input.mls).Some? && !current)
            && (p == Reject(Err(400, MlsBindingMismatch)) <==>
                  !basic && shaped && current && !srv.bound(input.mls, chat, id, input.op))
            && (p == Reject(Err(400, InvalidPayloadSize)) <==>
                  exists text: Bytes :: Carries(srv, db, id, chat, input, text) && !(0 < |text| <= srv.maxMessageBytes))
  {
    var payload := Payload(srv, db, id, chat, input);
    if payload.Ok? {
      assert Carries(srv, db, id, chat, input, payload.value);
    }
    forall text: Bytes | Carries(srv, db, id, chat, input, text) ensures payload == Ok(text) { }
  }

  /** The message a draft becomes: the chat's next number, everything else as sent. */
  function Becomes(db: DB, d: Draft): Message
    requires d.chat in db.chats
  {
    Message(d.messageId, d.chat, d.id.user, d.id.device, d.input.op, db.chats[d.chat].num + 1, d.mode, d.epoch, d.at,
            d.input.attachments, d.input.replyTo, d.input.forwardFrom)
  }

  /** The tables after it: one row in each of four, and the chat's number. */
  ghost predicate WrittenAs(db: DB, t: DB, d: Draft, m: Message)
    requires d.chat in db.chats
  {
    && t.messages == db.messages[m.id := m] && t.payloads == db.payloads[m.id := d.stored]
    && t.operations == db.operations[(d.id.device, d.input.op) := Operation(Digest(d.chat, d.input), m)]
    && t.journal == db.journal + [Row(d.chat, m.num, MessageCreated, Some(m.id), d.at)]
    && t.chats == db.chats[d.chat := db.chats[d.chat].(num := m.num)]
    && t == db.(messages := t.messages, payloads := t.payloads, operations := t.operations, journal := t.journal, chats := t.chats)
  }

  /** Persistence decides again: a new message exactly for a sender who still may,
      outside the barrier, at the draft's epoch, under an unused operation, with an
      unused id and, end to end, from a roster device. */
  lemma PersistExactly(db: DB, d: Draft)
    ensures var w := Persist(db, d);
            var key := (d.id.device, d.input.op);
            var current := SenderMay(db, d.id, d.chat) && !db.chats[d.chat].pending && db.chats[d.chat].epoch == d.epoch;
            && (w.err == Some(Err(403, SendRevoked)) <==> !SenderMay(db, d.id, d.chat))
            && (w.err == Some(Err(409, EpochChanged)) <==>
                  SenderMay(db, d.id, d.chat) && (db.chats[d.chat].pending || db.chats[d.chat].epoch != d.epoch))
            && (w.err == Some(Err(409, OperationConflict)) <==>
                  current && key in db.operations && db.operations[key].hash != Digest(d.chat, d.input))
            && (w.err.None? && w.repeated <==>
                  current && key in db.operations && db.operations[key].hash == Digest(d.chat, d.input))
            && (w.err.None? && w.repeated ==> w.db == db && w.message == Some(db.operations[key].result))
            && (w.err.None? && !w.repeated <==>
                  && current && key !in db.operations && d.messageId !in db.messages
                  && (d.mode.E2ee? ==> d.chat in db.roster && d.id.device in db.roster[d.chat]))
            && (w.err.None? && !w.repeated ==> w.message == Some(Becomes(db, d)) && WrittenAs(db, w.db, d, Becomes(db, d)))
  {
  }

  /** One request, answered from the tables: a recorded operation gives its result
      back for the same content and 409 for any other, and changes nothing; an
      unused one is accepted exactly when it is acceptable, and written as sent;
      every refusal changes nothing. */
  lemma PostExactly(srv: Server, db: DB, id: Identity, chat: Id, input: Input, stamp: Stamp)
    ensures var r := Post(ApiOf(srv, id, chat), db, input, stamp);
            var key := (id.device, input.op);
            && (srv.validOp(input.op) && key in db.operations && db.operations[key].hash == Digest(chat, input) ==>
                  r == Run(db, Answer(Some(db.operations[key].result), true, None)))
            && (srv.validOp(input.op) && key in db.operations && db.operations[key].hash != Digest(chat, input) ==>
                  r == Run(db, Answer(None, false, Some(Err(409, OperationReused)))))
            && (r.answer.err.None? && !r.answer.repeated <==> Acceptable(srv, db, id, chat, input) && stamp.messageId !in db.messages)
            && (r.answer.err.None? && !r.answer.repeated ==> Accepted(srv, db, id, chat, input, stamp, r.db, r.answer.message))
            && (r.answer.err.None? && r.answer.repeated ==> key in db.operations)
            && (r.answer.err.Some? ==> r.db == db)
  {
    PrepareExactly(srv, db, id, chat, input, stamp);
    PrepareRefusals(srv, db, id, chat, input, stamp);
    var p := Prepare(srv, db, id, chat, input, stamp);
    if p.Ready? {
      PersistExactly(db, p.draft);
      RosterHolds(srv, db, id, chat, input);
    }
  }

  lemma RosterHolds(srv: Server, db: DB, id: Identity, chat: Id, input: Input)
    requires Acceptable(srv, db, id, chat, input)
    ensures db.chats[chat].mode.E2ee? ==> chat in db.roster && id.device in db.roster[chat]
  {
    var text: Bytes :| Carries(srv, db, id, chat, input, text) && 0 < |text| <= srv.maxMessageBytes;
  }

  /** An accepted message, written with the sealed text it carried. */
  ghost predicate Accepted(srv: Server, db: DB, id: Identity, chat: Id, input: Input, stamp: Stamp, t: DB, message: Option<Message>) {
    exists d: Draft ::
      && d.chat in db.chats && d.chat == chat && DraftOf(srv, db, id, chat, input, stamp, d)
      && message == Some(Becomes(db, d)) && WrittenAs(db, t, d, Becomes(db, d))
  }

  /** The stored row as the caller may read it: a live member who had joined by then. */
  ghost predicate Visible(db: DB, id: Identity, messageId: Id) {
    messageId in db.messages
    && var m := db.messages[messageId];
    && (m.chat, id.user) in db.members && db.members[(m.chat, id.user)].active
    && m.num >= db.members[(m.chat, id.user)].joinedSeq
    && id.device in db.devices && db.devices[id.device].user == id.user && !db.devices[id.device].revoked
    && id.user in db.users && db.users[id.user] == false && m.chat in db.chats
  }

  /** What the caller is told of an answer: the error; for a minimal reply to a new
      message its receipt; otherwise the stored message, or 404 when it lies before
      the caller's join or the caller is no longer live. */
  lemma ReplyExactly(db: DB, id: Identity, minimal: bool, a: Answer<Message>)
    requires a.err.None? ==> a.message.Some?
    ensures var r := Reply(db, id, minimal, a);
            && (a.err.Some? ==> r == Fail(a.err.value))
            && (a.err.None? ==>
                  var m := a.message.value;
                  var visible := Visible(db, id, m.id);
                  && (minimal && (!a.repeated || visible) ==> r == Ok(m))
                  && (!minimal && visible ==> r == Ok(db.messages[m.id]))
                  && ((!minimal || a.repeated) && !visible ==> r == Fail(Err(404, MessageNotAccessible))))
  {
  }

  /** One request keeps every operation row and records an accepted message under
      its own. */
  ghost predicate PostRecords(api: Api, srv: Server, id: Identity, chat: Id, db: DB, input: Input, stamp: Stamp) {
    var r := Post(api, db, input, stamp);
    && (forall k :: k in db.operations ==> k in r.db.operations && r.db.operations[k] == db.operations[k])
    && (r.answer.err.None? ==>
          && r.answer.message.Some? && srv.validOp(input.op)
          && Recorded(r.db, (id.device, input.op), Digest(chat, input), r.answer.message.value))
  }

  lemma PostIsRecorded(srv: Server, id: Identity, chat: Id, db: DB, input: Input, stamp: Stamp)
    ensures PostRecords(ApiOf(srv, id, chat), srv, id, chat, db, input, stamp)
  {
    var p := Prepare(srv, db, id, chat, input, stamp);
    if p.Ready? {
      PrepareExactly(srv, db, id, chat, input, stamp);
      if Persist(db, p.draft).err.None? {
        PersistRecords(db, p.draft);
      }
    }
  }

  /** An accepted message's operation row is there for every later request. */
  lemma {:induction false} RecordedForLater(api: Api, srv: Server, db: DB, id: Identity, chat: Id,
                                            inputs: seq<Input>, stamps: seq<Stamp>, i: nat, n: nat)
    requires forall t, input, stamp :: PostRecords(api, srv, id, chat, t, input, stamp)
    requires |inputs| == |stamps| && i < n <= |inputs|
    requires PostAll(api, db, inputs, stamps).1[i].err.None?
    ensures var t := PostAll(api, db, inputs[..n], stamps[..n]).0;
            var a := PostAll(api, db, inputs, stamps).1[i];
            && a.message.Some? && srv.validOp(inputs[i].op)
            && Recorded(t, (id.device, inputs[i].op), Digest(chat, inputs[i]), a.message.value)
    decreases n
  {
    PrefixAnswers(api, db, inputs, stamps, n);
    PostAllStep(api, db, inputs, stamps, n - 1);
    var before := PostAll(api, db, inputs[..n - 1], stamps[..n - 1]).0;
    assert PostRecords(api, srv, id, chat, before, inputs[n - 1], stamps[n - 1]);
    if i < n - 1 {
      RecordedForLater(api, srv, db, id, chat, inputs, stamps, i, n - 1);
    }
  }

  /** What a request under a recorded operation is answered. */
  ghost predicate AnsweredByRecord(api: Api, db: DB, input: Input, stamp: Stamp, first: Input, m: Message) {
    Post(api, db, input, stamp)
    == Run(db, if input == first then Answer(Some(m), true, None) else Answer(None, false, Some(Err(409, OperationReused))))
  }

  lemma RecordAnswers(srv: Server, id: Identity, chat: Id, db: DB, input: Input, stamp: Stamp, first: Input, m: Message)
    requires srv.validOp(first.op) && first.op == input.op && Recorded(db, (id.device, first.op), Digest(chat, first), m)
    ensures AnsweredByRecord(ApiOf(srv, id, chat), db, input, stamp, first, m)
  {
    PostExactly(srv, db, id, chat, input, stamp);
  }

  lemma {:induction false} PrefixAnswers(api: Api, db: DB, inputs: seq<Input>, stamps: seq<Stamp>, n: nat)
    requires |inputs| == |stamps| && n <= |inputs|
    ensures PostAll(api, db, inputs[..n], stamps[..n]).1 == PostAll(api, db, inputs, stamps).1[..n]
    decreases |inputs| - n
  {
    if n == |inputs| {
      assert inputs[..n] == inputs && stamps[..n] == stamps;
    } else {
      PostAllStep(api, db, inputs, stamps, n);
      PrefixAnswers(api, db, inputs, stamps, n + 1);
    }
  }

  /** In any list of messages, whatever follows an accepted one under its operation
      id is answered by it: a copy gets its message back, other content gets 409,
      and neither changes anything. */
  lemma CopiesGetTheFirst(srv: Server, db: DB, id: Identity, chat: Id, inputs: seq<Input>, stamps: seq<Stamp>, i: nat, j: nat)
    requires |inputs| == |stamps| && i < j < |inputs| && inputs[i].op == inputs[j].op
    requires PostAll(ApiOf(srv, id, chat), db, inputs, stamps).1[i].err.None?
    ensures var api := ApiOf(srv, id, chat);
            var r := PostAll(api, db, inputs, stamps);
            && r.1[j] == (if inputs[j] == inputs[i] then Answer(r.1[i].message, true, None)
                          else Answer(None, false, Some(Err(409, OperationReused))))
            && PostAll(api, db, inputs[..j + 1], stamps[..j + 1]).0 == PostAll(api, db, inputs[..j], stamps[..j]).0
  {
    var api := ApiOf(srv, id, chat);
    forall t, input, stamp ensures PostRecords(api, srv, id, chat, t, input, stamp) { PostIsRecorded(srv, id, chat, t, input, stamp); }
    RecordedForLater(api, srv, db, id, chat, inputs, stamps, i, j);
    var m := PostAll(api, db, inputs, stamps).1[i].message.value;
    RecordAnswers(srv, id, chat, PostAll(api, db, inputs[..j], stamps[..j]).0, inputs[j], stamps[j], inputs[i], m);
    CopyAnswered(api, db, inputs, stamps, i, j, m);
  }

  lemma CopyAnswered(api: Api, db: DB, inputs: seq<Input>, stamps: seq<Stamp>, i: nat, j: nat, m: Message)
    requires |inputs| == |stamps| && i < j < |inputs|
    requires AnsweredByRecord(api, PostAll(api, db, inputs[..j], stamps[..j]).0, inputs[j], stamps[j], inputs[i], m)
    ensures PostAll(api, db, inputs, stamps).1[j] == (if inputs[j] == inputs[i] then Answer(Some(m), true, None)
                                                      else Answer(None, false, Some(Err(409, OperationReused))))
    ensures PostAll(api, db, inputs[..j + 1], stamps[..j + 1]).0 == PostAll(api, db, inputs[..j], stamps[..j]).0
  {
    PostAllStep(api, db, inputs, stamps, j);
    PrefixAnswers(api, db, inputs, stamps, j + 1);
  }

  /** The endpoint's reply to what follows an accepted message under its operation
      id: the first message for a copy, while it is visible, and 409 for anything else. */
  lemma BatchAnswersCopies(srv: Server, db: DB, id: Identity, chat: Id, minimal: bool, inputs: seq<Input>, stamps: seq<Stamp>, i: nat, j: nat)
    requires |inputs| == |stamps| && i < j < |inputs| && inputs[i].op == inputs[j].op && Stored(db)
    requires PostAll(ApiOf(srv, id, chat), db, inputs, stamps).1[i].err.None?
    ensures var api := ApiOf(srv, id, chat);
            var t := PostAll(api, db, inputs, stamps).0;
            var first := PostAll(api, db, inputs, stamps).1[i].message;
            && first.Some?
            && ReplyAll(api, id, db, minimal, inputs, stamps)[j]
               == if inputs[j] != inputs[i] then Fail(Err(409, OperationReused))
                  else if Visible(t, id, first.value.id) then Ok(if minimal then first.value else t.messages[first.value.id])
                  else Fail(Err(404, MessageNotAccessible))
  {
    ApiLawful(srv, id, chat);
    RepliesAtTheEnd(ApiOf(srv, id, chat), id, db, minimal, inputs, stamps);
    CopiesGetTheFirst(srv, db, id, chat, inputs, stamps, i, j);
  }
}
