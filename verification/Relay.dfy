/** The relay's durable tables as one value, with the two halves of sending a
    message: validation outside a transaction and persistence inside one. */
module Relay {
  import opened Basics

  type Bytes = string

  datatype Mode = Basic | E2ee

  datatype Chat = Chat(mode: Mode, direct: bool, num: nat, epoch: int, pending: bool)

  datatype Member = Member(canSend: bool, joinedSeq: int, active: bool)

  datatype Device = Device(user: Id, hasSigningKey: bool, revoked: bool)

  datatype Identity = Identity(user: Id, device: Id)

  datatype Kind = MessageCreated | CommitPending | EpochConfirmed | MembershipChanged | OtherEvent

  /** A journal row; rows keep their insertion (rowid) order. */
  datatype Row = Row(chat: Id, num: nat, kind: Kind, message: Option<Id>, at: int)

  datatype Input = Input(
    op: Id, envelope: Option<Bytes>, mls: Bytes, epoch: int,
    attachments: seq<Id>, replyTo: Option<Id>, forwardFrom: Option<Id>)

  datatype Message = Message(
    id: Id, chat: Id, sender: Id, device: Id, op: Id, num: nat, mode: Mode, epoch: int, createdAt: int,
    attachments: seq<Id>, replyTo: Option<Id>, forwardFrom: Option<Id>)

  /** The request digest, taken as injective: the digested pair itself. */
  datatype Digest = Digest(chat: Id, input: Input)

  datatype Operation = Operation(hash: Digest, result: Message)

  datatype Transition = Transition(id: Id, chat: Id, sender: Id, epoch: int, confirmed: bool)

  datatype KeyPackage = KeyPackage(device: Id, claimed: Option<Id>, used: bool)

  datatype DB = DB(
    users: map<Id, bool>,
    devices: map<Id, Device>,
    chats: map<Id, Chat>,
    members: map<(Id, Id), Member>,
    messages: map<Id, Message>,
    payloads: map<Id, Bytes>,
    journal: seq<Row>,
    operations: map<(Id, Id), Operation>,
    groups: map<Id, Id>,
    roster: map<Id, map<Id, nat>>,
    transitions: seq<Transition>,
    keyPackages: map<Id, KeyPackage>)

  /** The account, the device and the membership behind an identity are live. */
  predicate Live(db: DB, id: Identity, chat: Id) {
    && (chat, id.user) in db.members && db.members[(chat, id.user)].active
    && id.device in db.devices && db.devices[id.device].user == id.user && !db.devices[id.device].revoked
    && id.user in db.users && !db.users[id.user]
    && chat in db.chats
  }

  predicate MaySend(db: DB, id: Identity, chat: Id) {
    Live(db, id, chat) && db.members[(chat, id.user)].canSend
  }

  function Head(db: DB, chat: Id): nat {
    if chat in db.chats then db.chats[chat].num else 0
  }

  /** Takes the chat's next sequence number and journals one event under it. */
  function Append(db: DB, chat: Id, kind: Kind, message: Option<Id>, at: int): DB
    requires chat in db.chats
  {
    var next := db.chats[chat].num + 1;
    db.(chats := db.chats[chat := db.chats[chat].(num := next)],
        journal := db.journal + [Row(chat, next, kind, message, at)])
  }

  /** A validated message on its way to the writer: ciphertext and metadata. */
  datatype Draft = Draft(
    bytes: nat, id: Identity, chat: Id, input: Input, mode: Mode, epoch: int,
    messageId: Id, stored: Bytes, at: int)
  {
    function Key(): (Id, Id) {
      (id.device, input.op)
    }

    function Hash(): Digest {
      Digest(chat, input)
    }
  }

  datatype Written = Written(db: DB, message: Option<Message>, repeated: bool, err: Option<Err>)

  function NewMessage(db: DB, d: Draft): Message
    requires d.chat in db.chats
  {
    Message(d.messageId, d.chat, d.id.user, d.id.device, d.input.op, db.chats[d.chat].num + 1, d.mode, d.epoch, d.at,
            d.input.attachments, d.input.replyTo, d.input.forwardFrom)
  }

  /** Persistence inside the writer's transaction. ACL, epoch and deduplication
      are decided again here; a failure can leave the transaction dirty. */
  function Persist(db: DB, d: Draft): Written {
    if !MaySend(db, d.id, d.chat) then Written(db, None, false, Some(Err(403, SendRevoked)))
    else if db.chats[d.chat].pending || db.chats[d.chat].epoch != d.epoch then
      Written(db, None, false, Some(Err(409, EpochChanged)))
    else if d.Key() in db.operations then
      if db.operations[d.Key()].hash != d.Hash() then
        Written(db, None, false, Some(Err(409, OperationConflict)))
      else
        Written(db, Some(db.operations[d.Key()].result), true, None)
    else
      var m := NewMessage(db, d);
      var db1 := Append(db, d.chat, MessageCreated, Some(d.messageId), d.at);
      if d.messageId in db.messages then Written(db1, None, false, Some(Err(503, StorageUnavailable)))
      else
        var db2 := db1.(messages := db1.messages[m.id := m],
                        payloads := db1.payloads[m.id := d.stored],
                        operations := db1.operations[d.Key() := Operation(d.Hash(), m)]);
        if d.mode == E2ee && !(d.chat in db.roster && d.id.device in db.roster[d.chat]) then
          Written(db2, None, false, Some(Err(409, DeviceNotInRoster)))
        else
          Written(db2, Some(m), false, None)
  }

  /** Foreign checks and limits: safe operation ids, opening an HPKE envelope, parsing an MLS
      application message with its authenticated binding, sealed size. */
  datatype Server = Server(
    validOp: Id -> bool,
    maxMessageBytes: nat, files: bool, reply: bool, forward: bool,
    open: (Bytes, Id, Identity, Id) -> Option<Bytes>,
    wire: Bytes -> Option<(Id, int)>,
    bound: (Bytes, Id, Identity, Id) -> bool,
    seal: (Bytes, Id) -> Bytes,
    size: (Bytes, Input) -> nat)

  datatype Prepared = Reject(err: Err) | Saved(message: Message) | Ready(draft: Draft)

  /** The end-to-end mode's extra validation: the wire parses, the device is in
      the current roster, group and epoch match and the binding is authentic. */
  function MlsPayload(srv: Server, db: DB, id: Identity, chat: Id, input: Input): Result<Bytes>
    requires chat in db.chats
  {
    var parsed := srv.wire(input.mls);
    if parsed.None? then Fail(Err(400, InvalidMlsWire))
    else if chat !in db.groups || chat !in db.roster || id.device !in db.roster[chat] || db.chats[chat].pending
            || parsed.value.1 != db.chats[chat].epoch || input.epoch != db.chats[chat].epoch
            || parsed.value.0 != db.groups[chat] then
      Fail(Err(409, MlsMismatch))
    else if !srv.bound(input.mls, chat, id, input.op) then Fail(Err(400, MlsBindingMismatch))
    else Ok(input.mls)
  }

  function Payload(srv: Server, db: DB, id: Identity, chat: Id, input: Input): Result<Bytes>
    requires chat in db.chats
  {
    if db.chats[chat].mode == Basic then
      if input.envelope.None? || input.mls != "" then Fail(Err(400, BasicHpkeEnvelopeRequired))
      else
        var plain := srv.open(input.envelope.value, chat, id, input.op);
        if plain.None? then Fail(Err(400, InvalidEnvelope)) else Ok(plain.value)
    else if input.envelope.Some? || input.mls == "" || input.epoch != db.chats[chat].epoch then
      Fail(Err(409, InvalidMlsMessage))
    else MlsPayload(srv, db, id, chat, input)
  }

  /** A fresh message id and the clock, drawn once for each item. */
  datatype Stamp = Stamp(messageId: Id, at: int)

  /** Validation against a read snapshot, before any transaction. */
  function Prepare(srv: Server, db: DB, id: Identity, chat: Id, input: Input, stamp: Stamp): Prepared {
    if !srv.validOp(input.op) then Reject(Err(400, BadOperationId))
    else if (id.device, input.op) in db.operations then
      if db.operations[(id.device, input.op)].hash != Digest(chat, input) then
        Reject(Err(409, OperationReused))
      else Saved(db.operations[(id.device, input.op)].result)
    else if !MaySend(db, id, chat) then Reject(Err(403, SendDenied))
    else if db.chats[chat].pending then Reject(Err(409, TransitionPending))
    else if (input.replyTo.Some? && !srv.reply) || (input.forwardFrom.Some? && !srv.forward)
            || (|input.attachments| > 0 && !srv.files) then
      Reject(Err(400, FeatureAbsent))
    else
      var payload := Payload(srv, db, id, chat, input);
      if payload.Fail? then Reject(payload.error)
      else if |payload.value| == 0 || |payload.value| > srv.maxMessageBytes then
        Reject(Err(400, InvalidPayloadSize))
      else
        var stored := srv.seal(payload.value, stamp.messageId);
        Ready(Draft(srv.size(stored, input), id, chat, input, db.chats[chat].mode, db.chats[chat].epoch,
                    stamp.messageId, stored, stamp.at))
  }

  /** The stored row is visible to the identity: no history before it joined. */
  predicate Accessible(db: DB, id: Identity, messageId: Id) {
    messageId in db.messages
    && var m := db.messages[messageId];
    Live(db, id, m.chat) && m.num >= db.members[(m.chat, id.user)].joinedSeq
  }

  /** What the caller is told: a minimal receipt, or the current projection. */
  function SendResult(db: DB, id: Identity, saved: Message, minimal: bool, repeated: bool): Result<Message> {
    if !minimal then
      if Accessible(db, id, saved.id) then Ok(db.messages[saved.id])
      else Fail(Err(404, MessageNotAccessible))
    else if repeated && !Accessible(db, id, saved.id) then Fail(Err(404, MessageNotAccessible))
    else Ok(saved)
  }

  /** The operation row that makes an answer durable. */
  predicate Recorded(db: DB, key: (Id, Id), hash: Digest, m: Message) {
    key in db.operations && db.operations[key] == Operation(hash, m)
  }

  /** Everything a later sender can observe survives: tables only grow. */
  ghost predicate Grows(old_: DB, new_: DB) {
    && old_.users == new_.users && old_.devices == new_.devices && old_.members == new_.members
    && old_.groups == new_.groups && old_.roster == new_.roster
    && old_.transitions == new_.transitions && old_.keyPackages == new_.keyPackages
    && old_.chats.Keys == new_.chats.Keys
    && (forall c :: c in old_.chats ==> new_.chats[c] == old_.chats[c].(num := new_.chats[c].num))
    && (forall k :: k in old_.operations ==> k in new_.operations && new_.operations[k] == old_.operations[k])
    && (forall k :: k in old_.messages ==> k in new_.messages && new_.messages[k] == old_.messages[k])
    && old_.journal <= new_.journal
  }

  lemma GrowsTransitive(a: DB, b: DB, c: DB)
    requires Grows(a, b) && Grows(b, c)
    ensures Grows(a, c)
  {
    assert a.journal == b.journal[..|a.journal|] == c.journal[..|b.journal|][..|a.journal|] == c.journal[..|a.journal|];
  }

  /** A successful persist is recorded under its key; it is a fresh row with the
      next sequence number exactly when it is not a repeat, and a repeat writes
      nothing. */
  lemma PersistRecords(db: DB, d: Draft)
    requires Persist(db, d).err.None?
    ensures var w := Persist(db, d);
            && w.message.Some? && Grows(db, w.db)
            && Recorded(w.db, d.Key(), d.Hash(), w.message.value)
            && (w.repeated <==> d.Key() in db.operations)
            && (w.repeated ==> w.db == db)
            && (!w.repeated ==>
                  && w.message.value.id !in db.messages && w.message.value.id in w.db.messages
                  && w.db.messages[w.message.value.id] == w.message.value
                  && w.message.value.num == Head(db, d.chat) + 1 == Head(w.db, d.chat)
                  && w.message.value.epoch == db.chats[d.chat].epoch && !db.chats[d.chat].pending
                  && w.db.journal == db.journal + [Row(d.chat, Head(db, d.chat) + 1, MessageCreated, Some(d.messageId), d.at)])
  {
    assert db.journal <= Persist(db, d).db.journal;
  }

  /** Only the operation under the draft's own key can appear. */
  lemma PersistTouchesOneKey(db: DB, d: Draft, key: (Id, Id))
    requires Persist(db, d).err.None? && key != d.Key()
    ensures key in Persist(db, d).db.operations <==> key in db.operations
  {
  }

  /** Validation reads nothing that other senders' messages change: it gives the
      same verdict as long as its own operation key has not been used. */
  lemma PrepareStable(srv: Server, a: DB, b: DB, id: Identity, chat: Id, input: Input, stamp: Stamp)
    requires Grows(a, b)
    requires (id.device, input.op) in b.operations ==> (id.device, input.op) in a.operations
    ensures Prepare(srv, a, id, chat, input, stamp) == Prepare(srv, b, id, chat, input, stamp)
  {
    assert MaySend(a, id, chat) == MaySend(b, id, chat);
    if MaySend(a, id, chat) {
      assert b.chats[chat] == a.chats[chat].(num := b.chats[chat].num);
      assert Payload(srv, a, id, chat, input) == Payload(srv, b, id, chat, input);
    }
  }

  /** An answer for a stored message does not change as others are stored. */
  lemma SendResultStable(a: DB, b: DB, id: Identity, saved: Message, minimal: bool, repeated: bool)
    requires Grows(a, b)
    requires saved.id in a.messages
    ensures SendResult(a, id, saved, minimal, repeated) == SendResult(b, id, saved, minimal, repeated)
  {
    assert b.messages[saved.id] == a.messages[saved.id];
  }
}
