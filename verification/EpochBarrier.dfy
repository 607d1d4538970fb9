/** The MLS relay: one commit at a time for each group, a roster checked against
    the membership tables, one-time key packages, and the epoch barrier that keeps
    messages out between a pending commit and its confirmation. */
module EpochBarrier {
  import opened Basics
  import opened Relay

  const MAX_INT64: int := 0x7fff_ffff_ffff_ffff

  const MAX_ROSTER: nat := 1024

  const MAX_LEAF: int := 65535

  datatype Leaf = Leaf(device: Id, index: nat)

  datatype WelcomeItem = WelcomeItem(device: Id, pkg: Id, wireOk: bool)

  /** History: the epoch a group was initialised at, claims, and Welcomes stored. */
  datatype Claimed = Claimed(pkg: Id, chat: Id)

  datatype Welcomed = Welcomed(pkg: Id, chat: Id, transition: Id)

  datatype State = State(db: DB, initial: map<Id, int>, claims: seq<Claimed>, welcomes: seq<Welcomed>)

  function Init(): State {
    State(DB(map[], map[], map[], map[], map[], map[], [], map[], map[], map[], [], map[]), map[], [], [])
  }

  /** An unrevoked device of an enabled account that is an active member. */
  predicate Allowed(db: DB, chat: Id, device: Id) {
    && device in db.devices && !db.devices[device].revoked
    && var user := db.devices[device].user;
    && user in db.users && !db.users[user]
    && (chat, user) in db.members && db.members[(chat, user)].active
  }

  function ActiveUsers(db: DB, chat: Id): set<Id> {
    set k | k in db.members && k.0 == chat && db.members[k].active && k.1 in db.users && !db.users[k.1] :: k.1
  }

  ghost predicate Covers(db: DB, roster: seq<Leaf>, user: Id) {
    exists i :: 0 <= i < |roster| && roster[i].device in db.devices && db.devices[roster[i].device].user == user
  }

  predicate EntryOk(db: DB, chat: Id, e: Leaf) {
    e.index <= MAX_LEAF && Allowed(db, chat, e.device) && db.devices[e.device].hasSigningKey
  }

  ghost predicate DistinctBelow(roster: seq<Leaf>, n: nat)
    requires n <= |roster|
  {
    forall i, j :: 0 <= i < j < n ==> roster[i].device != roster[j].device && roster[i].index != roster[j].index
  }

  /** A roster in agreement with the membership tables. */
  ghost predicate RosterValid(db: DB, chat: Id, roster: seq<Leaf>) {
    && 1 <= |roster| <= MAX_ROSTER
    && DistinctBelow(roster, |roster|)
    && (forall i :: 0 <= i < |roster| ==> EntryOk(db, chat, roster[i]))
    && (forall user :: user in ActiveUsers(db, chat) ==> Covers(db, roster, user))
  }

  /** The roster check accepts exactly the valid rosters; `accounts` is what the
      query for active accounts returns, in any order. */
  method ValidateRoster(db: DB, chat: Id, roster: seq<Leaf>, accounts: seq<Id>) returns (ok: bool)
    requires forall u :: u in accounts <==> u in ActiveUsers(db, chat)
    ensures ok <==> RosterValid(db, chat, roster)
  {
    if |roster| == 0 || |roster| > MAX_ROSTER {
      return false;
    }
    var devices: set<Id>, leaves: set<nat>, users: set<Id> := {}, {}, {};
    var i := 0;
    while i < |roster|
      invariant 0 <= i <= |roster| && DistinctBelow(roster, i)
      invariant forall d :: d in devices <==> exists j :: 0 <= j < i && roster[j].device == d
      invariant forall n :: n in leaves <==> exists j :: 0 <= j < i && roster[j].index == n
      invariant forall j :: 0 <= j < i ==> EntryOk(db, chat, roster[j])
      invariant forall u :: u in users <==> exists j :: 0 <= j < i && roster[j].device in db.devices && db.devices[roster[j].device].user == u
    {
      if roster[i].device in devices || roster[i].index in leaves || roster[i].index > MAX_LEAF {
        return false;
      }
      devices, leaves := devices + {roster[i].device}, leaves + {roster[i].index};
      if !Allowed(db, chat, roster[i].device) || !db.devices[roster[i].device].hasSigningKey {
        assert !EntryOk(db, chat, roster[i]);
        return false;
      }
      users := users + {db.devices[roster[i].device].user};
      i := i + 1;
    }
    var k := 0;
    while k < |accounts|
      invariant 0 <= k <= |accounts|
      invariant forall j :: 0 <= j < k ==> Covers(db, roster, accounts[j])
    {
      if accounts[k] !in users {
        assert accounts[k] in ActiveUsers(db, chat) && !Covers(db, roster, accounts[k]);
        return false;
      }
      k := k + 1;
    }
    forall u | u in ActiveUsers(db, chat) ensures Covers(db, roster, u) {
      assert u in accounts;
    }
    ok := true;
  }

  function RosterMap(roster: seq<Leaf>): map<Id, nat> {
    if roster == [] then map[]
    else RosterMap(roster[..|roster| - 1])[roster[|roster| - 1].device := roster[|roster| - 1].index]
  }

  lemma {:induction false} RosterMapKeys(roster: seq<Leaf>, d: Id)
    ensures d in RosterMap(roster) <==> exists i :: 0 <= i < |roster| && roster[i].device == d
    decreases |roster|
  {
    if roster != [] {
      var n := |roster| - 1;
      RosterMapKeys(roster[..n], d);
      if d in RosterMap(roster[..n]) {
        var i :| 0 <= i < n && roster[..n][i].device == d;
        assert roster[i].device == d;
      }
      if exists i :: 0 <= i < |roster| && roster[i].device == d {
        var i :| 0 <= i < |roster| && roster[i].device == d;
        assert i < n ==> roster[..n][i].device == d;
      }
      assert roster[n].device == d || d !in RosterMap(roster[..n]) || d in RosterMap(roster);
    }
  }

  /** The roster table is replaced row by row. */
  method SaveRoster(db: DB, chat: Id, roster: seq<Leaf>) returns (t: DB)
    ensures t == db.(roster := db.roster[chat := RosterMap(roster)])
  {
    var rows: map<Id, nat> := map[];
    var i := 0;
    while i < |roster|
      invariant 0 <= i <= |roster| && rows == RosterMap(roster[..i])
    {
      assert roster[..i + 1][..i] == roster[..i];
      rows := rows[roster[i].device := roster[i].index];
      i := i + 1;
    }
    assert roster[..i] == roster;
    t := db.(roster := db.roster[chat := rows]);
  }

  function PutUser(s: State, user: Id, disabled: bool): State {
    s.(db := s.db.(users := s.db.users[user := disabled]))
  }

  /** Device keys are immutable: only a new id is registered. */
  function PutDevice(s: State, user: Id, device: Id, hasKey: bool): State {
    if device in s.db.devices || user !in s.db.users then s
    else s.(db := s.db.(devices := s.db.devices[device := Device(user, hasKey, false)]))
  }

  predicate Raised(db: DB, user: Id, chat: Id) {
    chat in db.chats && db.chats[chat].mode.E2ee? && (chat, user) in db.members && db.members[(chat, user)].active
  }

  /** Revoking a device raises the barrier of every encrypted chat its user is
      active in. */
  function RevokeDevice(s: State, user: Id, device: Id): State {
    if device !in s.db.devices || s.db.devices[device].user != user then s
    else
      s.(db := s.db.(devices := s.db.devices[device := s.db.devices[device].(revoked := true)],
                     chats := map c | c in s.db.chats ::
                       if Raised(s.db, user, c) then s.db.chats[c].(pending := true) else s.db.chats[c]))
  }

  /** An encrypted chat starts pending, without a group. */
  function CreateChat(s: State, chat: Id, mode: Mode, direct: bool, members: seq<Id>): State {
    if chat in s.db.chats || |members| < 2 || (direct && |members| != 2) then s
    else if exists i, j :: 0 <= i < j < |members| && members[i] == members[j] then s
    else if exists i :: 0 <= i < |members| && members[i] !in s.db.users then s
    else
      s.(db := s.db.(chats := s.db.chats[chat := Chat(mode, direct, 0, 0, mode.E2ee?)],
                     members := map k | k in s.db.members.Keys + (set u | u in members :: (chat, u)) ::
                       if k.0 == chat && k.1 in members then Member(true, 1, true) else s.db.members[k]))
  }

  predicate Knows(db: DB, chat: Id, user: Id) {
    (chat, user) in db.members
  }

  /** The membership row; joining, leaving and rejoining raise the barrier, and
      history starts after a join. */
  function Placed(db: DB, chat: Id, user: Id, canSend: bool, active: bool, allowHistory: bool): DB
    requires chat in db.chats
  {
    var was := if Knows(db, chat, user) then db.members[(chat, user)] else Member(false, 0, false);
    var joined := if allowHistory then 1 else if was.active && active then was.joinedSeq else db.chats[chat].num + 1;
    var raise := db.chats[chat].mode.E2ee? && (!Knows(db, chat, user) || was.active != active);
    db.(members := db.members[(chat, user) := Member(canSend, joined, active)],
        chats := db.chats[chat := db.chats[chat].(pending := raise || db.chats[chat].pending)])
  }

  function PutMember(s: State, chat: Id, user: Id, canSend: bool, active: bool, allowHistory: bool, at: int): State {
    if chat !in s.db.chats || user !in s.db.users || (s.db.chats[chat].direct && !Knows(s.db, chat, user)) then s
    else s.(db := Append(Placed(s.db, chat, user, canSend, active, allowHistory), chat, MembershipChanged, None, at))
  }

  function Upload(s: State, device: Id, pkg: Id, room: bool): State {
    if pkg in s.db.keyPackages || device !in s.db.devices || s.db.devices[device].revoked || !room then s
    else s.(db := s.db.(keyPackages := s.db.keyPackages[pkg := KeyPackage(device, None, false)]))
  }

  /** A claim takes an unclaimed package of the target for this chat. */
  function Claim(s: State, id: Identity, chat: Id, target: Id, pkg: Id): State {
    if !((chat, id.user) in s.db.members && s.db.members[(chat, id.user)].active && s.db.members[(chat, id.user)].canSend) then s
    else if !(chat in s.db.chats && s.db.chats[chat].mode.E2ee? && Allowed(s.db, chat, target)) then s
    else if !(pkg in s.db.keyPackages && s.db.keyPackages[pkg].device == target && s.db.keyPackages[pkg].claimed.None?) then s
    else
      s.(db := s.db.(keyPackages := s.db.keyPackages[pkg := s.db.keyPackages[pkg].(claimed := Some(chat))]),
         claims := s.claims + [Claimed(pkg, chat)])
  }

  predicate Usable(db: DB, chat: Id, item: WelcomeItem) {
    && item.pkg in db.keyPackages && !db.keyPackages[item.pkg].used
    && db.keyPackages[item.pkg].claimed == Some(chat) && db.keyPackages[item.pkg].device == item.device
    && Allowed(db, chat, item.device) && item.wireOk
  }

  /** Each Welcome uses up a package claimed for this chat; recipients differ. */
  function UseEach(s: State, chat: Id, transition: Id, items: seq<WelcomeItem>): Option<State> {
    if items == [] then Some(s)
    else
      var n := |items| - 1;
      var rest := UseEach(s, chat, transition, items[..n]);
      if rest.None? || !Usable(rest.value.db, chat, items[n]) then None
      else if exists i :: 0 <= i < n && items[i].device == items[n].device then None
      else
        var db := rest.value.db;
        Some(rest.value.(db := db.(keyPackages := db.keyPackages[items[n].pkg := db.keyPackages[items[n].pkg].(used := true)]),
                         welcomes := rest.value.welcomes + [Welcomed(items[n].pkg, chat, transition)]))
  }

  predicate Unconfirmed(db: DB, chat: Id) {
    exists t :: t in db.transitions && t.chat == chat && !t.confirmed
  }

  /** A commit as parsed and verified: its epoch, group and sender leaf. */
  datatype Parsed = Parsed(epoch: int, group: Id, leaf: nat, signed: bool, hooksAgree: bool)

  /** The sender is a roster device of a live member, and the commit is for the
      current group and epoch. */
  predicate MayCommit(db: DB, id: Identity, chat: Id, commit: Parsed) {
    && MaySend(db, id, chat) && chat in db.groups && chat in db.roster && id.device in db.roster[chat]
    && commit.epoch == db.chats[chat].epoch && commit.group == db.groups[chat] && commit.leaf == db.roster[chat][id.device]
    && db.devices[id.device].hasSigningKey && commit.signed && commit.hooksAgree
  }

  function Submit(s: State, id: Identity, chat: Id, commit: Parsed, transition: Id, items: seq<WelcomeItem>, at: int): Option<State> {
    if !MayCommit(s.db, id, chat, commit) then None
    else if (exists t :: t in s.db.transitions && t.id == transition) || Unconfirmed(s.db, chat) || |items| > MAX_ROSTER then None
    else
      var db1 := s.db.(transitions := s.db.transitions + [Transition(transition, chat, id.device, s.db.chats[chat].epoch, false)]);
      var used := UseEach(s.(db := db1), chat, transition, items);
      if used.None? then None
      else
        var db2 := used.value.db;
        if chat !in db2.chats then None
        else
          var db3 := db2.(chats := db2.chats[chat := db2.chats[chat].(pending := true)]);
          Some(used.value.(db := Append(db3, chat, CommitPending, None, at)))
  }

  /** A confirmation; `previous` is -1 for the initialisation of a new relay. */
  datatype Confirmation = Confirmation(
    transition: Option<Id>, group: Id, previous: int, epoch: int, signer: Id, proofOk: bool, hooksAgree: bool, roster: seq<Leaf>)

  ghost predicate Attested(db: DB, chat: Id, c: Confirmation) {
    && RosterValid(db, chat, c.roster)
    && c.signer in db.devices && !db.devices[c.signer].revoked && db.devices[c.signer].hasSigningKey
    && (exists i :: 0 <= i < |c.roster| && c.roster[i].device == c.signer)
    && c.proofOk && 0 <= c.epoch <= MAX_INT64
  }

  predicate MayInitialise(db: DB, chat: Id, c: Confirmation) {
    && c.previous == -1 && c.transition.None?
    && chat in db.chats && db.chats[chat].mode.E2ee?
    && chat !in db.groups && (forall other :: other in db.groups ==> db.groups[other] != c.group)
  }

  predicate Awaits(db: DB, chat: Id, c: Confirmation, t: Transition) {
    t.chat == chat && c.transition == Some(t.id) && t.epoch == c.previous && t.sender == c.signer && !t.confirmed
  }

  predicate MayAdvance(db: DB, chat: Id, c: Confirmation) {
    && 0 <= c.previous < MAX_INT64 && c.epoch == c.previous + 1
    && chat in db.chats && chat in db.groups && db.groups[chat] == c.group
    && db.chats[chat].pending && db.chats[chat].epoch == c.previous
    && chat in db.roster && c.signer in db.roster[chat]
    && (exists t :: t in db.transitions && Awaits(db, chat, c, t))
    && c.hooksAgree
  }

  function ConfirmAll(transitions: seq<Transition>, id: Id): seq<Transition> {
    seq(|transitions|, i requires 0 <= i < |transitions| =>
      if transitions[i].id == id then transitions[i].(confirmed := true) else transitions[i])
  }

  function Initialised(s: State, chat: Id, c: Confirmation, at: int): State
    requires chat in s.db.chats
  {
    var db := s.db.(groups := s.db.groups[chat := c.group], roster := s.db.roster[chat := RosterMap(c.roster)],
                    chats := s.db.chats[chat := s.db.chats[chat].(epoch := c.epoch, pending := false)]);
    s.(db := Append(db, chat, EpochConfirmed, None, at), initial := s.initial[chat := c.epoch])
  }

  function Advanced(s: State, chat: Id, c: Confirmation, at: int): State
    requires chat in s.db.chats && c.transition.Some?
  {
    var db := s.db.(roster := s.db.roster[chat := RosterMap(c.roster)],
                    transitions := ConfirmAll(s.db.transitions, c.transition.value),
                    chats := s.db.chats[chat := s.db.chats[chat].(epoch := c.epoch, pending := false)]);
    s.(db := Append(db, chat, EpochConfirmed, None, at))
  }

  ghost function Confirm(s: State, chat: Id, c: Confirmation, at: int): Option<State> {
    if !Attested(s.db, chat, c) then None
    else if MayInitialise(s.db, chat, c) then Some(Initialised(s, chat, c, at))
    else if c.previous != -1 && c.transition.Some? && MayAdvance(s.db, chat, c) then Some(Advanced(s, chat, c, at))
    else None
  }

  /** A message through the writer; a refused one leaves nothing. */
  function Send(s: State, d: Draft): State {
    if Persist(s.db, d).err.None? then s.(db := Persist(s.db, d).db) else s
  }

  /** A commit is open after its pending event until the next confirmation. */
  predicate Open(journal: seq<Row>, chat: Id) {
    journal != []
    && var row := journal[|journal| - 1];
    if row.chat == chat && row.kind.CommitPending? then true
    else if row.chat == chat && row.kind.EpochConfirmed? then false
    else Open(journal[..|journal| - 1], chat)
  }

  function Confirmed(transitions: seq<Transition>, chat: Id): nat {
    if transitions == [] then 0
    else
      var n := |transitions| - 1;
      Confirmed(transitions[..n], chat) + if transitions[n].chat == chat && transitions[n].confirmed then 1 else 0
  }

  /** Transitions have their own ids and belong to initialised groups. */
  ghost predicate Ids(db: DB) {
    && (forall i, j :: 0 <= i < j < |db.transitions| ==> db.transitions[i].id != db.transitions[j].id)
    && (forall i :: 0 <= i < |db.transitions| ==> db.transitions[i].chat in db.groups)
    && (forall c :: c in db.groups ==> c in db.chats && db.chats[c].mode.E2ee? && c in db.roster)
    && (forall c :: c in db.chats && c !in db.groups ==> db.chats[c].epoch == 0 && (db.chats[c].mode.E2ee? ==> db.chats[c].pending))
  }

  ghost predicate OneOpen(db: DB) {
    forall i, j :: 0 <= i < j < |db.transitions| && db.transitions[i].chat == db.transitions[j].chat ==>
      db.transitions[i].confirmed || db.transitions[j].confirmed
  }

  /** The open transition exists only while pending and carries the chat's epoch. */
  predicate TransitionOk(db: DB, t: Transition) {
    !t.confirmed ==> t.chat in db.chats && db.chats[t.chat].pending && t.epoch == db.chats[t.chat].epoch
  }

  ghost predicate Counted(s: State, c: Id) {
    c in s.db.groups ==>
      c in s.db.chats && c in s.initial && s.db.chats[c].epoch - s.initial[c] == Confirmed(s.db.transitions, c)
  }

  /** One transition at a time, and epochs count the confirmed ones. */
  ghost predicate Chain(s: State) {
    && Ids(s.db) && OneOpen(s.db)
    && (forall i :: 0 <= i < |s.db.transitions| ==> TransitionOk(s.db, s.db.transitions[i]))
    && (forall c :: Counted(s, c))
  }

  /** The journal shows an open commit exactly while a transition is unconfirmed. */
  ghost predicate Shown(db: DB) {
    forall c :: Open(db.journal, c) == Unconfirmed(db, c)
  }

  predicate RowOk(db: DB, row: Row) {
    row.kind.MessageCreated? ==>
      && row.chat in db.chats && row.message.Some? && row.message.value in db.messages
      && db.messages[row.message.value].chat == row.chat
      && db.messages[row.message.value].epoch <= db.chats[row.chat].epoch
  }

  function EpochAt(db: DB, row: Row): int {
    if row.message.Some? && row.message.value in db.messages then db.messages[row.message.value].epoch else 0
  }

  ghost predicate Ascending(db: DB) {
    forall i, j :: 0 <= i < j < |db.journal| && db.journal[i].chat == db.journal[j].chat
                   && db.journal[i].kind.MessageCreated? && db.journal[j].kind.MessageCreated? ==>
      EpochAt(db, db.journal[i]) <= EpochAt(db, db.journal[j])
  }

  predicate NotWithin(journal: seq<Row>, i: nat)
    requires i < |journal|
  {
    journal[i].kind.MessageCreated? ==> !Open(journal[..i], journal[i].chat)
  }

  /** Messages were created outside open commits, in ascending epochs. */
  ghost predicate Ordered(db: DB) {
    && (forall i :: 0 <= i < |db.journal| ==> RowOk(db, db.journal[i]) && NotWithin(db.journal, i))
    && Ascending(db)
  }

  /** A device of an active member that is not revoked. */
  predicate Sound(db: DB, chat: Id, device: Id) {
    && device in db.devices && !db.devices[device].revoked
    && (chat, db.devices[device].user) in db.members && db.members[(chat, db.devices[device].user)].active
  }

  ghost predicate RosterSound(db: DB, chat: Id) {
    chat in db.groups && chat in db.chats && !db.chats[chat].pending && chat in db.roster ==>
      forall d :: d in db.roster[chat] ==> Sound(db, chat, d)
  }

  ghost predicate Rosters(db: DB) {
    forall c :: RosterSound(db, c)
  }

  ghost predicate Held(s: State, pkg: Id, chat: Id) {
    exists i :: 0 <= i < |s.claims| && s.claims[i] == Claimed(pkg, chat)
  }

  ghost predicate Spent(s: State, pkg: Id) {
    exists i :: 0 <= i < |s.welcomes| && s.welcomes[i].pkg == pkg
  }

  ghost predicate PackageOk(s: State, pkg: Id) {
    pkg in s.db.keyPackages ==>
      && (forall chat :: s.db.keyPackages[pkg].claimed == Some(chat) <==> Held(s, pkg, chat))
      && (s.db.keyPackages[pkg].used <==> Spent(s, pkg))
  }

  /** Each package is claimed once and used by one Welcome, of the same chat. */
  ghost predicate Packages(s: State) {
    && (forall i, j :: 0 <= i < j < |s.claims| ==> s.claims[i].pkg != s.claims[j].pkg)
    && (forall i, j :: 0 <= i < j < |s.welcomes| ==> s.welcomes[i].pkg != s.welcomes[j].pkg)
    && (forall i :: 0 <= i < |s.claims| ==> s.claims[i].pkg in s.db.keyPackages)
    && (forall i :: 0 <= i < |s.welcomes| ==>
          s.welcomes[i].pkg in s.db.keyPackages && s.db.keyPackages[s.welcomes[i].pkg].claimed == Some(s.welcomes[i].chat))
    && (forall pkg :: PackageOk(s, pkg))
  }

  ghost predicate Inv(s: State) {
    Chain(s) && Shown(s.db) && Ordered(s.db) && Rosters(s.db) && Packages(s)
  }

  /** Chats stay, with their mode; epochs do not change and barriers only rise. */
  ghost predicate ChatsKept(s: DB, t: DB) {
    && (forall c :: c in s.chats ==>
          c in t.chats && t.chats[c].mode == s.chats[c].mode && t.chats[c].epoch == s.chats[c].epoch
          && (s.chats[c].pending ==> t.chats[c].pending))
    && (forall c :: c in t.chats && c !in s.chats ==> t.chats[c].epoch == 0 && (t.chats[c].mode.E2ee? ==> t.chats[c].pending))
  }

  lemma ChainKept(s: State, t: State)
    requires Chain(s) && ChatsKept(s.db, t.db) && t.initial == s.initial
    requires t.db.transitions == s.db.transitions && t.db.groups == s.db.groups && t.db.roster == s.db.roster
    ensures Chain(t)
  {
    forall c ensures Counted(t, c) { assert Counted(s, c); }
    forall i | 0 <= i < |t.db.transitions| ensures TransitionOk(t.db, t.db.transitions[i]) { assert TransitionOk(s.db, s.db.transitions[i]); }
  }

  /** Messages and chats stay, epochs do not go back. */
  ghost predicate HistoryKept(s: DB, t: DB) {
    && (forall m :: m in s.messages ==> m in t.messages && t.messages[m] == s.messages[m])
    && (forall c :: c in s.chats ==> c in t.chats && s.chats[c].epoch <= t.chats[c].epoch)
  }

  lemma RowKept(s: DB, t: DB, row: Row)
    requires HistoryKept(s, t) && RowOk(s, row)
    ensures RowOk(t, row) && (row.kind.MessageCreated? ==> EpochAt(t, row) == EpochAt(s, row))
  {
    if row.kind.MessageCreated? {
      var m := row.message.value;
      assert m in s.messages && m in t.messages;
    }
  }

  lemma OrderedKept(s: DB, t: DB)
    requires Ordered(s) && HistoryKept(s, t) && t.journal == s.journal
    ensures Ordered(t)
  {
    forall i | 0 <= i < |t.journal|
      ensures RowOk(t, t.journal[i]) && NotWithin(t.journal, i)
      ensures t.journal[i].kind.MessageCreated? ==> EpochAt(t, t.journal[i]) == EpochAt(s, s.journal[i])
    {
      assert RowOk(s, s.journal[i]) && NotWithin(s.journal, i);
      RowKept(s, t, s.journal[i]);
    }
  }

  /** One more row: a message may only come outside an open commit, at the chat's
      own epoch. */
  lemma OrderedAppend(s: DB, t: DB, row: Row)
    requires Ordered(s) && HistoryKept(s, t) && t.journal == s.journal + [row]
    requires row.kind.MessageCreated? ==>
               RowOk(t, row) && !Open(s.journal, row.chat) && EpochAt(t, row) == t.chats[row.chat].epoch
    ensures Ordered(t)
  {
    var n := |s.journal|;
    forall i | 0 <= i < n
      ensures t.journal[i] == s.journal[i] && RowOk(t, t.journal[i]) && NotWithin(t.journal, i)
      ensures t.journal[i].kind.MessageCreated? ==> EpochAt(t, t.journal[i]) == EpochAt(s, s.journal[i])
    {
      assert RowOk(s, s.journal[i]) && NotWithin(s.journal, i);
      assert t.journal[..i] == s.journal[..i];
      RowKept(s, t, s.journal[i]);
    }
    assert t.journal[..n] == s.journal;
    assert t.journal[n] == row;
  }

  ghost predicate PackagesSame(s: State, t: State) {
    t.db.keyPackages == s.db.keyPackages && t.claims == s.claims && t.welcomes == s.welcomes
  }

  lemma PackagesKept(s: State, t: State)
    requires Packages(s) && PackagesSame(s, t)
    ensures Packages(t)
  {
    forall pkg ensures PackageOk(t, pkg) {
      assert PackageOk(s, pkg);
      assert forall chat :: Held(t, pkg, chat) <==> Held(s, pkg, chat);
      assert Spent(t, pkg) <==> Spent(s, pkg);
    }
  }

  lemma RostersKept(s: DB, t: DB)
    requires Rosters(s) && t.groups == s.groups && t.roster == s.roster
    requires forall c :: c in t.chats && !t.chats[c].pending && c in t.groups ==> c in s.chats && !s.chats[c].pending
    requires forall c, d :: c in t.groups && c in t.chats && !t.chats[c].pending && c in t.roster && d in t.roster[c] ==>
               Sound(s, c, d) ==> Sound(t, c, d)
    ensures Rosters(t)
  {
    forall c ensures RosterSound(t, c) { assert RosterSound(s, c); }
  }

  lemma PutUserKeeps(s: State, user: Id, disabled: bool)
    requires Inv(s)
    ensures Inv(PutUser(s, user, disabled))
  {
    var t := PutUser(s, user, disabled);
    ChainKept(s, t);
    OrderedKept(s.db, t.db);
    PackagesKept(s, t);
    RostersKept(s.db, t.db);
    forall c ensures Open(t.db.journal, c) == Unconfirmed(t.db, c) { assert Open(s.db.journal, c) == Unconfirmed(s.db, c); }
  }

  lemma PutDeviceKeeps(s: State, user: Id, device: Id, hasKey: bool)
    requires Inv(s)
    ensures Inv(PutDevice(s, user, device, hasKey))
  {
    var t := PutDevice(s, user, device, hasKey);
    ChainKept(s, t);
    OrderedKept(s.db, t.db);
    PackagesKept(s, t);
    RostersKept(s.db, t.db);
    forall c ensures Open(t.db.journal, c) == Unconfirmed(t.db, c) { assert Open(s.db.journal, c) == Unconfirmed(s.db, c); }
  }

  lemma RevokeDeviceKeeps(s: State, user: Id, device: Id)
    requires Inv(s)
    ensures Inv(RevokeDevice(s, user, device))
  {
    var t := RevokeDevice(s, user, device);
    ChainKept(s, t);
    OrderedKept(s.db, t.db);
    PackagesKept(s, t);
    RevokeRosters(s, user, device);
    forall c ensures Open(t.db.journal, c) == Unconfirmed(t.db, c) { assert Open(s.db.journal, c) == Unconfirmed(s.db, c); }
  }

  /** A revoked device's user was active wherever the device was in a settled
      roster, so those chats are pending now. */
  lemma RevokeRosters(s: State, user: Id, device: Id)
    requires Chain(s) && Rosters(s.db)
    ensures Rosters(RevokeDevice(s, user, device).db)
  {
    var t := RevokeDevice(s, user, device);
    forall c ensures RosterSound(t.db, c) {
      assert RosterSound(s.db, c);
      if t != s && c in s.db.groups && c in s.db.chats && !t.db.chats[c].pending && c in s.db.roster {
        assert !s.db.chats[c].pending && !Raised(s.db, user, c);
        forall d | d in t.db.roster[c] ensures Sound(t.db, c, d) { assert Sound(s.db, c, d); }
      }
    }
  }

  lemma CreateChatKeeps(s: State, chat: Id, mode: Mode, direct: bool, members: seq<Id>)
    requires Inv(s)
    ensures Inv(CreateChat(s, chat, mode, direct, members))
  {
    var t := CreateChat(s, chat, mode, direct, members);
    if t != s {
      ChainKept(s, t);
      OrderedKept(s.db, t.db);
      PackagesKept(s, t);
      RostersKept(s.db, t.db);
      forall c ensures Open(t.db.journal, c) == Unconfirmed(t.db, c) { assert Open(s.db.journal, c) == Unconfirmed(s.db, c); }
    }
  }

  lemma PlacedKeeps(s: State, chat: Id, user: Id, canSend: bool, active: bool, allowHistory: bool)
    requires Inv(s) && chat in s.db.chats
    ensures Inv(s.(db := Placed(s.db, chat, user, canSend, active, allowHistory)))
  {
    var t := s.(db := Placed(s.db, chat, user, canSend, active, allowHistory));
    ChainKept(s, t);
    OrderedKept(s.db, t.db);
    PackagesKept(s, t);
    PlacedRosters(s, chat, user, canSend, active, allowHistory);
    forall c ensures Open(t.db.journal, c) == Unconfirmed(t.db, c) { assert Open(s.db.journal, c) == Unconfirmed(s.db, c); }
  }

  lemma PlacedRosters(s: State, chat: Id, user: Id, canSend: bool, active: bool, allowHistory: bool)
    requires Chain(s) && Rosters(s.db) && chat in s.db.chats
    ensures Rosters(Placed(s.db, chat, user, canSend, active, allowHistory))
  {
    var t := Placed(s.db, chat, user, canSend, active, allowHistory);
    forall c, d | c in t.groups && c in t.chats && !t.chats[c].pending && c in t.roster && d in t.roster[c] && Sound(s.db, c, d)
      ensures Sound(t, c, d)
    {
      if c == chat && s.db.devices[d].user == user {
        assert Knows(s.db, chat, user);
      }
    }
    RostersKept(s.db, t);
  }

  /** An event that is neither a message nor a commit's. */
  lemma NoticeKeeps(s: State, chat: Id, at: int)
    requires Inv(s) && chat in s.db.chats
    ensures Inv(s.(db := Append(s.db, chat, MembershipChanged, None, at)))
  {
    var t := s.(db := Append(s.db, chat, MembershipChanged, None, at));
    var row := Row(chat, s.db.chats[chat].num + 1, MembershipChanged, None, at);
    ChainKept(s, t);
    OrderedAppend(s.db, t.db, row);
    PackagesKept(s, t);
    RostersKept(s.db, t.db);
  }

  lemma PutMemberKeeps(s: State, chat: Id, user: Id, canSend: bool, active: bool, allowHistory: bool, at: int)
    requires Inv(s)
    ensures Inv(PutMember(s, chat, user, canSend, active, allowHistory, at))
  {
    var t := PutMember(s, chat, user, canSend, active, allowHistory, at);
    if t != s {
      PlacedKeeps(s, chat, user, canSend, active, allowHistory);
      NoticeKeeps(s.(db := Placed(s.db, chat, user, canSend, active, allowHistory)), chat, at);
    }
  }

  lemma ClaimKeeps(s: State, id: Identity, chat: Id, target: Id, pkg: Id)
    requires Inv(s)
    ensures Inv(Claim(s, id, chat, target, pkg))
  {
    var t := Claim(s, id, chat, target, pkg);
    if t != s {
      ChainKept(s, t);
      OrderedKept(s.db, t.db);
      RostersKept(s.db, t.db);
      forall c ensures Open(t.db.journal, c) == Unconfirmed(t.db, c) { assert Open(s.db.journal, c) == Unconfirmed(s.db, c); }
      ClaimPackages(s, id, chat, target, pkg);
    }
  }

  lemma ClaimPackages(s: State, id: Identity, chat: Id, target: Id, pkg: Id)
    requires Packages(s)
    ensures Packages(Claim(s, id, chat, target, pkg))
  {
    var t := Claim(s, id, chat, target, pkg);
    if t != s {
      var n := |s.claims|;
      assert PackageOk(s, pkg);
      assert t.claims[n] == Claimed(pkg, chat);
      forall i | 0 <= i < n ensures s.claims[i].pkg != pkg {
        var claim := s.claims[i];
        assert Held(s, claim.pkg, claim.chat) && PackageOk(s, claim.pkg);
      }
      forall p ensures PackageOk(t, p) {
        assert PackageOk(s, p);
        assert Spent(t, p) <==> Spent(s, p);
        forall c ensures Held(t, p, c) <==> Held(s, p, c) || (p == pkg && c == chat) {
          if Held(s, p, c) {
            var i :| 0 <= i < n && s.claims[i] == Claimed(p, c);
            assert t.claims[i] == Claimed(p, c);
          }
        }
      }
    }
  }

  lemma UploadKeeps(s: State, device: Id, pkg: Id, room: bool)
    requires Inv(s)
    ensures Inv(Upload(s, device, pkg, room))
  {
    var t := Upload(s, device, pkg, room);
    if t != s {
      ChainKept(s, t);
      OrderedKept(s.db, t.db);
      RostersKept(s.db, t.db);
      forall c ensures Open(t.db.journal, c) == Unconfirmed(t.db, c) { assert Open(s.db.journal, c) == Unconfirmed(s.db, c); }
      forall p ensures PackageOk(t, p) {
        assert PackageOk(s, p);
        assert Spent(t, p) <==> Spent(s, p);
        assert forall c :: Held(t, p, c) <==> Held(s, p, c);
      }
    }
  }

  /** A message: only outside the barrier, at the chat's epoch. */
  lemma SendKeeps(s: State, d: Draft)
    requires Inv(s)
    ensures Inv(Send(s, d))
  {
    var t := Send(s, d);
    if t != s {
      PersistRecords(s.db, d);
      assert !Persist(s.db, d).repeated;
      var row := Row(d.chat, Head(s.db, d.chat) + 1, MessageCreated, Some(d.messageId), d.at);
      SendJournal(s, d, row);
      ChainKept(s, t);
      PackagesKept(s, t);
      SendRosters(s, d);
    }
  }

  lemma SendRosters(s: State, d: Draft)
    requires Rosters(s.db) && Persist(s.db, d).err.None?
    ensures Rosters(Persist(s.db, d).db)
  {
    PersistRecords(s.db, d);
    RostersKept(s.db, Persist(s.db, d).db);
  }

  lemma SendJournal(s: State, d: Draft, row: Row)
    requires Chain(s) && Shown(s.db) && Ordered(s.db) && Persist(s.db, d).err.None? && !Persist(s.db, d).repeated
    requires row == Row(d.chat, Head(s.db, d.chat) + 1, MessageCreated, Some(d.messageId), d.at)
    ensures Ordered(Persist(s.db, d).db) && ChatsKept(s.db, Persist(s.db, d).db)
  {
    PersistRecords(s.db, d);
    var t := Persist(s.db, d).db;
    assert d.chat in s.db.chats && !s.db.chats[d.chat].pending;
    assert t.messages[d.messageId].epoch == t.chats[d.chat].epoch;
    OrderedAppend(s.db, t, row);
  }

  lemma UseOneKeeps(s: State, chat: Id, transition: Id, item: WelcomeItem)
    requires Packages(s) && Usable(s.db, chat, item)
    ensures Packages(s.(db := s.db.(keyPackages := s.db.keyPackages[item.pkg := s.db.keyPackages[item.pkg].(used := true)]),
                        welcomes := s.welcomes + [Welcomed(item.pkg, chat, transition)]))
  {
    var t := s.(db := s.db.(keyPackages := s.db.keyPackages[item.pkg := s.db.keyPackages[item.pkg].(used := true)]),
                welcomes := s.welcomes + [Welcomed(item.pkg, chat, transition)]);
    var n := |s.welcomes|;
    assert PackageOk(s, item.pkg);
    assert t.welcomes[n].pkg == item.pkg;
    forall i | 0 <= i < n ensures s.welcomes[i].pkg != item.pkg && t.welcomes[i] == s.welcomes[i] {
      assert Spent(s, s.welcomes[i].pkg);
    }
    forall p ensures PackageOk(t, p) {
      assert PackageOk(s, p);
      assert forall c :: Held(t, p, c) <==> Held(s, p, c);
      if Spent(s, p) {
        var i :| 0 <= i < n && s.welcomes[i].pkg == p;
        assert t.welcomes[i].pkg == p;
      }
    }
  }

  lemma {:induction false} UseEachKeeps(s: State, chat: Id, transition: Id, items: seq<WelcomeItem>)
    requires Packages(s) && UseEach(s, chat, transition, items).Some?
    ensures var r := UseEach(s, chat, transition, items).value;
            Packages(r) && r == s.(db := s.db.(keyPackages := r.db.keyPackages), welcomes := r.welcomes)
    decreases |items|
  {
    if items != [] {
      var n := |items| - 1;
      UseEachKeeps(s, chat, transition, items[..n]);
      UseOneKeeps(UseEach(s, chat, transition, items[..n]).value, chat, transition, items[n]);
    }
  }

  /** A new open transition under the barrier. */
  function Opened(s: State, chat: Id, t: Transition, at: int): State
    requires chat in s.db.chats
  {
    var db := s.db.(transitions := s.db.transitions + [t], chats := s.db.chats[chat := s.db.chats[chat].(pending := true)]);
    s.(db := Append(db, chat, CommitPending, None, at))
  }

  lemma OpenedChain(s: State, chat: Id, t: Transition, at: int)
    requires Chain(s) && chat in s.db.groups && chat in s.db.chats && !Unconfirmed(s.db, chat)
    requires t.chat == chat && !t.confirmed && t.epoch == s.db.chats[chat].epoch && forall u :: u in s.db.transitions ==> u.id != t.id
    ensures Chain(Opened(s, chat, t, at))
  {
    var r := Opened(s, chat, t, at);
    var n := |s.db.transitions|;
    assert r.db.transitions[n] == t;
    forall i | 0 <= i < n
      ensures r.db.transitions[i] == s.db.transitions[i] && s.db.transitions[i] in s.db.transitions
      ensures TransitionOk(r.db, r.db.transitions[i]) && (s.db.transitions[i].chat == chat ==> s.db.transitions[i].confirmed)
    {
      assert TransitionOk(s.db, s.db.transitions[i]);
    }
    forall c ensures Counted(r, c) {
      assert Counted(s, c);
    }
  }

  lemma OpenedKeeps(s: State, chat: Id, t: Transition, at: int)
    requires Inv(s) && chat in s.db.groups && chat in s.db.chats && !Unconfirmed(s.db, chat)
    requires t.chat == chat && !t.confirmed && t.epoch == s.db.chats[chat].epoch && forall u :: u in s.db.transitions ==> u.id != t.id
    ensures Inv(Opened(s, chat, t, at))
  {
    var r := Opened(s, chat, t, at);
    OpenedChain(s, chat, t, at);
    OrderedAppend(s.db, r.db, Row(chat, s.db.chats[chat].num + 1, CommitPending, None, at));
    PackagesKept(s, r);
    RostersKept(s.db, r.db);
  }

  lemma UsedKeeps(s: State, t: State)
    requires Inv(s) && Packages(t)
    requires t == s.(db := s.db.(keyPackages := t.db.keyPackages), welcomes := t.welcomes)
    ensures Inv(t)
  {
    ChainKept(s, t);
    OrderedKept(s.db, t.db);
    RostersKept(s.db, t.db);
    forall c ensures Open(t.db.journal, c) == Unconfirmed(t.db, c) { assert Open(s.db.journal, c) == Unconfirmed(s.db, c); }
  }

  lemma SubmitKeeps(s: State, id: Identity, chat: Id, commit: Parsed, transition: Id, items: seq<WelcomeItem>, at: int)
    requires Inv(s) && Submit(s, id, chat, commit, transition, items, at).Some?
    ensures Inv(Submit(s, id, chat, commit, transition, items, at).value)
  {
    var t := Transition(transition, chat, id.device, s.db.chats[chat].epoch, false);
    OpenedKeeps(s, chat, t, at);
    var o := Opened(s, chat, t, at);
    SubmitIsOpened(s, id, chat, commit, transition, items, at);
    UseEachKeeps(o, chat, transition, items);
    UsedKeeps(o, UseEach(o, chat, transition, items).value);
  }

  /** Whether the Welcomes go through does not depend on the rows around them, so
      the whole commit is the open transition followed by its Welcomes. */
  lemma SubmitIsOpened(s: State, id: Identity, chat: Id, commit: Parsed, transition: Id, items: seq<WelcomeItem>, at: int)
    requires Packages(s) && Submit(s, id, chat, commit, transition, items, at).Some?
    ensures var o := Opened(s, chat, Transition(transition, chat, id.device, s.db.chats[chat].epoch, false), at);
            UseEach(o, chat, transition, items) == Submit(s, id, chat, commit, transition, items, at)
  {
    var t := Transition(transition, chat, id.device, s.db.chats[chat].epoch, false);
    var a := s.(db := s.db.(transitions := s.db.transitions + [t]));
    var o := Opened(s, chat, t, at);
    UseEachSame(a, o, chat, transition, items);
  }

  ghost predicate SameForWelcomes(a: State, b: State) {
    && a.db.keyPackages == b.db.keyPackages && a.db.devices == b.db.devices && a.db.users == b.db.users
    && a.db.members == b.db.members && a.welcomes == b.welcomes
  }

  lemma {:induction false} UseEachSame(a: State, b: State, chat: Id, transition: Id, items: seq<WelcomeItem>)
    requires SameForWelcomes(a, b)
    ensures var r, q := UseEach(a, chat, transition, items), UseEach(b, chat, transition, items);
            && (r.Some? <==> q.Some?)
            && (r.Some? ==>
                  && SameForWelcomes(r.value, q.value)
                  && r.value == a.(db := a.db.(keyPackages := r.value.db.keyPackages), welcomes := r.value.welcomes)
                  && q.value == b.(db := b.db.(keyPackages := q.value.db.keyPackages), welcomes := q.value.welcomes))
    decreases |items|
  {
    if items != [] {
      UseEachSame(a, b, chat, transition, items[..|items| - 1]);
    }
  }

  lemma {:induction false} ConfirmAllCounts(transitions: seq<Transition>, k: nat, c: Id)
    requires k < |transitions| && !transitions[k].confirmed
    requires forall i, j :: 0 <= i < j < |transitions| ==> transitions[i].id != transitions[j].id
    ensures Confirmed(ConfirmAll(transitions, transitions[k].id), c)
            == Confirmed(transitions, c) + if transitions[k].chat == c then 1 else 0
    decreases |transitions|
  {
    var n := |transitions| - 1;
    var id := transitions[k].id;
    assert ConfirmAll(transitions, id)[..n] == ConfirmAll(transitions[..n], id);
    if k < n {
      ConfirmAllCounts(transitions[..n], k, c);
    } else {
      assert ConfirmAll(transitions[..n], id) == transitions[..n];
    }
  }

  /** The transition a confirmation is for is the chat's only open one. */
  lemma AwaitedIndex(s: State, chat: Id, c: Confirmation) returns (k: nat)
    requires Chain(s) && MayAdvance(s.db, chat, c) && c.transition.Some?
    ensures k < |s.db.transitions| && Awaits(s.db, chat, c, s.db.transitions[k])
    ensures forall i :: 0 <= i < |s.db.transitions| && i != k && s.db.transitions[i].chat == chat ==> s.db.transitions[i].confirmed
  {
    var t :| t in s.db.transitions && Awaits(s.db, chat, c, t);
    k :| 0 <= k < |s.db.transitions| && s.db.transitions[k] == t;
  }

  lemma AdvancedChain(s: State, chat: Id, c: Confirmation, at: int)
    requires Chain(s) && MayAdvance(s.db, chat, c) && c.transition.Some?
    ensures Chain(Advanced(s, chat, c, at))
  {
    var r := Advanced(s, chat, c, at);
    var k := AwaitedIndex(s, chat, c);
    forall i | 0 <= i < |r.db.transitions| ensures TransitionOk(r.db, r.db.transitions[i]) { assert TransitionOk(s.db, s.db.transitions[i]); }
    forall d ensures Counted(r, d) {
      assert Counted(s, d);
      ConfirmAllCounts(s.db.transitions, k, d);
    }
  }

  lemma AdvancedShown(s: State, chat: Id, c: Confirmation, at: int)
    requires Chain(s) && Shown(s.db) && MayAdvance(s.db, chat, c) && c.transition.Some?
    ensures Shown(Advanced(s, chat, c, at).db)
  {
    var r := Advanced(s, chat, c, at);
    var k := AwaitedIndex(s, chat, c);
    forall d ensures Open(r.db.journal, d) == Unconfirmed(r.db, d) {
      assert Open(s.db.journal, d) == Unconfirmed(s.db, d);
      if d == chat {
        forall t | t in r.db.transitions && t.chat == chat ensures t.confirmed { }
      } else {
        forall i | 0 <= i < |s.db.transitions| && s.db.transitions[i].chat == d ensures r.db.transitions[i] == s.db.transitions[i] { }
        if Unconfirmed(s.db, d) {
          var t :| t in s.db.transitions && t.chat == d && !t.confirmed;
          var i :| 0 <= i < |s.db.transitions| && s.db.transitions[i] == t;
          assert r.db.transitions[i] == t;
        }
      }
    }
  }

  lemma NewRoster(db: DB, chat: Id, roster: seq<Leaf>, d: Id)
    requires RosterValid(db, chat, roster) && d in RosterMap(roster)
    ensures Sound(db, chat, d)
  {
    RosterMapKeys(roster, d);
    var i :| 0 <= i < |roster| && roster[i].device == d;
    assert EntryOk(db, chat, roster[i]);
  }

  /** A new roster, checked against the tables, is sound; the others are untouched. */
  lemma RosterReplaced(s: DB, t: DB, chat: Id, roster: seq<Leaf>)
    requires Rosters(s) && RosterValid(s, chat, roster)
    requires t.devices == s.devices && t.members == s.members && t.roster == s.roster[chat := RosterMap(roster)]
    requires forall c :: c != chat ==> (c in t.groups <==> c in s.groups) && (c in t.chats <==> c in s.chats)
                                       && (c in s.chats ==> t.chats[c] == s.chats[c])
    ensures Rosters(t)
  {
    forall c ensures RosterSound(t, c) {
      assert RosterSound(s, c);
      if c == chat {
        forall d | d in t.roster[c] ensures Sound(t, c, d) {
          NewRoster(s, chat, roster, d);
        }
      } else if c in t.groups && c in t.chats && !t.chats[c].pending && c in t.roster {
        forall d | d in t.roster[c] ensures Sound(t, c, d) { assert Sound(s, c, d); }
      }
    }
  }

  lemma AdvancedKeeps(s: State, chat: Id, c: Confirmation, at: int)
    requires Inv(s) && RosterValid(s.db, chat, c.roster) && MayAdvance(s.db, chat, c) && c.transition.Some?
    ensures Inv(Advanced(s, chat, c, at))
  {
    var r := Advanced(s, chat, c, at);
    AdvancedChain(s, chat, c, at);
    AdvancedShown(s, chat, c, at);
    OrderedAppend(s.db, r.db, Row(chat, s.db.chats[chat].num + 1, EpochConfirmed, None, at));
    PackagesKept(s, r);
    RosterReplaced(s.db, r.db, chat, c.roster);
  }

  lemma {:induction false} NoneConfirmed(transitions: seq<Transition>, c: Id)
    requires forall i :: 0 <= i < |transitions| ==> transitions[i].chat != c
    ensures Confirmed(transitions, c) == 0
    decreases |transitions|
  {
    if transitions != [] {
      NoneConfirmed(transitions[..|transitions| - 1], c);
    }
  }

  lemma InitialisedChain(s: State, chat: Id, c: Confirmation, at: int)
    requires Chain(s) && MayInitialise(s.db, chat, c)
    ensures Chain(Initialised(s, chat, c, at))
  {
    var r := Initialised(s, chat, c, at);
    forall i | 0 <= i < |r.db.transitions| ensures TransitionOk(r.db, r.db.transitions[i]) { assert TransitionOk(s.db, s.db.transitions[i]); }
    forall d ensures Counted(r, d) {
      assert Counted(s, d);
      if d == chat {
        NoneConfirmed(s.db.transitions, chat);
      }
    }
  }

  lemma InitialisedKeeps(s: State, chat: Id, c: Confirmation, at: int)
    requires Inv(s) && RosterValid(s.db, chat, c.roster) && MayInitialise(s.db, chat, c) && c.epoch >= 0
    ensures Inv(Initialised(s, chat, c, at))
  {
    var r := Initialised(s, chat, c, at);
    var row := Row(chat, s.db.chats[chat].num + 1, EpochConfirmed, None, at);
    InitialisedChain(s, chat, c, at);
    forall d ensures Open(r.db.journal, d) == Unconfirmed(r.db, d) {
      assert Open(s.db.journal, d) == Unconfirmed(s.db, d);
    }
    OrderedAppend(s.db, r.db, row);
    PackagesKept(s, r);
    RosterReplaced(s.db, r.db, chat, c.roster);
  }

  lemma ConfirmKeeps(s: State, chat: Id, c: Confirmation, at: int)
    requires Inv(s) && Confirm(s, chat, c, at).Some?
    ensures Inv(Confirm(s, chat, c, at).value)
  {
    if MayInitialise(s.db, chat, c) {
      InitialisedKeeps(s, chat, c, at);
    } else {
      AdvancedKeeps(s, chat, c, at);
    }
  }

  datatype Management =
    | DoPutUser(user: Id, disabled: bool)
    | DoPutDevice(user: Id, device: Id, hasKey: bool)
    | DoRevokeDevice(user: Id, device: Id)
    | DoCreateChat(chat: Id, mode: Mode, direct: bool, members: seq<Id>)
    | DoPutMember(chat: Id, user: Id, canSend: bool, active: bool, allowHistory: bool, at: int)

  datatype Traffic =
    | DoUpload(device: Id, pkg: Id, room: bool)
    | DoClaim(id: Identity, chat: Id, target: Id, pkg: Id)
    | DoSubmit(id: Identity, chat: Id, commit: Parsed, transition: Id, items: seq<WelcomeItem>, at: int)
    | DoConfirm(chat: Id, c: Confirmation, at: int)
    | DoSend(d: Draft)

  datatype Step = Manage(m: Management) | Relayed(r: Traffic)

  function Or(s: State, r: Option<State>): State {
    if r.Some? then r.value else s
  }

  function NextManagement(s: State, step: Management): State {
    match step
    case DoPutUser(user, disabled) => PutUser(s, user, disabled)
    case DoPutDevice(user, device, hasKey) => PutDevice(s, user, device, hasKey)
    case DoRevokeDevice(user, device) => RevokeDevice(s, user, device)
    case DoCreateChat(chat, mode, direct, members) => CreateChat(s, chat, mode, direct, members)
    case DoPutMember(chat, user, canSend, active, allowHistory, at) => PutMember(s, chat, user, canSend, active, allowHistory, at)
  }

  ghost function NextTraffic(s: State, step: Traffic): State {
    match step
    case DoUpload(device, pkg, room) => Upload(s, device, pkg, room)
    case DoClaim(id, chat, target, pkg) => Claim(s, id, chat, target, pkg)
    case DoSubmit(id, chat, commit, transition, items, at) => Or(s, Submit(s, id, chat, commit, transition, items, at))
    case DoConfirm(chat, c, at) => Or(s, Confirm(s, chat, c, at))
    case DoSend(d) => Send(s, d)
  }

  ghost function Next(s: State, step: Step): State {
    match step
    case Manage(m) => NextManagement(s, m)
    case Relayed(r) => NextTraffic(s, r)
  }

  ghost function Run(s: State, steps: seq<Step>): State {
    if steps == [] then s else Next(Run(s, steps[..|steps| - 1]), steps[|steps| - 1])
  }

  lemma ManagementKeeps(s: State, step: Management)
    requires Inv(s)
    ensures Inv(NextManagement(s, step))
  {
    match step
    case DoPutUser(user, disabled) => PutUserKeeps(s, user, disabled);
    case DoPutDevice(user, device, hasKey) => PutDeviceKeeps(s, user, device, hasKey);
    case DoRevokeDevice(user, device) => RevokeDeviceKeeps(s, user, device);
    case DoCreateChat(chat, mode, direct, members) => CreateChatKeeps(s, chat, mode, direct, members);
    case DoPutMember(chat, user, canSend, active, allowHistory, at) => PutMemberKeeps(s, chat, user, canSend, active, allowHistory, at);
  }

  lemma TrafficKeeps(s: State, step: Traffic)
    requires Inv(s)
    ensures Inv(NextTraffic(s, step))
  {
    match step
    case DoUpload(device, pkg, room) => UploadKeeps(s, device, pkg, room);
    case DoClaim(id, chat, target, pkg) => ClaimKeeps(s, id, chat, target, pkg);
    case DoSubmit(id, chat, commit, transition, items, at) =>
      if Submit(s, id, chat, commit, transition, items, at).Some? {
        SubmitKeeps(s, id, chat, commit, transition, items, at);
      }
    case DoConfirm(chat, c, at) =>
      if Confirm(s, chat, c, at).Some? {
        ConfirmKeeps(s, chat, c, at);
      }
    case DoSend(d) => SendKeeps(s, d);
  }

  lemma StepKeeps(s: State, step: Step)
    requires Inv(s)
    ensures Inv(Next(s, step))
  {
    match step
    case Manage(m) => ManagementKeeps(s, m);
    case Relayed(r) => TrafficKeeps(s, r);
  }

  lemma {:induction false} RunKeeps(steps: seq<Step>)
    ensures Inv(Run(Init(), steps))
    decreases |steps|
  {
    if steps != [] {
      RunKeeps(steps[..|steps| - 1]);
      StepKeeps(Run(Init(), steps[..|steps| - 1]), steps[|steps| - 1]);
    } else {
      var s := Init();
      forall c ensures Counted(s, c) && Open(s.db.journal, c) == Unconfirmed(s.db, c) && RosterSound(s.db, c) && PackageOk(s, c) { }
    }
  }

  /** Every run: a chat has at most one unconfirmed transition; it exists only
      while the chat is pending, carries the chat's epoch, and is what the journal
      shows as an open commit; the epoch counts the confirmed ones since the
      initialisation. */
  lemma OneTransitionAtATime(steps: seq<Step>, chat: Id)
    ensures var s := Run(Init(), steps);
            && (forall t, u ::
                  (t in s.db.transitions && u in s.db.transitions && t.chat == chat == u.chat && !t.confirmed && !u.confirmed)
                  ==> t == u)
            && (forall t :: t in s.db.transitions && t.chat == chat && !t.confirmed ==>
                  chat in s.db.chats && s.db.chats[chat].pending && t.epoch == s.db.chats[chat].epoch)
            && (Open(s.db.journal, chat) <==> Unconfirmed(s.db, chat))
            && (chat in s.db.groups ==>
                  chat in s.db.chats && chat in s.initial
                  && s.db.chats[chat].epoch == s.initial[chat] + Confirmed(s.db.transitions, chat))
  {
    var s := Run(Init(), steps);
    RunKeeps(steps);
    assert Counted(s, chat) && Open(s.db.journal, chat) == Unconfirmed(s.db, chat);
    forall t | t in s.db.transitions ensures TransitionOk(s.db, t) { }
  }

  /** Every run: no message was created inside an open commit, and the epochs of a
      chat's messages ascend along the journal. */
  lemma NoMessageInsideTheBarrier(steps: seq<Step>, i: nat, j: nat)
    requires j < |Run(Init(), steps).db.journal| && Run(Init(), steps).db.journal[j].kind.MessageCreated?
    ensures var s := Run(Init(), steps);
            !Open(s.db.journal[..j], s.db.journal[j].chat)
    ensures var s := Run(Init(), steps);
            i < j && s.db.journal[i].chat == s.db.journal[j].chat && s.db.journal[i].kind.MessageCreated? ==>
              EpochAt(s.db, s.db.journal[i]) <= EpochAt(s.db, s.db.journal[j])
  {
    RunKeeps(steps);
    var s := Run(Init(), steps);
    assert NotWithin(s.db.journal, j);
  }

  /** An open commit ends only with a confirmation. */
  lemma {:induction false} ConfirmationAfter(journal: seq<Row>, chat: Id, i: nat)
    requires i < |journal| && journal[i].chat == chat && journal[i].kind.CommitPending? && !Open(journal, chat)
    ensures exists k :: i < k < |journal| && journal[k].chat == chat && journal[k].kind.EpochConfirmed?
    decreases |journal|
  {
    var n := |journal| - 1;
    if !(journal[n].chat == chat && journal[n].kind.EpochConfirmed?) {
      ConfirmationAfter(journal[..n], chat, i);
      var k :| i < k < n && journal[..n][k].chat == chat && journal[..n][k].kind.EpochConfirmed?;
      assert journal[k] == journal[..n][k];
    }
  }

  /** Every run: between a pending commit and a later message of the same chat
      lies a confirmation. */
  lemma ConfirmedBeforeMessages(steps: seq<Step>, i: nat, j: nat)
    requires var journal := Run(Init(), steps).db.journal;
             && i < j < |journal| && journal[i].chat == journal[j].chat
             && journal[i].kind.CommitPending? && journal[j].kind.MessageCreated?
    ensures var journal := Run(Init(), steps).db.journal;
            exists k :: i < k < j && journal[k].chat == journal[i].chat && journal[k].kind.EpochConfirmed?
  {
    var journal := Run(Init(), steps).db.journal;
    NoMessageInsideTheBarrier(steps, i, j);
    ConfirmationAfter(journal[..j], journal[i].chat, i);
    var k :| i < k < j && journal[..j][k].chat == journal[i].chat && journal[..j][k].kind.EpochConfirmed?;
    assert journal[k] == journal[..j][k];
  }

  /** Every run: whenever an initialised chat is not pending, each roster device is
      unrevoked and belongs to an active member. */
  lemma SettledRostersAreSound(steps: seq<Step>, chat: Id, device: Id)
    requires var s := Run(Init(), steps);
             && chat in s.db.groups && chat in s.db.chats && !s.db.chats[chat].pending
             && chat in s.db.roster && device in s.db.roster[chat]
    ensures Sound(Run(Init(), steps).db, chat, device)
  {
    RunKeeps(steps);
    assert RosterSound(Run(Init(), steps).db, chat);
  }

  /** Every run: a key package is claimed by at most one chat and used by at most
      one Welcome, which is for the chat that claimed it. */
  lemma PackagesAreOneTime(steps: seq<Step>)
    ensures var s := Run(Init(), steps);
            && (forall i, j :: 0 <= i < j < |s.claims| ==> s.claims[i].pkg != s.claims[j].pkg)
            && (forall i, j :: 0 <= i < j < |s.welcomes| ==> s.welcomes[i].pkg != s.welcomes[j].pkg)
            && (forall i :: 0 <= i < |s.welcomes| ==> Held(s, s.welcomes[i].pkg, s.welcomes[i].chat))
  {
    RunKeeps(steps);
    var s := Run(Init(), steps);
    forall i | 0 <= i < |s.welcomes| ensures Held(s, s.welcomes[i].pkg, s.welcomes[i].chat) {
      assert PackageOk(s, s.welcomes[i].pkg);
    }
  }

  /** An enabled account's unrevoked device that is in the chat as an active member. */
  ghost predicate ActiveDevice(db: DB, chat: Id, device: Id) {
    && device in db.devices && db.devices[device].revoked == false
    && db.devices[device].user in db.users && db.users[db.devices[device].user] == false
    && (chat, db.devices[device].user) in db.members && db.members[(chat, db.devices[device].user)].active
  }

  /** The roster agrees with the membership tables: up to 1024 devices with keys, each
      once, at leaves of their own, all of active members with enabled accounts, and
      at least one for each of these members. */
  ghost predicate Agrees(db: DB, chat: Id, roster: seq<Leaf>) {
    && 1 <= |roster| <= 1024
    && (forall i, j :: 0 <= i < j < |roster| ==> roster[i].device != roster[j].device && roster[i].index != roster[j].index)
    && (forall i :: 0 <= i < |roster| ==>
          roster[i].index <= 65535 && ActiveDevice(db, chat, roster[i].device) && db.devices[roster[i].device].hasSigningKey)
    && (forall user :: (chat, user) in db.members && db.members[(chat, user)].active && user in db.users && db.users[user] == false ==>
          exists i :: 0 <= i < |roster| && roster[i].device in db.devices && db.devices[roster[i].device].user == user)
  }

  lemma RosterAgrees(db: DB, chat: Id, roster: seq<Leaf>)
    ensures RosterValid(db, chat, roster) <==> Agrees(db, chat, roster)
  {
    forall i | 0 <= i < |roster| ensures Allowed(db, chat, roster[i].device) <==> ActiveDevice(db, chat, roster[i].device) { }
    forall user
      ensures user in ActiveUsers(db, chat) <==>
                (chat, user) in db.members && db.members[(chat, user)].active && user in db.users && db.users[user] == false
    {
    }
    if RosterValid(db, chat, roster) {
      forall i | 0 <= i < |roster| ensures EntryOk(db, chat, roster[i]) { }
      forall user | user in ActiveUsers(db, chat)
        ensures exists i :: 0 <= i < |roster| && roster[i].device in db.devices && db.devices[roster[i].device].user == user
      {
        assert Covers(db, roster, user);
      }
    }
  }

  /** The saved roster is the list given: its devices, each at its leaf. */
  ghost predicate Lists(rows: map<Id, nat>, roster: seq<Leaf>) {
    && (forall i :: 0 <= i < |roster| ==> roster[i].device in rows && rows[roster[i].device] == roster[i].index)
    && (forall d :: d in rows ==> exists i :: 0 <= i < |roster| && roster[i].device == d)
  }

  lemma {:induction false} RosterMapLists(roster: seq<Leaf>)
    requires forall i, j :: 0 <= i < j < |roster| ==> roster[i].device != roster[j].device
    ensures Lists(RosterMap(roster), roster)
    decreases |roster|
  {
    if roster != [] {
      RosterMapLists(roster[..|roster| - 1]);
    }
    forall d | d in RosterMap(roster) ensures exists i :: 0 <= i < |roster| && roster[i].device == d {
      RosterMapKeys(roster, d);
    }
  }

  /** A commit's Welcomes: each for a different active device of the chat, under a
      package of that device that the chat has claimed and nobody has used. */
  ghost predicate Deliverable(db: DB, chat: Id, items: seq<WelcomeItem>) {
    && (forall i :: 0 <= i < |items| ==>
          && items[i].wireOk && ActiveDevice(db, chat, items[i].device)
          && items[i].pkg in db.keyPackages && db.keyPackages[items[i].pkg] == KeyPackage(items[i].device, Some(chat), false))
    && (forall i, j :: 0 <= i < j < |items| ==> items[i].device != items[j].device)
  }

  /** The packages afterwards: used where a Welcome names them. */
  ghost predicate Delivered(s: State, t: State, chat: Id, transition: Id, items: seq<WelcomeItem>) {
    && t.welcomes == s.welcomes + seq(|items|, i requires 0 <= i < |items| => Welcomed(items[i].pkg, chat, transition))
    && t.db.keyPackages.Keys == s.db.keyPackages.Keys
    && forall p :: p in s.db.keyPackages ==>
         t.db.keyPackages[p] == if (exists i :: 0 <= i < |items| && items[i].pkg == p) then s.db.keyPackages[p].(used := true) else s.db.keyPackages[p]
  }

  lemma {:induction false} UseEachExactly(s: State, chat: Id, transition: Id, items: seq<WelcomeItem>)
    ensures var r := UseEach(s, chat, transition, items);
            && (r.Some? <==> Deliverable(s.db, chat, items))
            && (r.Some? ==>
                  && Delivered(s, r.value, chat, transition, items)
                  && r.value == s.(db := s.db.(keyPackages := r.value.db.keyPackages), welcomes := r.value.welcomes))
    decreases |items|
  {
    if items != [] {
      var n := |items| - 1;
      UseEachExactly(s, chat, transition, items[..n]);
      var rest := UseEach(s, chat, transition, items[..n]);
      assert Deliverable(s.db, chat, items) ==> Deliverable(s.db, chat, items[..n]);
      if rest.Some? {
        UseLast(s, rest.value, chat, transition, items);
        if Deliverable(s.db, chat, items) {
          LastDelivered(s, rest.value, UseEach(s, chat, transition, items).value, chat, transition, items);
        }
      }
    }
  }

  /** The last Welcome goes through exactly when all of them can be delivered. */
  lemma UseLast(s: State, rest: State, chat: Id, transition: Id, items: seq<WelcomeItem>)
    requires items != [] && Deliverable(s.db, chat, items[..|items| - 1]) && Delivered(s, rest, chat, transition, items[..|items| - 1])
    requires rest == s.(db := s.db.(keyPackages := rest.db.keyPackages), welcomes := rest.welcomes)
    ensures var n := |items| - 1;
            Usable(rest.db, chat, items[n]) && (forall i :: 0 <= i < n ==> items[i].device != items[n].device)
            <==> Deliverable(s.db, chat, items)
  {
    var n := |items| - 1;
    var front, last := items[..n], items[n];
    forall i | 0 <= i < n ensures front[i] == items[i] && s.db.keyPackages[items[i].pkg].device == items[i].device { }
    assert Allowed(rest.db, chat, last.device) <==> ActiveDevice(s.db, chat, last.device);
    if last.pkg in s.db.keyPackages && s.db.keyPackages[last.pkg].device == last.device
       && forall i :: 0 <= i < n ==> items[i].device != last.device {
      assert forall i :: 0 <= i < n ==> front[i].pkg != last.pkg;
      assert rest.db.keyPackages[last.pkg] == s.db.keyPackages[last.pkg];
    }
    if Usable(rest.db, chat, last) {
      assert s.db.keyPackages[last.pkg] == KeyPackage(last.device, Some(chat), false);
    }
  }

  lemma LastDelivered(s: State, rest: State, t: State, chat: Id, transition: Id, items: seq<WelcomeItem>)
    requires items != [] && items[|items| - 1].pkg in rest.db.keyPackages
    requires Delivered(s, rest, chat, transition, items[..|items| - 1])
    requires var last := items[|items| - 1];
             t.db.keyPackages == rest.db.keyPackages[last.pkg := rest.db.keyPackages[last.pkg].(used := true)]
             && t.welcomes == rest.welcomes + [Welcomed(last.pkg, chat, transition)]
    ensures Delivered(s, t, chat, transition, items)
  {
    var n := |items| - 1;
    var front := items[..n];
    assert t.welcomes == s.welcomes + seq(|items|, i requires 0 <= i < |items| => Welcomed(items[i].pkg, chat, transition));
    forall p | p in s.db.keyPackages
      ensures (exists i :: 0 <= i < |items| && items[i].pkg == p) <==> (exists i :: 0 <= i < n && front[i].pkg == p) || items[n].pkg == p
    {
      if exists i :: 0 <= i < n && front[i].pkg == p {
        var i :| 0 <= i < n && front[i].pkg == p;
        assert items[i].pkg == p;
      }
      if exists i :: 0 <= i < |items| && items[i].pkg == p {
        var i :| 0 <= i < |items| && items[i].pkg == p;
        assert i < n ==> front[i].pkg == p;
      }
    }
  }

  /** What a commit needs, from the tables: a live sender who may send, at its own leaf
      of the roster and with a signing key; the chat's current group and epoch; a
      signature; a new id; no open transition; and Welcomes that can be delivered. */
  ghost predicate Committable(db: DB, id: Identity, chat: Id, commit: Parsed, transition: Id, items: seq<WelcomeItem>) {
    && ActiveDevice(db, chat, id.device) && db.devices[id.device].user == id.user && db.devices[id.device].hasSigningKey
    && db.members[(chat, id.user)].canSend
    && chat in db.chats && chat in db.groups && chat in db.roster && id.device in db.roster[chat]
    && commit.leaf == db.roster[chat][id.device] && commit.group == db.groups[chat] && commit.epoch == db.chats[chat].epoch
    && commit.signed && commit.hooksAgree
    && (forall t :: t in db.transitions ==> t.id != transition && (t.chat == chat ==> t.confirmed))
    && |items| <= 1024 && Deliverable(db, chat, items)
  }

  /** What it leaves: one open transition under its own epoch, the barrier raised, one
      pending event under the chat's next number, and its Welcomes. */
  ghost predicate CommittedTo(s: State, t: State, id: Identity, chat: Id, commit: Parsed, transition: Id, items: seq<WelcomeItem>, at: int) {
    && chat in s.db.chats
    && var num := s.db.chats[chat].num + 1;
    && t.db.transitions == s.db.transitions + [Transition(transition, chat, id.device, commit.epoch, false)]
    && t.db.chats == s.db.chats[chat := s.db.chats[chat].(num := num, pending := true)]
    && t.db.journal == s.db.journal + [Row(chat, num, CommitPending, None, at)]
    && Delivered(s, t, chat, transition, items)
    && t == s.(db := s.db.(transitions := t.db.transitions, chats := t.db.chats, journal := t.db.journal, keyPackages := t.db.keyPackages),
               welcomes := t.welcomes)
  }

  lemma SubmitExactly(s: State, id: Identity, chat: Id, commit: Parsed, transition: Id, items: seq<WelcomeItem>, at: int)
    ensures var r := Submit(s, id, chat, commit, transition, items, at);
            && (r.Some? <==> Committable(s.db, id, chat, commit, transition, items))
            && (r.Some? ==> CommittedTo(s, r.value, id, chat, commit, transition, items, at))
  {
    var db1 := s.db.(transitions := s.db.transitions + [Transition(transition, chat, id.device, if chat in s.db.chats then s.db.chats[chat].epoch else 0, false)]);
    UseEachExactly(s.(db := db1), chat, transition, items);
    assert Deliverable(db1, chat, items) <==> Deliverable(s.db, chat, items) by {
      forall i | 0 <= i < |items| ensures ActiveDevice(db1, chat, items[i].device) <==> ActiveDevice(s.db, chat, items[i].device) { }
    }
  }

  /** What a confirmation needs, from the tables: an agreeing roster with the signer in
      it, the signer's unrevoked key and its proof, and either a chat without a group
      under a new group id, or the chat's pending epoch and its open transition, sent
      and signed by the same device of the old roster, and the very next epoch. */
  ghost predicate Confirmable(db: DB, chat: Id, c: Confirmation) {
    && Agrees(db, chat, c.roster)
    && c.signer in db.devices && db.devices[c.signer].revoked == false && db.devices[c.signer].hasSigningKey
    && (exists i :: 0 <= i < |c.roster| && c.roster[i].device == c.signer)
    && c.proofOk && 0 <= c.epoch <= 0x7fff_ffff_ffff_ffff && chat in db.chats
    && if c.previous == -1 then
         && c.transition.None? && db.chats[chat].mode == E2ee
         && chat !in db.groups && (forall other :: other in db.groups ==> db.groups[other] != c.group)
       else
         && c.previous >= 0 && c.epoch == c.previous + 1 && db.chats[chat].epoch == c.previous && db.chats[chat].pending
         && chat in db.groups && db.groups[chat] == c.group && chat in db.roster && c.signer in db.roster[chat]
         && c.hooksAgree
         && exists t :: t in db.transitions && c.transition == Some(t.id) && t == Transition(t.id, chat, c.signer, c.previous, false)
  }

  /** What it leaves: the new epoch, settled, with the given roster, the transition
      confirmed and one event under the chat's next number. */
  ghost predicate ConfirmedTo(s: State, t: State, chat: Id, c: Confirmation, at: int) {
    && chat in s.db.chats
    && var num := s.db.chats[chat].num + 1;
    && t.db.chats == s.db.chats[chat := s.db.chats[chat].(num := num, epoch := c.epoch, pending := false)]
    && t.db.journal == s.db.journal + [Row(chat, num, EpochConfirmed, None, at)]
    && t.db.groups == s.db.groups[chat := c.group]
    && chat in t.db.roster && Lists(t.db.roster[chat], c.roster) && t.db.roster == s.db.roster[chat := t.db.roster[chat]]
    && |t.db.transitions| == |s.db.transitions|
    && (forall i :: 0 <= i < |s.db.transitions| ==>
          t.db.transitions[i] == if c.transition == Some(s.db.transitions[i].id) then s.db.transitions[i].(confirmed := true)
                                 else s.db.transitions[i])
    && t == s.(db := s.db.(chats := t.db.chats, journal := t.db.journal, groups := t.db.groups, roster := t.db.roster,
                           transitions := t.db.transitions),
               initial := if c.previous == -1 then s.initial[chat := c.epoch] else s.initial)
  }

  lemma ConfirmExactly(s: State, chat: Id, c: Confirmation, at: int)
    ensures var r := Confirm(s, chat, c, at);
            && (r.Some? <==> Confirmable(s.db, chat, c))
            && (r.Some? ==> ConfirmedTo(s, r.value, chat, c, at))
  {
    RosterAgrees(s.db, chat, c.roster);
    if 0 <= c.epoch <= MAX_INT64 {
      MayAdvanceExactly(s.db, chat, c);
    }
    if Confirm(s, chat, c, at).Some? {
      ConfirmWrites(s, chat, c, at);
    }
  }

  lemma ConfirmWrites(s: State, chat: Id, c: Confirmation, at: int)
    requires Confirm(s, chat, c, at).Some?
    ensures ConfirmedTo(s, Confirm(s, chat, c, at).value, chat, c, at)
  {
    RosterMapLists(c.roster);
    if !MayInitialise(s.db, chat, c) {
      assert s.db.groups == s.db.groups[chat := c.group];
    }
  }

  lemma MayAdvanceExactly(db: DB, chat: Id, c: Confirmation)
    requires 0 <= c.epoch <= 0x7fff_ffff_ffff_ffff
    ensures MayAdvance(db, chat, c) <==>
              && chat in db.chats
              && c.previous >= 0 && c.epoch == c.previous + 1 && db.chats[chat].epoch == c.previous && db.chats[chat].pending
              && chat in db.groups && db.groups[chat] == c.group && chat in db.roster && c.signer in db.roster[chat]
              && c.hooksAgree
              && exists t :: t in db.transitions && c.transition == Some(t.id) && t == Transition(t.id, chat, c.signer, c.previous, false)
  {
    if exists t :: t in db.transitions && Awaits(db, chat, c, t) {
      var t :| t in db.transitions && Awaits(db, chat, c, t);
      assert t == Transition(t.id, chat, c.signer, c.previous, false);
    }
    if exists t :: t in db.transitions && c.transition == Some(t.id) && t == Transition(t.id, chat, c.signer, c.previous, false) {
      var t :| t in db.transitions && c.transition == Some(t.id) && t == Transition(t.id, chat, c.signer, c.previous, false);
      assert Awaits(db, chat, c, t);
    }
  }

  /** A claim gives one unclaimed package of an active device of an encrypted chat to
      that chat, for a member who may send; anything else changes nothing. */
  lemma ClaimExactly(s: State, id: Identity, chat: Id, target: Id, pkg: Id)
    ensures var t := Claim(s, id, chat, target, pkg);
            var granted :=
              && (chat, id.user) in s.db.members && s.db.members[(chat, id.user)].active && s.db.members[(chat, id.user)].canSend
              && chat in s.db.chats && s.db.chats[chat].mode == E2ee && ActiveDevice(s.db, chat, target)
              && pkg in s.db.keyPackages && s.db.keyPackages[pkg].device == target && s.db.keyPackages[pkg].claimed == None;
            && (!granted ==> t == s)
            && (granted ==>
                  t == s.(db := s.db.(keyPackages := s.db.keyPackages[pkg := KeyPackage(target, Some(chat), s.db.keyPackages[pkg].used)]),
                          claims := s.claims + [Claimed(pkg, chat)]))
  {
  }

  lemma PlacedExactly(db: DB, chat: Id, user: Id, canSend: bool, active: bool, allowHistory: bool)
    requires chat in db.chats
    ensures var known := (chat, user) in db.members;
            var stays := known && db.members[(chat, user)].active && active;
            var joined := if allowHistory then 1 else if stays then db.members[(chat, user)].joinedSeq else db.chats[chat].num + 1;
            var pending := db.chats[chat].pending
                           || (db.chats[chat].mode == E2ee && !(known && db.members[(chat, user)].active == active));
            Placed(db, chat, user, canSend, active, allowHistory)
            == db.(members := db.members[(chat, user) := Member(canSend, joined, active)],
                   chats := db.chats[chat := db.chats[chat].(pending := pending)])
  {
  }

  /** A membership change: the row as asked for, joined at the chat's next number
      unless history is allowed or the member simply stays; the barrier rises exactly
      when an encrypted chat's member comes, leaves or comes back. */
  lemma PutMemberExactly(s: State, chat: Id, user: Id, canSend: bool, active: bool, allowHistory: bool, at: int)
    ensures var t := PutMember(s, chat, user, canSend, active, allowHistory, at);
            var known := (chat, user) in s.db.members;
            var stays := known && s.db.members[(chat, user)].active && active;
            && (chat !in s.db.chats || user !in s.db.users || (s.db.chats[chat].direct && !known) ==> t == s)
            && (chat in s.db.chats && user in s.db.users && (s.db.chats[chat].direct ==> known) ==>
                  var next := s.db.chats[chat].num + 1;
                  var joined := if allowHistory then 1 else if stays then s.db.members[(chat, user)].joinedSeq else next;
                  var pending := s.db.chats[chat].pending
                                 || (s.db.chats[chat].mode == E2ee && !(known && s.db.members[(chat, user)].active == active));
                  t == s.(db := s.db.(members := s.db.members[(chat, user) := Member(canSend, joined, active)],
                                      chats := s.db.chats[chat := s.db.chats[chat].(num := next, pending := pending)],
                                      journal := s.db.journal + [Row(chat, next, MembershipChanged, None, at)])))
  {
    if chat in s.db.chats {
      PlacedExactly(s.db, chat, user, canSend, active, allowHistory);
      var placed := Placed(s.db, chat, user, canSend, active, allowHistory);
      AppendedTo(s.db, placed.members, chat, placed.chats[chat], at);
    }
  }

  lemma AppendedTo(db: DB, members: map<(Id, Id), Member>, chat: Id, c: Chat, at: int)
    ensures Append(db.(members := members, chats := db.chats[chat := c]), chat, MembershipChanged, None, at)
            == db.(members := members, chats := db.chats[chat := c.(num := c.num + 1)],
                   journal := db.journal + [Row(chat, c.num + 1, MembershipChanged, None, at)])
  {
    assert db.chats[chat := c][chat := c.(num := c.num + 1)] == db.chats[chat := c.(num := c.num + 1)];
  }

  /** A member who joins or rejoins without history cannot read what was stored before. */
  lemma JoinHidesHistory(s: State, chat: Id, id: Identity, canSend: bool, at: int, m: Id)
    requires chat in s.db.chats && !((chat, id.user) in s.db.members && s.db.members[(chat, id.user)].active)
    requires m in s.db.messages && s.db.messages[m].chat == chat && s.db.messages[m].num <= s.db.chats[chat].num
    ensures !Accessible(PutMember(s, chat, id.user, canSend, true, false, at).db, id, m)
  {
    PutMemberExactly(s, chat, id.user, canSend, true, false, at);
  }

  /** A revocation raises the barrier exactly in the encrypted chats its user is active in. */
  lemma RevokeExactly(s: State, user: Id, device: Id, c: Id)
    requires device in s.db.devices && s.db.devices[device].user == user && c in s.db.chats
    ensures var t := RevokeDevice(s, user, device);
            && t.db.devices == s.db.devices[device := s.db.devices[device].(revoked := true)]
            && t.db.chats.Keys == s.db.chats.Keys
            && t.db.chats[c] == s.db.chats[c].(pending :=
                 s.db.chats[c].pending || (s.db.chats[c].mode == E2ee && (c, user) in s.db.members && s.db.members[(c, user)].active))
            && t == s.(db := s.db.(devices := t.db.devices, chats := t.db.chats))
  {
  }

  /** The transitions of a chat have ascending epochs, and the confirmed ones are over. */
  ghost predicate Epochs(db: DB) {
    && (forall i, j :: 0 <= i < j < |db.transitions| && db.transitions[i].chat == db.transitions[j].chat ==>
          db.transitions[i].epoch < db.transitions[j].epoch)
    && (forall i :: 0 <= i < |db.transitions| ==>
          db.transitions[i].chat in db.chats
          && (db.transitions[i].confirmed ==> db.transitions[i].epoch < db.chats[db.transitions[i].chat].epoch))
  }

  ghost predicate EpochsOnlyRise(s: DB, t: DB) {
    forall c :: c in s.chats ==> c in t.chats && s.chats[c].epoch <= t.chats[c].epoch
  }

  lemma EpochsStay(s: DB, t: DB)
    requires Epochs(s) && EpochsOnlyRise(s, t) && t.transitions == s.transitions
    ensures Epochs(t)
  {
  }

  lemma SubmitEpochs(s: State, id: Identity, chat: Id, commit: Parsed, transition: Id, items: seq<WelcomeItem>, at: int)
    requires Inv(s) && Epochs(s.db) && Submit(s, id, chat, commit, transition, items, at).Some?
    ensures Epochs(Submit(s, id, chat, commit, transition, items, at).value.db)
  {
    SubmitExactly(s, id, chat, commit, transition, items, at);
    forall i | 0 <= i < |s.db.transitions| ensures s.db.transitions[i] in s.db.transitions { }
  }

  lemma ConfirmEpochs(s: State, chat: Id, c: Confirmation, at: int)
    requires Inv(s) && Epochs(s.db) && Confirm(s, chat, c, at).Some?
    ensures Epochs(Confirm(s, chat, c, at).value.db)
  {
    ConfirmExactly(s, chat, c, at);
    var t := Confirm(s, chat, c, at).value;
    forall i | 0 <= i < |s.db.transitions| && t.db.transitions[i].confirmed
      ensures t.db.transitions[i].epoch < t.db.chats[t.db.transitions[i].chat].epoch
    {
      assert TransitionOk(s.db, s.db.transitions[i]);
      assert s.db.transitions[i].chat in s.db.groups;
    }
  }

  ghost predicate TransitionsStay(s: DB, t: DB) {
    t.transitions == s.transitions && EpochsOnlyRise(s, t)
  }

  lemma ManagementTransitions(s: State, m: Management)
    ensures TransitionsStay(s.db, NextManagement(s, m).db)
  {
    match m
    case DoPutMember(chat, user, canSend, active, allowHistory, at) =>
      PutMemberExactly(s, chat, user, canSend, active, allowHistory, at);
    case _ =>
  }

  lemma TrafficTransitions(s: State, r: Traffic)
    requires r.DoUpload? || r.DoClaim? || r.DoSend?
    ensures TransitionsStay(s.db, NextTraffic(s, r).db)
  {
  }

  lemma StepEpochs(s: State, step: Step)
    requires Inv(s) && Epochs(s.db)
    ensures Epochs(Next(s, step).db)
  {
    match step
    case Manage(m) =>
      ManagementTransitions(s, m);
      EpochsStay(s.db, NextManagement(s, m).db);
    case Relayed(r) =>
      match r {
        case DoSubmit(id, chat, commit, transition, items, at) =>
          if Submit(s, id, chat, commit, transition, items, at).Some? {
            SubmitEpochs(s, id, chat, commit, transition, items, at);
          }
        case DoConfirm(chat, c, at) =>
          if Confirm(s, chat, c, at).Some? {
            ConfirmEpochs(s, chat, c, at);
          }
        case _ =>
          TrafficTransitions(s, r);
          EpochsStay(s.db, NextTraffic(s, r).db);
      }
  }

  lemma {:induction false} RunEpochs(steps: seq<Step>)
    ensures Epochs(Run(Init(), steps).db)
    decreases |steps|
  {
    if steps != [] {
      RunEpochs(steps[..|steps| - 1]);
      RunKeeps(steps[..|steps| - 1]);
      StepEpochs(Run(Init(), steps[..|steps| - 1]), steps[|steps| - 1]);
    }
  }

  /** Step `k` was an accepted commit, whose transition is `t`: built for the epoch its
      chat was in then, and sent by a device of the roster of then. */
  ghost predicate AcceptedAt(steps: seq<Step>, k: nat, t: Transition) {
    && k < |steps| && steps[k].Relayed? && steps[k].r.DoSubmit?
    && var r := steps[k].r;
    var p := Run(Init(), steps[..k]);
    && Committable(p.db, r.id, r.chat, r.commit, r.transition, r.items)
    && t.id == r.transition && t.chat == r.chat && t.sender == r.id.device
    && t.epoch == r.commit.epoch && t.epoch == p.db.chats[r.chat].epoch
  }

  /** Only an accepted commit adds a transition; of those there are, only the
      confirmation changes. */
  ghost predicate Recorded(s: State, t: State, step: Step) {
    && |s.db.transitions| <= |t.db.transitions| <= |s.db.transitions| + 1
    && (forall i :: 0 <= i < |s.db.transitions| ==>
          t.db.transitions[i].(confirmed := false) == s.db.transitions[i].(confirmed := false))
    && (|t.db.transitions| > |s.db.transitions| ==>
          && step.Relayed? && step.r.DoSubmit?
          && Committable(s.db, step.r.id, step.r.chat, step.r.commit, step.r.transition, step.r.items)
          && t.db.transitions[|s.db.transitions|]
             == Transition(step.r.transition, step.r.chat, step.r.id.device, step.r.commit.epoch, false))
  }

  lemma StepTransitions(s: State, step: Step)
    ensures Recorded(s, Next(s, step), step)
  {
    match step
    case Manage(m) => ManagementTransitions(s, m);
    case Relayed(r) =>
      match r {
        case DoSubmit(id, chat, commit, transition, items, at) => SubmitExactly(s, id, chat, commit, transition, items, at);
        case DoConfirm(chat, c, at) => ConfirmExactly(s, chat, c, at);
        case _ => TrafficTransitions(s, r);
      }
  }

  /** Every run: each transition comes from an accepted commit for the chat's own epoch
      at that time. */
  lemma {:induction false} EveryTransitionWasCommitted(steps: seq<Step>, i: nat)
    requires i < |Run(Init(), steps).db.transitions|
    ensures exists k: nat :: AcceptedAt(steps, k, Run(Init(), steps).db.transitions[i])
    decreases |steps|
  {
    if steps != [] {
      var n := |steps| - 1;
      var s := Run(Init(), steps[..n]);
      StepTransitions(s, steps[n]);
      if i < |s.db.transitions| {
        EveryTransitionWasCommitted(steps[..n], i);
        var k: nat :| AcceptedAt(steps[..n], k, s.db.transitions[i]);
        assert steps[..n][..k] == steps[..k];
        assert AcceptedAt(steps, k, Run(Init(), steps).db.transitions[i]);
      } else {
        assert AcceptedAt(steps, n, Run(Init(), steps).db.transitions[i]);
      }
    }
  }

  /** Every run: one winner for each epoch of a chat. Of the commits accepted for it,
      no two are for the same epoch, and they came in the order of their epochs. */
  lemma OneWinnerPerEpoch(steps: seq<Step>, i: nat, j: nat)
    requires var transitions := Run(Init(), steps).db.transitions; i < j < |transitions| && transitions[i].chat == transitions[j].chat
    ensures var transitions := Run(Init(), steps).db.transitions; transitions[i].epoch < transitions[j].epoch
  {
    RunEpochs(steps);
  }

  /** The relay's handlers, each in one transaction that an error drops. */
  class MlsRelay {
    var s: State

    constructor ()
      ensures s == Init()
    {
      s := Init();
    }

    method SubmitCommit(id: Identity, chat: Id, commit: Parsed, transition: Id, items: seq<WelcomeItem>, at: int) returns (ok: bool)
      modifies this
      ensures Submit(old(s), id, chat, commit, transition, items, at) == if ok then Some(s) else None
      ensures !ok ==> s == old(s)
      ensures ok <==> Committable(old(s).db, id, chat, commit, transition, items)
      ensures ok ==> CommittedTo(old(s), s, id, chat, commit, transition, items, at)
    {
      SubmitExactly(s, id, chat, commit, transition, items, at);
      if !MayCommit(s.db, id, chat, commit) {
        return false;
      }
      if (exists t :: t in s.db.transitions && t.id == transition) || Unconfirmed(s.db, chat) || |items| > MAX_ROSTER {
        return false;
      }
      var start := s.(db := s.db.(transitions := s.db.transitions + [Transition(transition, chat, id.device, s.db.chats[chat].epoch, false)]));
      var used := UseWelcomes(start, chat, transition, items);
      if used.None? || chat !in used.value.db.chats {
        return false;
      }
      var db := used.value.db;
      db := db.(chats := db.chats[chat := db.chats[chat].(pending := true)]);
      s := used.value.(db := Append(db, chat, CommitPending, None, at));
      ok := true;
    }

    /** The loop over a commit's Welcomes. */
    method UseWelcomes(start: State, chat: Id, transition: Id, items: seq<WelcomeItem>) returns (r: Option<State>)
      ensures r == UseEach(start, chat, transition, items)
      ensures r.Some? ==> |r.value.welcomes| == |start.welcomes| + |items| && r.value.db.transitions == start.db.transitions
    {
      var tx := start;
      var targets: set<Id> := {};
      var i := 0;
      while i < |items|
        invariant 0 <= i <= |items| && UseEach(start, chat, transition, items[..i]) == Some(tx)
        invariant |tx.welcomes| == |start.welcomes| + i && tx.db.transitions == start.db.transitions
        invariant forall d :: d in targets <==> exists j :: 0 <= j < i && items[j].device == d
      {
        assert items[..i + 1][..i] == items[..i];
        if items[i].device in targets || !Usable(tx.db, chat, items[i]) {
          UseFailed(start, chat, transition, items, i + 1);
          return None;
        }
        targets := targets + {items[i].device};
        tx := tx.(db := tx.db.(keyPackages := tx.db.keyPackages[items[i].pkg := tx.db.keyPackages[items[i].pkg].(used := true)]),
                  welcomes := tx.welcomes + [Welcomed(items[i].pkg, chat, transition)]);
        i := i + 1;
      }
      assert items[..i] == items;
      r := Some(tx);
    }

    method ConfirmEpoch(chat: Id, c: Confirmation, accounts: seq<Id>, at: int) returns (ok: bool)
      requires forall u :: u in accounts <==> u in ActiveUsers(s.db, chat)
      modifies this
      ensures Confirm(old(s), chat, c, at) == if ok then Some(s) else None
      ensures !ok ==> s == old(s)
      ensures ok <==> Confirmable(old(s).db, chat, c)
      ensures ok ==> ConfirmedTo(old(s), s, chat, c, at)
    {
      ConfirmExactly(s, chat, c, at);
      var valid := ValidateRoster(s.db, chat, c.roster, accounts);
      if !valid {
        return false;
      }
      if c.signer !in s.db.devices || s.db.devices[c.signer].revoked || !s.db.devices[c.signer].hasSigningKey {
        return false;
      }
      var inRoster := false;
      var i := 0;
      while i < |c.roster|
        invariant 0 <= i <= |c.roster| && (inRoster <==> exists j :: 0 <= j < i && c.roster[j].device == c.signer)
      {
        if c.roster[i].device == c.signer {
          inRoster := true;
        }
        i := i + 1;
      }
      if !inRoster || !c.proofOk || !(0 <= c.epoch <= MAX_INT64) {
        return false;
      }
      if MayInitialise(s.db, chat, c) {
        var db := SaveRoster(s.db, chat, c.roster);
        db := db.(groups := db.groups[chat := c.group], chats := db.chats[chat := db.chats[chat].(epoch := c.epoch, pending := false)]);
        s := s.(db := Append(db, chat, EpochConfirmed, None, at), initial := s.initial[chat := c.epoch]);
        return true;
      }
      if c.previous == -1 || c.transition.None? || !MayAdvance(s.db, chat, c) {
        return false;
      }
      var db := SaveRoster(s.db, chat, c.roster);
      db := db.(transitions := ConfirmAll(db.transitions, c.transition.value));
      db := db.(chats := db.chats[chat := db.chats[chat].(epoch := c.epoch, pending := false)]);
      s := s.(db := Append(db, chat, EpochConfirmed, None, at));
      ok := true;
    }
  }

  lemma {:induction false} UseFailed(s: State, chat: Id, transition: Id, items: seq<WelcomeItem>, i: nat)
    requires i <= |items| && UseEach(s, chat, transition, items[..i]).None?
    ensures UseEach(s, chat, transition, items).None?
    decreases |items| - i
  {
    if i == |items| {
      assert items[..i] == items;
    } else {
      assert items[..i + 1][..i] == items[..i];
      UseFailed(s, chat, transition, items, i + 1);
    }
  }
}