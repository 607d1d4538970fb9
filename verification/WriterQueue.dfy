/** Admission, draining and shutdown of the message writer as a step machine:
    producers interleave with the single worker between any two of their reads
    and writes. */
module WriterQueue {
  import opened Basics
  import GroupCommit

  datatype Job = Job(id: nat, bytes: nat, transactional: bool)

  /** One channel element: a job, or a group admitted as a unit. */
  datatype Entry = Single(job: Job) | Group(jobs: seq<Job>)

  function Members(e: Entry): seq<Job> {
    match e
    case Single(job) => [job]
    case Group(jobs) => jobs
  }

  function Extra(e: Entry): int {
    |Members(e)| - 1
  }

  function Bytes(jobs: seq<Job>): nat {
    if jobs == [] then 0 else Bytes(jobs[..|jobs| - 1]) + jobs[|jobs| - 1].bytes
  }

  predicate Shared(jobs: seq<Job>) {
    0 < |jobs| <= GroupCommit.MAX_WRITE_BATCH && (|jobs| > 1 ==> Bytes(jobs) <= GroupCommit.MAX_BATCH_BYTES)
  }

  /** A group is validated before it asks for admission. */
  predicate Admissible(e: Entry) {
    e.Group? ==> |e.jobs| > 1 && Shared(e.jobs) && forall j :: 0 <= j < |e.jobs| ==> e.jobs[j].transactional
  }

  function AllMembers(entries: seq<Entry>): seq<Job> {
    if entries == [] then [] else Members(entries[0]) + AllMembers(entries[1..])
  }

  /** Who holds the admission mutex, and what that producer has read so far. */
  datatype Lock = Free | Entered(entry: Entry, len: Option<nat>, extra: Option<int>) | Sending(entry: Entry)

  datatype Worker = Waiting | Received(entry: Entry) | Draining(batch: seq<Job>) | Executing(batch: seq<Job>) | Done

  datatype State = State(
    capacity: nat, channel: seq<Entry>, groupExtra: int, closed: bool, lock: Lock,
    worker: Worker, pending: Option<Entry>, stopping: bool,
    admitted: seq<Job>, answered: seq<Job>, batches: seq<seq<Job>>)

  function Init(capacity: nat): State {
    State(capacity, [], 0, false, Free, Waiting, None, false, [], [], [])
  }

  datatype Step =
    | DoEnter(entry: Entry) | DoReadLen | DoReadExtra | DoDecide | DoSend | DoClose
    | DoTakePending | DoReceive | DoProcess | DoDrainOne | DoDrainStop | DoFinish | DoSeeStop | DoExit

  // One atomic step each; a step whose guard is false leaves the state alone.

  function Enter(s: State, e: Entry): State {
    if s.lock.Free? && Admissible(e) && !s.closed then s.(lock := Entered(e, None, None)) else s
  }

  function ReadLen(s: State): State {
    if s.lock.Entered? then s.(lock := s.lock.(len := Some(|s.channel|))) else s
  }

  function ReadExtra(s: State): State {
    if s.lock.Entered? then s.(lock := s.lock.(extra := Some(s.groupExtra))) else s
  }

  function Decide(s: State): State {
    if s.lock.Entered? && s.lock.len.Some? && s.lock.extra.Some? then
      var e := s.lock.entry;
      if s.lock.len.value + s.lock.extra.value + |Members(e)| > s.capacity then s.(lock := Free)
      else s.(groupExtra := s.groupExtra + Extra(e), lock := Sending(e))
    else s
  }

  function Send(s: State): State {
    if s.lock.Sending? then
      var e := s.lock.entry;
      if |s.channel| < s.capacity then
        s.(channel := s.channel + [e], admitted := s.admitted + Members(e), lock := Free)
      else s.(groupExtra := s.groupExtra - Extra(e), lock := Free)
    else s
  }

  function Close(s: State): State {
    if s.lock.Free? then s.(closed := true) else s
  }

  function TakePending(s: State): State {
    if s.worker.Waiting? && s.pending.Some? then s.(worker := Received(s.pending.value), pending := None) else s
  }

  function Receive(s: State): State {
    if s.worker.Waiting? && s.pending.None? && s.channel != [] then
      s.(worker := Received(s.channel[0]), channel := s.channel[1..])
    else s
  }

  function Process(s: State): State {
    if s.worker.Received? then
      match s.worker.entry
      case Group(jobs) => s.(groupExtra := s.groupExtra - (|jobs| - 1), worker := Executing(jobs))
      case Single(job) => s.(worker := if job.transactional then Draining([job]) else Executing([job]))
    else s
  }

  function DrainOne(s: State): State {
    if s.worker.Draining? && MayDrain(s.worker.batch) && s.channel != [] then
      var e, rest := s.channel[0], s.channel[1..];
      if e.Group? || !e.job.transactional || e.job.bytes > GroupCommit.MAX_BATCH_BYTES - Bytes(s.worker.batch) then
        s.(channel := rest, pending := Some(e), worker := Executing(s.worker.batch))
      else s.(channel := rest, worker := Draining(s.worker.batch + [e.job]))
    else s
  }

  function DrainStop(s: State): State {
    if s.worker.Draining? && (!MayDrain(s.worker.batch) || s.channel == []) then
      s.(worker := Executing(s.worker.batch))
    else s
  }

  function Finish(s: State): State {
    if s.worker.Executing? then
      s.(worker := Waiting, answered := s.answered + s.worker.batch, batches := s.batches + [s.worker.batch])
    else s
  }

  function SeeStop(s: State): State {
    if s.worker.Waiting? && s.pending.None? && s.closed then s.(stopping := true) else s
  }

  function Exit(s: State): State {
    if s.worker.Waiting? && s.pending.None? && s.stopping && s.channel == [] then s.(worker := Done) else s
  }

  function Next(s: State, step: Step): State {
    match step
    case DoEnter(e) => Enter(s, e)
    case DoReadLen => ReadLen(s)
    case DoReadExtra => ReadExtra(s)
    case DoDecide => Decide(s)
    case DoSend => Send(s)
    case DoClose => Close(s)
    case DoTakePending => TakePending(s)
    case DoReceive => Receive(s)
    case DoProcess => Process(s)
    case DoDrainOne => DrainOne(s)
    case DoDrainStop => DrainStop(s)
    case DoFinish => Finish(s)
    case DoSeeStop => SeeStop(s)
    case DoExit => Exit(s)
  }

  predicate MayDrain(batch: seq<Job>) {
    |batch| < GroupCommit.MAX_WRITE_BATCH && Bytes(batch) < GroupCommit.MAX_BATCH_BYTES
  }

  /** Jobs the worker has taken out of the channel and not yet answered. */
  function InHand(s: State): seq<Job> {
    (match s.worker
     case Received(e) => Members(e)
     case Draining(batch) => batch
     case Executing(batch) => batch
     case Waiting => []
     case Done => [])
    + (if s.pending.Some? then Members(s.pending.value) else [])
  }

  /** Group surplus of entries taken out of the channel but still counted. */
  function HeldExtra(s: State): int {
    (if s.worker.Received? then Extra(s.worker.entry) else 0) + (if s.pending.Some? then Extra(s.pending.value) else 0)
  }

  function Announced(s: State): int {
    if s.lock.Sending? then |Members(s.lock.entry)| else 0
  }

  /** FIFO: what was admitted is what was answered, is in hand, or is queued. */
  ghost predicate Fifo(s: State) {
    s.admitted == s.answered + InHand(s) + AllMembers(s.channel)
  }

  /** The surplus counter covers exactly the groups not yet begun, members never
      exceed the capacity, and a producer's reads can only have become smaller. */
  ghost predicate Counted(s: State) {
    && s.groupExtra == |AllMembers(s.channel)| - |s.channel| + HeldExtra(s)
                       + (if s.lock.Sending? then Extra(s.lock.entry) else 0)
    && |AllMembers(s.channel)| + HeldExtra(s) + Announced(s) <= s.capacity
    && (s.lock.Entered? ==>
          && (s.lock.len.Some? ==> |s.channel| <= s.lock.len.value)
          && (s.lock.extra.Some? ==> s.groupExtra <= s.lock.extra.value))
  }

  ghost predicate Shaped(s: State) {
    && (s.lock.Entered? || s.lock.Sending? ==> Admissible(s.lock.entry))
    && (forall i :: 0 <= i < |s.channel| ==> Admissible(s.channel[i]))
    && (s.pending.Some? ==> Admissible(s.pending.value) && (s.worker.Waiting? || s.worker.Executing?))
    && (s.worker.Received? ==> Admissible(s.worker.entry))
    && (s.worker.Draining? || s.worker.Executing? ==> Shared(s.worker.batch))
    && (forall i :: 0 <= i < |s.batches| ==> Shared(s.batches[i]))
    && (s.stopping ==> s.closed)
    && (s.closed ==> s.lock.Free?)
    && (s.worker.Done? ==> s.stopping && s.channel == [] && s.pending.None?)
  }

  ghost predicate Inv(s: State) {
    Fifo(s) && Counted(s) && Shaped(s)
  }

  lemma {:induction false} AllMembersAppend(entries: seq<Entry>, e: Entry)
    ensures AllMembers(entries + [e]) == AllMembers(entries) + Members(e)
  {
    if entries == [] {
      assert entries + [e] == [e];
      assert AllMembers([e][1..]) == [];
    } else {
      AllMembersAppend(entries[1..], e);
      assert (entries + [e])[1..] == entries[1..] + [e];
    }
  }

  lemma {:induction false} AllMembersSize(entries: seq<Entry>)
    requires forall i :: 0 <= i < |entries| ==> Admissible(entries[i])
    ensures |AllMembers(entries)| >= |entries|
  {
    if entries != [] {
      AllMembersSize(entries[1..]);
    }
  }

  lemma ChannelHead(s: State)
    requires s.channel != []
    ensures AllMembers(s.channel) == Members(s.channel[0]) + AllMembers(s.channel[1..])
  {
  }

  lemma ReadKeeps(s: State)
    requires Inv(s)
    ensures Inv(ReadLen(s)) && Inv(ReadExtra(s))
  {
    assert InHand(ReadLen(s)) == InHand(ReadExtra(s)) == InHand(s);
  }

  lemma DecideKeeps(s: State)
    requires Inv(s)
    ensures Inv(Decide(s))
  {
    assert InHand(Decide(s)) == InHand(s);
  }

  lemma SendFifo(s: State)
    requires Fifo(s)
    ensures Fifo(Send(s))
  {
    var t := Send(s);
    assert InHand(t) == InHand(s);
    if t.channel != s.channel {
      AllMembersAppend(s.channel, s.lock.entry);
      Regroup(s.answered + InHand(s), AllMembers(s.channel), Members(s.lock.entry));
    }
  }

  lemma Regroup(a: seq<Job>, b: seq<Job>, c: seq<Job>)
    ensures (a + b) + c == a + (b + c)
  {
  }

  lemma SendCounted(s: State)
    requires Counted(s) && Shaped(s)
    ensures Counted(Send(s))
  {
    if s.lock.Sending? {
      AllMembersAppend(s.channel, s.lock.entry);
      AllMembersSize(s.channel);
    }
  }

  lemma SendShaped(s: State)
    requires Shaped(s)
    ensures Shaped(Send(s))
  {
  }

  lemma TakePendingKeeps(s: State)
    requires Inv(s)
    ensures Inv(TakePending(s))
  {
    assert InHand(TakePending(s)) == InHand(s);
  }

  lemma ReceiveKeeps(s: State)
    requires Inv(s)
    ensures Inv(Receive(s))
  {
    var t := Receive(s);
    if t != s {
      ChannelHead(s);
      assert InHand(s) == [] && InHand(t) == Members(s.channel[0]);
      assert s.answered + [] + (Members(s.channel[0]) + AllMembers(s.channel[1..]))
          == s.answered + Members(s.channel[0]) + AllMembers(s.channel[1..]);
    }
  }

  lemma ProcessKeeps(s: State)
    requires Inv(s)
    ensures Inv(Process(s))
  {
    assert InHand(Process(s)) == InHand(s);
  }

  lemma DrainOneInHand(s: State)
    requires Shaped(s) && DrainOne(s).channel != s.channel
    ensures s.channel != [] && DrainOne(s).channel == s.channel[1..]
    ensures InHand(DrainOne(s)) == InHand(s) + Members(s.channel[0])
  {
    assert s.pending.None?;
  }

  lemma InOrder(a: seq<Job>, b: seq<Job>, c: seq<Job>, d: seq<Job>)
    ensures a + b + (c + d) == a + (b + c) + d
  {
  }

  lemma DrainOneFifo(s: State)
    requires Fifo(s) && Shaped(s)
    ensures Fifo(DrainOne(s))
  {
    var t := DrainOne(s);
    if t.channel != s.channel {
      DrainOneInHand(s);
      ChannelHead(s);
      InOrder(s.answered, InHand(s), Members(s.channel[0]), AllMembers(s.channel[1..]));
    }
  }

  lemma DrainOneCounted(s: State)
    requires Counted(s) && Shaped(s)
    ensures Counted(DrainOne(s))
  {
    if s.channel != [] {
      ChannelHead(s);
    }
  }

  lemma DrainOneShaped(s: State)
    requires Shaped(s)
    ensures Shaped(DrainOne(s))
  {
    var t := DrainOne(s);
    if s.worker.Draining? && t.worker.Draining? && t != s {
      assert t.worker.batch[..|s.worker.batch|] == s.worker.batch;
    }
  }

  lemma DrainStopKeeps(s: State)
    requires Inv(s)
    ensures Inv(DrainStop(s))
  {
    assert InHand(DrainStop(s)) == InHand(s);
  }

  lemma FinishKeeps(s: State)
    requires Inv(s)
    ensures Inv(Finish(s))
  {
    var t := Finish(s);
    if t != s {
      assert InHand(s) == s.worker.batch + InHand(t);
      assert s.answered + (s.worker.batch + InHand(t)) + AllMembers(s.channel)
          == (s.answered + s.worker.batch) + InHand(t) + AllMembers(s.channel);
    }
  }

  lemma StopKeeps(s: State)
    requires Inv(s)
    ensures Inv(SeeStop(s)) && Inv(Exit(s))
  {
    assert InHand(SeeStop(s)) == InHand(Exit(s)) == InHand(s);
  }

  lemma StepKeeps(s: State, step: Step)
    requires Inv(s)
    ensures Inv(Next(s, step))
  {
    match step
    case DoEnter(e) =>
    case DoReadLen => ReadKeeps(s);
    case DoReadExtra => ReadKeeps(s);
    case DoDecide => DecideKeeps(s);
    case DoSend => SendFifo(s); SendCounted(s); SendShaped(s);
    case DoClose =>
    case DoTakePending => TakePendingKeeps(s);
    case DoReceive => ReceiveKeeps(s);
    case DoProcess => ProcessKeeps(s);
    case DoDrainOne => DrainOneFifo(s); DrainOneCounted(s); DrainOneShaped(s);
    case DoDrainStop => DrainStopKeeps(s);
    case DoFinish => FinishKeeps(s);
    case DoSeeStop => StopKeeps(s);
    case DoExit => StopKeeps(s);
  }

  lemma StepMoves(s: State, step: Step)
    ensures Next(s, step).capacity == s.capacity
    ensures s.closed && s.lock.Free? ==>
              Next(s, step).closed && Next(s, step).lock.Free? && Next(s, step).admitted == s.admitted
  {
  }

  function Run(s: State, steps: seq<Step>): State {
    if steps == [] then s else Next(Run(s, steps[..|steps| - 1]), steps[|steps| - 1])
  }

  lemma {:induction false} RunKeeps(s: State, steps: seq<Step>)
    requires Inv(s)
    ensures Inv(Run(s, steps)) && Run(s, steps).capacity == s.capacity
    decreases |steps|
  {
    if steps != [] {
      RunKeeps(s, steps[..|steps| - 1]);
      StepMoves(Run(s, steps[..|steps| - 1]), steps[|steps| - 1]);
      StepKeeps(Run(s, steps[..|steps| - 1]), steps[|steps| - 1]);
    }
  }

  /** Safety over every run: admission order is execution order, every job is
      answered at most once, batches respect both limits, and the retained jobs
      stay within capacity plus seventeen. */
  lemma EveryRunIsSafe(capacity: nat, steps: seq<Step>)
    ensures var s := Run(Init(capacity), steps);
            && s.admitted == s.answered + InHand(s) + AllMembers(s.channel)
            && (forall i :: 0 <= i < |s.batches| ==> Shared(s.batches[i]))
            && |AllMembers(s.channel)| <= capacity
            && |InHand(s)| + |AllMembers(s.channel)| <= capacity + 17
  {
    assert Inv(Init(capacity));
    RunKeeps(Init(capacity), steps);
  }

  /** The channel is never full when a producer that passed the check sends, so
      neither `default` rejection branch can be taken. */
  lemma DefaultBranchUnreachable(capacity: nat, steps: seq<Step>)
    requires Run(Init(capacity), steps).lock.Sending?
    ensures var s := Run(Init(capacity), steps);
            |s.channel| < s.capacity && Send(s).admitted == s.admitted + Members(s.lock.entry)
  {
    assert Inv(Init(capacity));
    RunKeeps(Init(capacity), steps);
    AllMembersSize(Run(Init(capacity), steps).channel);
  }

  /** What the worker does next once the writer is closed. */
  function WorkerNext(s: State): Step {
    match s.worker
    case Received(_) => DoProcess
    case Draining(batch) => if MayDrain(batch) && s.channel != [] then DoDrainOne else DoDrainStop
    case Executing(_) => DoFinish
    case Done => DoExit
    case Waiting =>
      if s.pending.Some? then DoTakePending
      else if s.channel != [] then DoReceive
      else if !s.stopping then DoSeeStop
      else DoExit
  }

  function Work(s: State): nat {
    5 * |s.channel| + (if s.pending.Some? then 4 else 0) + (if s.stopping then 0 else 1)
    + match s.worker
      case Received(_) => 4
      case Draining(_) => 3
      case Executing(_) => 2
      case Waiting => 1
      case Done => 0
  }

  lemma WorkDecreases(s: State)
    requires Shaped(s) && s.closed && !s.worker.Done?
    ensures Work(Next(s, WorkerNext(s))) < Work(s)
  {
  }

  /** From a closed writer every worker step gets closer to the exit. */
  lemma Progress(s: State)
    requires Inv(s) && s.closed && !s.worker.Done?
    ensures Inv(Next(s, WorkerNext(s)))
    ensures Next(s, WorkerNext(s)).closed && Next(s, WorkerNext(s)).admitted == s.admitted
    ensures Work(Next(s, WorkerNext(s))) < Work(s)
  {
    var step := WorkerNext(s);
    WorkDecreases(s);
    StepMoves(s, step);
    StepKeeps(s, step);
  }

  /** The worker's run from a closed writer until it exits. */
  ghost function Shutdown(s: State): (t: State)
    requires Inv(s) && s.closed
    ensures t.worker.Done? && Inv(t) && t.admitted == s.admitted
    decreases Work(s)
  {
    if s.worker.Done? then s
    else
      Progress(s);
      Shutdown(Next(s, WorkerNext(s)))
  }

  /** Closing at any point of any run: the worker exits after boundedly many
      steps, and then every admitted job has been answered exactly once, in
      order, and the surplus counter is back at zero. */
  lemma ShutdownAnswersEverything(capacity: nat, steps: seq<Step>)
    requires Run(Init(capacity), steps).closed
    ensures var s := Run(Init(capacity), steps);
            && Inv(s)
            && var t := Shutdown(s);
            t.answered == s.admitted && t.groupExtra == 0 && t.channel == []
  {
    assert Inv(Init(capacity));
    RunKeeps(Init(capacity), steps);
    var t := Shutdown(Run(Init(capacity), steps));
    assert t.admitted == t.answered + [] + [];
  }

  /** Once closed, no run admits anything further. */
  lemma {:induction false} ClosedAdmitsNothing(s: State, steps: seq<Step>)
    requires s.closed && s.lock.Free?
    ensures var t := Run(s, steps); t.closed && t.lock.Free? && t.admitted == s.admitted
    decreases |steps|
  {
    if steps != [] {
      ClosedAdmitsNothing(s, steps[..|steps| - 1]);
      StepMoves(Run(s, steps[..|steps| - 1]), steps[|steps| - 1]);
    }
  }

  /** What may happen while a producer holds the mutex before it decides. */
  predicate BeforeDeciding(step: Step) {
    !step.DoEnter? && !step.DoDecide? && !step.DoSend? && !step.DoClose?
  }

  /** The producer of `e` will find room: what it has read, or would read now, leaves
      its members a place. */
  ghost predicate Roomy(s: State, e: Entry) {
    && s.lock.Entered? && s.lock.entry == e
    && (if s.lock.len.Some? then s.lock.len.value else |s.channel|)
       + (if s.lock.extra.Some? then s.lock.extra.value else s.groupExtra) + |Members(e)| <= s.capacity
  }

  lemma RoomStays(s: State, step: Step, e: Entry)
    requires Inv(s) && Roomy(s, e) && BeforeDeciding(step)
    ensures Roomy(Next(s, step), e)
  {
  }

  lemma {:induction false} RoomLasts(s: State, steps: seq<Step>, e: Entry)
    requires Inv(s) && Roomy(s, e) && forall i :: 0 <= i < |steps| ==> BeforeDeciding(steps[i])
    ensures Roomy(Run(s, steps), e)
    decreases |steps|
  {
    if steps != [] {
      var n := |steps| - 1;
      RoomLasts(s, steps[..n], e);
      RunKeeps(s, steps[..n]);
      RoomStays(Run(s, steps[..n]), steps[n], e);
    }
  }

  /** Nobody is turned away while there is room: if the jobs queued, those set aside
      or received but not begun, and a producer's own fit the capacity when it takes
      the mutex, it is admitted, whatever the worker does before and between its two
      reads; and from its own reads alone it is admitted exactly when they fit. */
  lemma AdmittedWhenRoom(s: State, e: Entry, steps: seq<Step>)
    requires Inv(s) && s.lock.Free? && !s.closed && Admissible(e)
    requires forall i :: 0 <= i < |steps| ==> BeforeDeciding(steps[i])
    requires var t := Run(Next(s, DoEnter(e)), steps); t.lock.Entered? && t.lock.len.Some? && t.lock.extra.Some?
    ensures var t := Run(Next(s, DoEnter(e)), steps);
            var sent := Next(Next(t, DoDecide), DoSend);
            && t.lock.entry == e
            && (|AllMembers(s.channel)| + HeldExtra(s) + |Members(e)| <= s.capacity ==>
                  sent.admitted == s.admitted + Members(e) && sent.channel == t.channel + [e])
            && (sent.admitted == s.admitted + Members(e) <==> t.lock.len.value + t.lock.extra.value + |Members(e)| <= s.capacity)
  {
    var entered := Next(s, DoEnter(e));
    StepKeeps(s, DoEnter(e));
    RunKeeps(entered, steps);
    SameProducer(entered, steps, e);
    var t := Run(entered, steps);
    if |AllMembers(s.channel)| + HeldExtra(s) + |Members(e)| <= s.capacity {
      RoomLasts(entered, steps, e);
    }
    DecidedAndSent(t, e);
  }

  lemma DecidedAndSent(t: State, e: Entry)
    requires Inv(t) && t.lock.Entered? && t.lock.entry == e && t.lock.len.Some? && t.lock.extra.Some?
    ensures var sent := Next(Next(t, DoDecide), DoSend);
            if t.lock.len.value + t.lock.extra.value + |Members(e)| <= t.capacity then
              sent.admitted == t.admitted + Members(e) && sent.channel == t.channel + [e]
            else sent.admitted == t.admitted
  {
    DecideKeeps(t);
    AllMembersSize(t.channel);
  }

  lemma {:induction false} SameProducer(s: State, steps: seq<Step>, e: Entry)
    requires s.lock.Entered? && s.lock.entry == e && forall i :: 0 <= i < |steps| ==> BeforeDeciding(steps[i])
    ensures Run(s, steps).lock.Entered? && Run(s, steps).lock.entry == e && Run(s, steps).admitted == s.admitted
    decreases |steps|
  {
    if steps != [] {
      SameProducer(s, steps[..|steps| - 1], e);
    }
  }
}
