/** The batch endpoint regroups validated messages on top of the shared-commit
    writer. Its meaning is sending the same messages one request at a time. */
module BatchEndpoint {
  import opened Basics
  import opened Relay
  import opened GroupCommit

  type Writer = MessageWriter<DB, Message>

  /** The two halves of sending for one caller and chat. */
  datatype Api = Api(prepare: (DB, Input, Stamp) -> Prepared, run: (DB, Draft) -> Run<DB, Message>)

  function ApiOf(srv: Server, id: Identity, chat: Id): Api {
    Api((db: DB, input: Input, stamp: Stamp) => Prepare(srv, db, id, chat, input, stamp),
        (db: DB, d: Draft) => var w := Persist(db, d); Run(w.db, Answer(w.message, w.repeated, w.err)))
  }

  /** One prepared message in a transaction of its own. */
  function Commit(api: Api, db: DB, d: Draft): Run<DB, Message> {
    var r := api.run(db, d);
    Run(if r.answer.err.Some? then db else r.db, r.answer)
  }

  /** Operation rows always name a stored message. */
  ghost predicate Stored(db: DB) {
    forall k :: k in db.operations ==> db.operations[k].result.id in db.messages
  }

  /** Committing keeps everything stored; an accepted answer is recorded under
      the draft's key with its content, and no other key appears. */
  ghost predicate CommitLaw(api: Api, db: DB, d: Draft) {
    var r := Commit(api, db, d);
    && Grows(db, r.db)
    && (Stored(db) ==> Stored(r.db))
    && (r.answer.err.None? ==>
          && r.answer.message.Some?
          && Recorded(r.db, d.Key(), d.Hash(), r.answer.message.value)
          && (r.answer.repeated ==> r.db == db)
          && (!r.answer.repeated ==> r.answer.message.value.id in r.db.messages))
    && (forall k :: k in r.db.operations && k !in db.operations ==> k == d.Key())
  }

  /** Preparing depends only on what unrelated commits keep. */
  ghost predicate PrepareLaw(api: Api, id: Identity, a: DB, b: DB, input: Input, stamp: Stamp) {
    var prepared := api.prepare(a, input, stamp);
    && (prepared.Ready? ==> prepared.draft.id == id && prepared.draft.input == input)
    && (prepared.Saved? ==> exists k :: k in a.operations && a.operations[k].result == prepared.message)
    && (Grows(a, b) && ((id.device, input.op) in b.operations ==> (id.device, input.op) in a.operations) ==>
          prepared == api.prepare(b, input, stamp))
  }

  ghost predicate Lawful(api: Api, id: Identity) {
    && (forall db: DB, d: Draft {:trigger api.run(db, d)} :: CommitLaw(api, db, d))
    && (forall a: DB, b: DB, input: Input, stamp: Stamp
          {:trigger api.prepare(a, input, stamp), api.prepare(b, input, stamp)} ::
          PrepareLaw(api, id, a, b, input, stamp))
  }

  lemma PersistLaw(srv: Server, id: Identity, chat: Id, db: DB, d: Draft)
    ensures CommitLaw(ApiOf(srv, id, chat), db, d)
  {
    if Persist(db, d).err.None? {
      PersistRecords(db, d);
      forall k | k in Persist(db, d).db.operations && k !in db.operations ensures k == d.Key() {
        if k != d.Key() { PersistTouchesOneKey(db, d, k); }
      }
    }
  }

  /** The relay's own two halves obey the laws. */
  lemma ApiLawful(srv: Server, id: Identity, chat: Id)
    ensures Lawful(ApiOf(srv, id, chat), id)
  {
    var api := ApiOf(srv, id, chat);
    forall db: DB, d: Draft ensures CommitLaw(api, db, d) { PersistLaw(srv, id, chat, db, d); }
    forall a: DB, b: DB, input: Input, stamp: Stamp ensures PrepareLaw(api, id, a, b, input, stamp) {
      if Grows(a, b) && ((id.device, input.op) in b.operations ==> (id.device, input.op) in a.operations) {
        PrepareStable(srv, a, b, id, chat, input, stamp);
      }
    }
  }

  /** Prepared messages, each in its own transaction, in order. */
  function RunDrafts(api: Api, db: DB, drafts: seq<Draft>): (r: (DB, seq<Answer<Message>>))
    ensures |r.1| == |drafts|
  {
    if drafts == [] then (db, [])
    else
      var p := RunDrafts(api, db, drafts[..|drafts| - 1]);
      var one := Commit(api, p.0, drafts[|drafts| - 1]);
      (one.db, p.1 + [one.answer])
  }

  /** A run only adds rows, and only under its own drafts' keys. */
  lemma {:induction false} RunDraftsGrow(api: Api, id: Identity, db: DB, drafts: seq<Draft>)
    requires Lawful(api, id)
    ensures var r := RunDrafts(api, db, drafts);
            && Grows(db, r.0)
            && (forall k :: k in r.0.operations && k !in db.operations ==>
                  exists i :: 0 <= i < |drafts| && k == drafts[i].Key())
    decreases |drafts|
  {
    if drafts != [] {
      var n := |drafts| - 1;
      var front := drafts[..n];
      RunDraftsGrow(api, id, db, front);
      var p := RunDrafts(api, db, front);
      var r := RunDrafts(api, db, drafts);
      assert CommitLaw(api, p.0, drafts[n]);
      GrowsTransitive(db, p.0, r.0);
      forall k | k in r.0.operations && k !in db.operations
        ensures exists i :: 0 <= i < |drafts| && k == drafts[i].Key()
      {
        if k in p.0.operations {
          var i :| 0 <= i < |front| && k == front[i].Key();
          assert drafts[i] == front[i];
        }
      }
    }
  }

  /** Every acknowledged or repeated message of a batch is durable in its final
      database under its own key, with its own content. */
  lemma {:induction false} RunDraftsDurable(api: Api, id: Identity, db: DB, drafts: seq<Draft>, i: nat)
    requires Lawful(api, id) && i < |drafts|
    requires RunDrafts(api, db, drafts).1[i].err.None?
    ensures var r := RunDrafts(api, db, drafts);
            && r.1[i].message.Some?
            && Recorded(r.0, drafts[i].Key(), drafts[i].Hash(), r.1[i].message.value)
            && (!r.1[i].repeated ==> r.1[i].message.value.id in r.0.messages)
    decreases |drafts|
  {
    var n := |drafts| - 1;
    var p := RunDrafts(api, db, drafts[..n]);
    assert CommitLaw(api, p.0, drafts[n]);
    if i < n {
      RunDraftsDurable(api, id, db, drafts[..n], i);
    }
  }

  /** A prepared message as a writer job of a request that is not cancelled. */
  function AsJob(api: Api, d: Draft): Job<DB, Message> {
    Job(d.bytes, None, None, None, (db: DB) => api.run(db, d))
  }

  function AsJobs(api: Api, drafts: seq<Draft>): (jobs: seq<Job<DB, Message>>)
    ensures |jobs| == |drafts|
    ensures forall i :: 0 <= i < |drafts| ==> jobs[i] == AsJob(api, drafts[i])
  {
    if drafts == [] then [] else AsJobs(api, drafts[..|drafts| - 1]) + [AsJob(api, drafts[|drafts| - 1])]
  }

  function Bytes(drafts: seq<Draft>): nat {
    if drafts == [] then 0 else Bytes(drafts[..|drafts| - 1]) + drafts[|drafts| - 1].bytes
  }

  predicate Fits(drafts: seq<Draft>) {
    |drafts| <= MAX_WRITE_BATCH && (|drafts| > 1 ==> Bytes(drafts) <= MAX_BATCH_BYTES)
  }

  /** As writer jobs, drafts do exactly what they do one transaction at a time. */
  lemma {:induction false} JobsRunDrafts(api: Api, db: DB, drafts: seq<Draft>)
    ensures Sequential(db, AsJobs(api, drafts)) == RunDrafts(api, db, drafts)
    ensures TotalBytes(AsJobs(api, drafts)) == Bytes(drafts)
    decreases |drafts|
  {
    if drafts != [] {
      var n := |drafts| - 1;
      JobsRunDrafts(api, db, drafts[..n]);
      assert AsJobs(api, drafts)[..n] == AsJobs(api, drafts[..n]);
    }
  }

  lemma JobsReadOnlyRepeats(api: Api, id: Identity, drafts: seq<Draft>)
    requires Lawful(api, id)
    ensures forall job :: job in AsJobs(api, drafts) ==> RepeatsReadOnly(job)
  {
    forall job | job in AsJobs(api, drafts) ensures RepeatsReadOnly(job) {
      var i :| 0 <= i < |drafts| && job == AsJob(api, drafts[i]);
      forall db: DB | job.run(db).answer.err.None? && job.run(db).answer.repeated ensures job.run(db).db == db {
        assert CommitLaw(api, db, drafts[i]);
      }
    }
  }

  /** One message on its own: prepare, then a transaction of its own. */
  function Post(api: Api, db: DB, input: Input, stamp: Stamp): Run<DB, Message> {
    match api.prepare(db, input, stamp)
    case Reject(err) => Run(db, Answer(None, false, Some(err)))
    case Saved(m) => Run(db, Answer(Some(m), true, None))
    case Ready(d) => Commit(api, db, d)
  }

  function Reply(db: DB, id: Identity, minimal: bool, a: Answer<Message>): Result<Message> {
    if a.err.Some? then Fail(a.err.value)
    else if a.message.None? then Fail(Err(503, StorageUnavailable))
    else SendResult(db, id, a.message.value, minimal, a.repeated)
  }

  /** The same messages sent by separate requests, in order. */
  function PostAll(api: Api, db: DB, inputs: seq<Input>, stamps: seq<Stamp>): (r: (DB, seq<Answer<Message>>))
    requires |inputs| == |stamps|
    ensures |r.1| == |inputs|
  {
    if inputs == [] then (db, [])
    else
      var n := |inputs| - 1;
      var p := PostAll(api, db, inputs[..n], stamps[..n]);
      var one := Post(api, p.0, inputs[n], stamps[n]);
      (one.db, p.1 + [one.answer])
  }

  /** What each of those separate requests was told at its own time. */
  function ReplyAll(api: Api, id: Identity, db: DB, minimal: bool, inputs: seq<Input>, stamps: seq<Stamp>)
    : (r: seq<Result<Message>>)
    requires |inputs| == |stamps|
    ensures |r| == |inputs|
  {
    if inputs == [] then []
    else
      var n := |inputs| - 1;
      var one := Post(api, PostAll(api, db, inputs[..n], stamps[..n]).0, inputs[n], stamps[n]);
      ReplyAll(api, id, db, minimal, inputs[..n], stamps[..n]) + [Reply(one.db, id, minimal, one.answer)]
  }

  lemma PostAllStep(api: Api, db: DB, inputs: seq<Input>, stamps: seq<Stamp>, i: nat)
    requires |inputs| == |stamps| && i < |inputs|
    ensures var p := PostAll(api, db, inputs[..i], stamps[..i]);
            var one := Post(api, p.0, inputs[i], stamps[i]);
            PostAll(api, db, inputs[..i + 1], stamps[..i + 1]) == (one.db, p.1 + [one.answer])
  {
    assert inputs[..i + 1][..i] == inputs[..i] && stamps[..i + 1][..i] == stamps[..i];
  }

  lemma PostLaw(api: Api, id: Identity, db: DB, input: Input, stamp: Stamp)
    requires Lawful(api, id) && Stored(db)
    ensures var r := Post(api, db, input, stamp);
            && Grows(db, r.db) && Stored(r.db)
            && (r.answer.err.None? ==> r.answer.message.Some? && r.answer.message.value.id in r.db.messages)
  {
    var prepared := api.prepare(db, input, stamp);
    assert PrepareLaw(api, id, db, db, input, stamp);
    if prepared.Ready? {
      assert CommitLaw(api, db, prepared.draft);
    }
  }

  /** Every accepted answer names a stored message, so the endpoint may compute
      all replies at the end: they are what each request alone was told. */
  lemma {:induction false} RepliesAtTheEnd(api: Api, id: Identity, db: DB, minimal: bool, inputs: seq<Input>, stamps: seq<Stamp>)
    requires |inputs| == |stamps| && Lawful(api, id) && Stored(db)
    ensures var r := PostAll(api, db, inputs, stamps);
            && Stored(r.0)
            && (forall i :: 0 <= i < |inputs| && r.1[i].err.None? ==>
                  r.1[i].message.Some? && r.1[i].message.value.id in r.0.messages)
            && (forall i :: 0 <= i < |inputs| ==>
                  ReplyAll(api, id, db, minimal, inputs, stamps)[i] == Reply(r.0, id, minimal, r.1[i]))
    decreases |inputs|
  {
    if inputs != [] {
      var n := |inputs| - 1;
      RepliesAtTheEnd(api, id, db, minimal, inputs[..n], stamps[..n]);
      var p := PostAll(api, db, inputs[..n], stamps[..n]);
      var one := Post(api, p.0, inputs[n], stamps[n]);
      PostLaw(api, id, p.0, inputs[n], stamps[n]);
      forall i | 0 <= i < n && p.1[i].err.None?
        ensures Reply(p.0, id, minimal, p.1[i]) == Reply(one.db, id, minimal, p.1[i])
        ensures p.1[i].message.value.id in one.db.messages
      {
        SendResultStable(p.0, one.db, id, p.1[i].message.value, minimal, p.1[i].repeated);
      }
    }
  }

  /** Files each answer at its message's index. */
  method FileAnswers(indices: seq<nat>, committed: seq<Answer<Message>>, results: seq<Answer<Message>>)
    returns (filed: seq<Answer<Message>>)
    requires |indices| == |committed|
    requires forall j :: 0 <= j < |indices| ==> indices[j] < |results|
    requires forall j, k :: 0 <= j < k < |indices| ==> indices[j] < indices[k]
    ensures |filed| == |results|
    ensures forall j :: 0 <= j < |indices| ==> filed[indices[j]] == committed[j]
    ensures forall k: nat :: k < |results| && k !in indices ==> filed[k] == results[k]
  {
    filed := results;
    var j := 0;
    while j < |indices|
      invariant 0 <= j <= |indices| && |filed| == |results|
      invariant forall m :: 0 <= m < j ==> filed[indices[m]] == committed[m]
      invariant forall k: nat :: k < |results| && k !in indices[..j] ==> filed[k] == results[k]
    {
      filed := filed[indices[j] := committed[j]];
      assert indices[..j + 1] == indices[..j] + [indices[j]];
      j := j + 1;
    }
    assert indices[..j] == indices;
  }

  lemma {:induction false} NoneCancelled(jobs: seq<Job<DB, Message>>)
    requires forall i :: 0 <= i < |jobs| ==> jobs[i].offered.None?
    ensures FirstCancelled(jobs).None?
  {
    if jobs != [] {
      NoneCancelled(jobs[1..]);
    }
  }

  method SubmitPrepared(w: Writer, api: Api, ghost id: Identity, drafts: seq<Draft>) returns (answers: seq<Answer<Message>>)
    requires Lawful(api, id) && Fits(drafts)
    modifies w
    ensures (w.db, answers) == RunDrafts(api, old(w.db), drafts)
  {
    JobsRunDrafts(api, w.db, drafts);
    JobsReadOnlyRepeats(api, id, drafts);
    NoneCancelled(AsJobs(api, drafts));
    answers := w.SubmitGroup(AsJobs(api, drafts), None, Faults(None, _ => None, _ => None, _ => None, None, None));
  }

  /** The loop's local state: the group under construction and filed answers. */
  datatype Progress = Progress(
    drafts: seq<Draft>, indices: seq<nat>, bytes: nat, pendingIds: set<Id>, results: seq<Answer<Message>>)

  /** What the loop over the request's messages keeps: the pending group, run on
      the current database, leads exactly to the one-at-a-time history so far. */
  ghost predicate Regrouped(api: Api, id: Identity, db0: DB, inputs: seq<Input>, stamps: seq<Stamp>, i: nat, db: DB, s: Progress)
  {
    && i <= |inputs| == |stamps| == |s.results|
    && |s.drafts| == |s.indices| && Fits(s.drafts) && s.bytes == Bytes(s.drafts)
    && (forall j :: 0 <= j < |s.indices| ==> s.indices[j] < i)
    && (forall j, k :: 0 <= j < k < |s.indices| ==> s.indices[j] < s.indices[k])
    && (forall j :: 0 <= j < |s.drafts| ==> s.drafts[j].id == id && s.drafts[j].input.op in s.pendingIds)
    && var run := RunDrafts(api, db, s.drafts);
    var all := PostAll(api, db0, inputs[..i], stamps[..i]);
    && run.0 == all.0
    && (forall j :: 0 <= j < |s.drafts| ==> run.1[j] == all.1[s.indices[j]])
    && (forall k: nat :: k < i && k !in s.indices ==> s.results[k] == all.1[k])
  }

  /** A message whose id is not pending is prepared as if the group had run. */
  lemma PreparedEarly(api: Api, id: Identity, db: DB, drafts: seq<Draft>, input: Input, stamp: Stamp)
    requires Lawful(api, id)
    requires forall j :: 0 <= j < |drafts| ==> drafts[j].id == id && drafts[j].input.op != input.op
    ensures api.prepare(db, input, stamp) == api.prepare(RunDrafts(api, db, drafts).0, input, stamp)
  {
    RunDraftsGrow(api, id, db, drafts);
    assert PrepareLaw(api, id, db, RunDrafts(api, db, drafts).0, input, stamp);
  }

  /** Moving past a message answered at once: its answer is filed. */
  lemma AdvanceAnswered(api: Api, id: Identity, db0: DB, inputs: seq<Input>, stamps: seq<Stamp>, i: nat, db: DB, s: Progress, answer: Answer<Message>)
    requires i < |inputs| && Regrouped(api, id, db0, inputs, stamps, i, db, s)
    requires Post(api, RunDrafts(api, db, s.drafts).0, inputs[i], stamps[i]) == Run(RunDrafts(api, db, s.drafts).0, answer)
    ensures Regrouped(api, id, db0, inputs, stamps, i + 1, db, s.(results := s.results[i := answer]))
  {
    PostAllStep(api, db0, inputs, stamps, i);
  }

  /** Moving past a ready message: its draft joins the group. */
  lemma AdvanceReady(api: Api, id: Identity, db0: DB, inputs: seq<Input>, stamps: seq<Stamp>, i: nat, db: DB, s: Progress, d: Draft)
    requires i < |inputs| && d.id == id && d.input == inputs[i] && Fits(s.drafts + [d])
    requires Regrouped(api, id, db0, inputs, stamps, i, db, s)
    requires Post(api, RunDrafts(api, db, s.drafts).0, inputs[i], stamps[i]) == Commit(api, RunDrafts(api, db, s.drafts).0, d)
    ensures Regrouped(api, id, db0, inputs, stamps, i + 1, db,
                      Progress(s.drafts + [d], s.indices + [i], s.bytes + d.bytes, s.pendingIds + {inputs[i].op}, s.results))
  {
    PostAllStep(api, db0, inputs, stamps, i);
    assert (s.drafts + [d])[..|s.drafts|] == s.drafts;
  }

  /** Submits the pending group, files its answers and starts an empty one. */
  method Flush(w: Writer, api: Api, ghost id: Identity, ghost db0: DB, ghost inputs: seq<Input>, ghost stamps: seq<Stamp>,
               ghost i: nat, s: Progress)
    returns (t: Progress)
    requires Lawful(api, id) && Regrouped(api, id, db0, inputs, stamps, i, w.db, s)
    modifies w
    ensures Regrouped(api, id, db0, inputs, stamps, i, w.db, t)
    ensures t.drafts == [] && t.pendingIds == {}
  {
    var committed := SubmitPrepared(w, api, id, s.drafts);
    var filed := FileAnswers(s.indices, committed, s.results);
    t := Progress([], [], 0, {}, filed);
  }

  /** One turn of the endpoint's loop. */
  method Admit(w: Writer, api: Api, ghost id: Identity, ghost db0: DB, inputs: seq<Input>, stamps: seq<Stamp>,
               i: nat, groupLimit: nat, before: Progress)
    returns (s: Progress)
    requires Lawful(api, id) && 1 <= groupLimit <= MAX_WRITE_BATCH && |before.drafts| <= groupLimit
    requires i < |inputs| && Regrouped(api, id, db0, inputs, stamps, i, w.db, before)
    modifies w
    ensures Regrouped(api, id, db0, inputs, stamps, i + 1, w.db, s) && |s.drafts| <= groupLimit
  {
    s := before;
    // An earlier occurrence must become durable before a retry is validated.
    if inputs[i].op in s.pendingIds {
      s := Flush(w, api, id, db0, inputs, stamps, i, s);
    }
    var prepared := api.prepare(w.db, inputs[i], stamps[i]);
    PreparedEarly(api, id, w.db, s.drafts, inputs[i], stamps[i]);
    match prepared {
      case Reject(err) =>
        AdvanceAnswered(api, id, db0, inputs, stamps, i, w.db, s, Answer(None, false, Some(err)));
        s := s.(results := s.results[i := Answer(None, false, Some(err))]);
      case Saved(m) =>
        AdvanceAnswered(api, id, db0, inputs, stamps, i, w.db, s, Answer(Some(m), true, None));
        s := s.(results := s.results[i := Answer(Some(m), true, None)]);
      case Ready(draft) =>
        assert PrepareLaw(api, id, w.db, w.db, inputs[i], stamps[i]);
        if |s.drafts| == groupLimit || (|s.drafts| > 0 && draft.bytes > MAX_BATCH_BYTES - s.bytes) {
          s := Flush(w, api, id, db0, inputs, stamps, i, s);
        }
        assert (s.drafts + [draft])[..|s.drafts|] == s.drafts;
        AdvanceReady(api, id, db0, inputs, stamps, i, w.db, s, draft);
        s := Progress(s.drafts + [draft], s.indices + [i], s.bytes + draft.bytes, s.pendingIds + {inputs[i].op}, s.results);
    }
  }

  lemma RegroupedDone(api: Api, id: Identity, db0: DB, inputs: seq<Input>, stamps: seq<Stamp>, db: DB, s: Progress)
    requires |inputs| == |stamps| && Regrouped(api, id, db0, inputs, stamps, |inputs|, db, s) && s.drafts == []
    ensures PostAll(api, db0, inputs, stamps) == (db, s.results)
  {
    assert inputs[..|inputs|] == inputs && stamps[..|inputs|] == stamps;
    var all := PostAll(api, db0, inputs, stamps);
    forall k: nat | k < |inputs| ensures s.results[k] == all.1[k] {
      assert k !in s.indices;
    }
    assert s.results == all.1;
  }

  /** The endpoint's loop over the messages. */
  method Regroup(w: Writer, api: Api, ghost id: Identity, inputs: seq<Input>, stamps: seq<Stamp>, queueCapacity: nat)
    returns (results: seq<Answer<Message>>)
    requires |inputs| == |stamps| && queueCapacity >= 1 && Lawful(api, id)
    modifies w
    ensures (w.db, results) == PostAll(api, old(w.db), inputs, stamps)
  {
    ghost var db0 := w.db;
    var s := Progress([], [], 0, {}, seq(|inputs|, _ => Answer(None, false, None)));
    var groupLimit := Min(MAX_WRITE_BATCH, queueCapacity);
    var i := 0;
    while i < |inputs|
      invariant 0 <= i <= |inputs| && |s.drafts| <= groupLimit
      invariant Regrouped(api, id, db0, inputs, stamps, i, w.db, s)
    {
      s := Admit(w, api, id, db0, inputs, stamps, i, groupLimit, s);
      i := i + 1;
    }
    s := Flush(w, api, id, db0, inputs, stamps, i, s);
    results := s.results;
    RegroupedDone(api, id, db0, inputs, stamps, w.db, s);
  }

  /** The endpoint. For every request, whatever operation ids repeat and
      wherever groups are cut, the final database and the per-item replies are
      those of sending the messages one at a time. */
  method Batch(w: Writer, srv: Server, id: Identity, chat: Id, inputs: seq<Input>, stamps: seq<Stamp>,
               maxBatch: nat, queueCapacity: nat, minimal: bool)
    returns (out: Result<seq<Result<Message>>>)
    requires |inputs| == |stamps| && queueCapacity >= 1
    requires Stored(w.db)
    modifies w
    ensures out.Fail? <==> |inputs| == 0 || |inputs| > maxBatch
    ensures out.Fail? ==> w.db == old(w.db)
    ensures out.Ok? ==>
              && w.db == PostAll(ApiOf(srv, id, chat), old(w.db), inputs, stamps).0
              && out.value == ReplyAll(ApiOf(srv, id, chat), id, old(w.db), minimal, inputs, stamps)
  {
    if |inputs| == 0 || |inputs| > maxBatch {
      return Fail(Err(400, InvalidBatchSize));
    }
    var api := ApiOf(srv, id, chat);
    ApiLawful(srv, id, chat);
    RepliesAtTheEnd(api, id, w.db, minimal, inputs, stamps);
    var results := Regroup(w, api, id, inputs, stamps, queueCapacity);
    var replies: seq<Result<Message>> := [];
    var k := 0;
    while k < |inputs|
      invariant 0 <= k <= |inputs| && |replies| == k
      invariant forall m :: 0 <= m < k ==> replies[m] == Reply(w.db, id, minimal, results[m])
    {
      replies := replies + [Reply(w.db, id, minimal, results[k])];
      k := k + 1;
    }
    out := Ok(replies);
  }
}
