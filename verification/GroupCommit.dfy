/** The shared-commit writer: up to sixteen jobs run in one transaction, each
    isolated by a savepoint, and no result is released before the commit. The
    simple form it must agree with is "one job, one transaction, in order". */
module GroupCommit {
  import opened Basics

  const MAX_WRITE_BATCH := 16

  const MAX_BATCH_BYTES := 8388608

  /** What a job hands back to its caller. */
  datatype Answer<+M> = Answer(message: Option<M>, repeated: bool, err: Option<Err>)

  /** A job's effect on the open transaction; a failed job may leave it dirty. */
  datatype Run<D, M> = Run(db: D, answer: Answer<M>)

  /** A queued job: `offered`, `before` and `after` are what its request context
      reports at admission, just before and just after the body runs. */
  datatype Job<!D, M> = Job(bytes: nat, offered: Option<Err>, before: Option<Err>, after: Option<Err>, run: D -> Run<D, M>)

  /** The outer transaction's own failures, statement by statement. */
  datatype Faults = Faults(
    begin: Option<Err>,
    savepoint: nat -> Option<Err>,
    rollbackTo: nat -> Option<Err>,
    release: nat -> Option<Err>,
    commit: Option<Err>,
    rollback: Option<Err>)

  ghost predicate Quiet(f: Faults) {
    && f.begin.None? && f.commit.None? && f.rollback.None?
    && forall i: nat :: f.savepoint(i).None? && f.rollbackTo(i).None? && f.release(i).None?
  }

  /** A job that reports a repeat wrote nothing. */
  ghost predicate RepeatsReadOnly<D(!new), M>(job: Job<D, M>) {
    forall d: D :: job.run(d).answer.err.None? && job.run(d).answer.repeated ==> job.run(d).db == d
  }

  /** The body's answer once the request context has been consulted again. */
  function Checked<D, M>(job: Job<D, M>, db: D): Answer<M> {
    var a := job.run(db).answer;
    if a.err.None? then a.(err := job.after) else a
  }

  /** One job in its own transaction: a failure of any kind changes nothing. */
  function Alone<D, M>(db: D, job: Job<D, M>): Run<D, M> {
    if job.before.Some? then Run(db, Answer(None, false, job.before))
    else
      var a := Checked(job, db);
      Run(if a.err.Some? then db else job.run(db).db, a)
  }

  /** Each job in its own transaction, in order. */
  function Sequential<D, M>(db: D, jobs: seq<Job<D, M>>): (r: (D, seq<Answer<M>>))
    ensures |r.1| == |jobs|
  {
    if jobs == [] then (db, [])
    else
      var p := Sequential(db, jobs[..|jobs| - 1]);
      var one := Alone(p.0, jobs[|jobs| - 1]);
      (one.db, p.1 + [one.answer])
  }

  function TotalBytes<D, M>(jobs: seq<Job<D, M>>): nat {
    if jobs == [] then 0 else TotalBytes(jobs[..|jobs| - 1]) + jobs[|jobs| - 1].bytes
  }

  /** What one admission may carry: sixteen jobs, and a byte bound unless alone. */
  predicate FitsGroup<D, M>(jobs: seq<Job<D, M>>) {
    |jobs| <= MAX_WRITE_BATCH && (|jobs| > 1 ==> TotalBytes(jobs) <= MAX_BATCH_BYTES)
  }

  /** The error of the first job whose request is cancelled when it is offered. */
  function FirstCancelled<D, M>(jobs: seq<Job<D, M>>): Option<Err> {
    if jobs == [] then None else if jobs[0].offered.Some? then jobs[0].offered else FirstCancelled(jobs[1..])
  }

  /** Why a group is not admitted, if it is not. */
  function Refusal<D, M>(jobs: seq<Job<D, M>>, closedOrFull: Option<Err>): Option<Err> {
    if jobs == [] then None
    else if !FitsGroup(jobs) then Some(Err(503, WriterGroupTooLarge))
    else if FirstCancelled(jobs).Some? then FirstCancelled(jobs)
    else closedOrFull
  }

  ghost predicate AllFailed<M>(answers: seq<Answer<M>>) {
    forall i :: 0 <= i < |answers| ==> answers[i].err.Some?
  }

  /** When a group is admitted, and the one reason when it is not. */
  lemma {:induction false} RefusalExactly<D, M>(jobs: seq<Job<D, M>>, closedOrFull: Option<Err>)
    ensures var refusal := Refusal(jobs, closedOrFull);
            var sized := |jobs| == 1 || (|jobs| <= 16 && TotalBytes(jobs) <= 8388608);
            && (refusal.None? <==>
                  jobs == [] || (sized && closedOrFull.None? && forall i :: 0 <= i < |jobs| ==> jobs[i].offered.None?))
            && (jobs != [] && !sized ==> refusal == Some(Err(503, WriterGroupTooLarge)))
            && (forall i :: 0 <= i < |jobs| && sized && jobs[i].offered.Some? && (forall k :: 0 <= k < i ==> jobs[k].offered.None?) ==>
                  refusal == jobs[i].offered)
            && (jobs != [] && sized && (forall i :: 0 <= i < |jobs| ==> jobs[i].offered.None?) ==> refusal == closedOrFull)
  {
    FirstCancelledExactly(jobs);
  }

  lemma {:induction false} FirstCancelledExactly<D, M>(jobs: seq<Job<D, M>>)
    ensures FirstCancelled(jobs).None? <==> forall i :: 0 <= i < |jobs| ==> jobs[i].offered.None?
    ensures forall i :: 0 <= i < |jobs| && jobs[i].offered.Some? && (forall k :: 0 <= k < i ==> jobs[k].offered.None?) ==>
              FirstCancelled(jobs) == jobs[i].offered
  {
    if jobs != [] {
      var rest := jobs[1..];
      FirstCancelledExactly(rest);
      forall i | 0 <= i < |jobs| && jobs[i].offered.Some? && (forall k :: 0 <= k < i ==> jobs[k].offered.None?)
        ensures FirstCancelled(jobs) == jobs[i].offered
      {
        if i > 0 {
          assert rest[i - 1] == jobs[i];
          forall k | 0 <= k < i - 1 ensures rest[k].offered.None? { assert rest[k] == jobs[k + 1]; }
        }
      }
      assert forall k :: 0 < k < |jobs| ==> jobs[k] == rest[k - 1];
    }
  }

  lemma SequentialStep<D, M>(db: D, jobs: seq<Job<D, M>>, i: nat)
    requires i < |jobs|
    ensures var p := Sequential(db, jobs[..i]);
            var one := Alone(p.0, jobs[i]);
            Sequential(db, jobs[..i + 1]) == (one.db, p.1 + [one.answer])
  {
    assert jobs[..i + 1][..i] == jobs[..i];
  }

  /** Running a list in two parts is running it whole. */
  lemma {:induction false} SequentialSplit<D, M>(db: D, a: seq<Job<D, M>>, b: seq<Job<D, M>>)
    ensures var p := Sequential(db, a);
            var q := Sequential(p.0, b);
            Sequential(db, a + b) == (q.0, p.1 + q.1)
    decreases |b|
  {
    if b == [] {
      assert a + b == a;
      assert Sequential(db, a).1 + [] == Sequential(db, a).1;
    } else {
      var n := |b| - 1;
      SequentialSplit(db, a, b[..n]);
      assert (a + b)[..|a| + n] == a + b[..n];
      var p := Sequential(db, a);
      var q := Sequential(p.0, b[..n]);
      var one := Alone(q.0, b[n]);
      assert p.1 + (q.1 + [one.answer]) == (p.1 + q.1) + [one.answer];
    }
  }

  /** Each job of the list, from its own context and body: it succeeds exactly when
      its request is live before the body, the body succeeds and the request is
      still live after it; then the body's database is kept and its answer given.
      Otherwise the first of the three errors is given and no trace is left. */
  lemma SequentialAt<D, M>(db: D, jobs: seq<Job<D, M>>, i: nat)
    requires i < |jobs|
    ensures var at := Sequential(db, jobs[..i]).0;
            var next := Sequential(db, jobs[..i + 1]).0;
            var a := Sequential(db, jobs).1[i];
            var r := jobs[i].run(at);
            && (a.err.None? <==> jobs[i].before.None? && r.answer.err.None? && jobs[i].after.None?)
            && (a.err.None? ==> next == r.db && a == r.answer)
            && (a.err.Some? ==>
                  && next == at
                  && a.err == if jobs[i].before.Some? then jobs[i].before
                              else if r.answer.err.Some? then r.answer.err else jobs[i].after)
  {
    SequentialStep(db, jobs, i);
    SequentialSplit(db, jobs[..i + 1], jobs[i + 1..]);
    assert jobs[..i + 1] + jobs[i + 1..] == jobs;
  }

  class MessageWriter<D(!new), M(!new)> {
    /** The durable database; only a successful commit assigns it. */
    var db: D

    constructor (initial: D)
      ensures db == initial
    {
      db := initial;
    }

    /** Every batch either has exactly the effect and the answers of its jobs
        run one transaction at a time, or changes nothing and fails them all. */
    method ExecuteBatch(jobs: seq<Job<D, M>>, faults: Faults) returns (results: seq<Answer<M>>)
      requires |jobs| <= MAX_WRITE_BATCH
      requires forall job :: job in jobs ==> RepeatsReadOnly(job)
      modifies this
      ensures |results| == |jobs|
      ensures (db, results) == Sequential(old(db), jobs) || (db == old(db) && AllFailed(results))
      ensures Quiet(faults) ==> (db, results) == Sequential(old(db), jobs)
    {
      ghost var db0 := db;
      var tx := db;
      var batchErr := faults.begin;
      var changed := 0;
      results := [];
      var i := 0;
      while i < |jobs|
        invariant 0 <= i <= |jobs| && |results| == i
        invariant db == db0
        invariant batchErr.None? ==> (tx, results) == Sequential(db0, jobs[..i])
        invariant batchErr.None? && changed == 0 ==> tx == db0
        invariant batchErr.Some? && Quiet(faults) ==>
                    i == |jobs| == 1 && (db0, results) == Sequential(db0, jobs) && AllFailed(results)
      {
        var job := jobs[i];
        SequentialStep(db0, jobs, i);
        assert job in jobs && RepeatsReadOnly(job);
        var answer: Answer<M> := Answer(None, false, batchErr);
        if job.before.Some? {
          answer := Answer(None, false, job.before);
        } else if batchErr.None? {
          var saved := tx;
          if |jobs| > 1 {
            batchErr := faults.savepoint(i);
          }
          if batchErr.Some? {
            answer := Answer(None, false, batchErr);
          } else {
            var run := job.run(tx);
            tx := run.db;
            answer := if run.answer.err.None? then run.answer.(err := job.after) else run.answer;
            if answer.err.Some? && |jobs| == 1 {
              batchErr := answer.err;
            } else {
              if answer.err.Some? {
                batchErr := faults.rollbackTo(i);
                tx := saved;
              }
              if |jobs| > 1 && batchErr.None? {
                batchErr := faults.release(i);
              }
              if answer.err.None? && batchErr.None? && !answer.repeated {
                changed := changed + 1;
              }
            }
          }
        }
        results := results + [answer];
        i := i + 1;
        assert i == |jobs| ==> jobs[..i] == jobs;
      }
      assert jobs[..i] == jobs;
      if batchErr.None? && changed > 0 {
        batchErr := faults.commit;
        if batchErr.None? {
          db := tx;
        }
      } else if batchErr.None? {
        batchErr := faults.rollback;
      }
      if batchErr.Some? {
        results := FailEach(results, batchErr);
      }
    }

    /** The jobs that had no error of their own fail with the batch's. */
    method FailEach(before: seq<Answer<M>>, batchErr: Option<Err>) returns (results: seq<Answer<M>>)
      requires batchErr.Some?
      ensures |results| == |before| && AllFailed(results)
      ensures forall m :: 0 <= m < |before| ==>
                results[m] == if before[m].err.Some? then before[m] else Answer(None, false, batchErr)
      ensures AllFailed(before) ==> results == before
    {
      results := before;
      var k := 0;
      while k < |before|
        invariant 0 <= k <= |before| == |results|
        invariant forall m :: 0 <= m < k ==>
                    results[m] == if before[m].err.Some? then before[m] else Answer(None, false, batchErr)
        invariant forall m :: k <= m < |before| ==> results[m] == before[m]
      {
        if results[k].err.None? {
          results := results[k := Answer(None, false, batchErr)];
        }
        k := k + 1;
      }
    }

    /** Admission of one group. A refusal, by size, by a request already cancelled,
        or by a writer that is stopping or full, is the same for all its members
        and changes nothing; an admitted group runs as its members in order. */
    method SubmitGroup(jobs: seq<Job<D, M>>, closedOrFull: Option<Err>, faults: Faults) returns (results: seq<Answer<M>>)
      requires forall job :: job in jobs ==> RepeatsReadOnly(job)
      modifies this
      ensures |results| == |jobs|
      ensures var refusal := Refusal(jobs, closedOrFull);
              && (refusal.Some? ==> db == old(db) && forall i :: 0 <= i < |jobs| ==> results[i] == Answer(None, false, refusal))
              && (refusal.None? ==> (db, results) == Sequential(old(db), jobs) || (db == old(db) && AllFailed(results)))
              && (refusal.None? && Quiet(faults) ==> (db, results) == Sequential(old(db), jobs))
    {
      var bytes := 0;
      var i := 0;
      while i < |jobs|
        invariant 0 <= i <= |jobs| && bytes == TotalBytes(jobs[..i])
      {
        assert jobs[..i + 1][..i] == jobs[..i];
        bytes := bytes + jobs[i].bytes;
        i := i + 1;
      }
      assert jobs[..i] == jobs;
      var refusal := closedOrFull;
      if |jobs| == 0 {
        return [];
      }
      if |jobs| > MAX_WRITE_BATCH || (|jobs| > 1 && bytes > MAX_BATCH_BYTES) {
        refusal := Some(Err(503, WriterGroupTooLarge));
      } else {
        var k := 0;
        while k < |jobs| && jobs[k].offered.None?
          invariant 0 <= k <= |jobs| && FirstCancelled(jobs) == FirstCancelled(jobs[k..])
        {
          k := k + 1;
        }
        if k < |jobs| {
          refusal := jobs[k].offered;
        }
      }
      if refusal.Some? {
        return seq(|jobs|, _ => Answer(None, false, refusal));
      }
      results := ExecuteBatch(jobs, faults);
    }
  }
}
