// redis-app/worker: the loop that pops job ids from the tail of the queue
// and processes each one, recording its progress in the job hash.
module Worker {
  import opened Wrappers
  import opened Redis
  import FixedPoint

  const QueueKey := "jobs_queue"

  datatype Metrics = Metrics(processed: nat, processingTime: seq<real>)

  datatype State = State(db: Db, m: Metrics)

  /** What processing one job meets: the two HSETs, the clock texts, and the simulated work time drawn from [0.2, 2.0]. */
  datatype JobWorld = JobWorld(start: Outcome, startedAt: string, workTime: real, finish: Outcome, finishedAt: string)

  /** One pass of the loop: BRPOP's outcome and what the popped job then meets. */
  datatype Pass = Pass(pop: Outcome, job: JobWorld)

  function JobKey(id: string): string { "job:" + id }

  /** The result text, f"processed in {work_time:.2f}s". */
  function ResultText(workTime: real): string {
    "processed in " + FixedPoint.FormatFloat(workTime, 2) + "s"
  }

  function Started(w: JobWorld): map<string, string> {
    map["status" := "processing", "started_at" := w.startedAt]
  }

  function Completed(w: JobWorld): map<string, string> {
    map["status" := "done", "finished_at" := w.finishedAt, "result" := ResultText(w.workTime)]
  }

  /** process_job: the new state and whether it returned normally (an exception propagates to the loop). */
  function ProcessJobStep(s: State, id: string, w: JobWorld): (State, bool) {
    if !w.start.Done? then (s, false)
    else
      var s1 := State(s.db.HSet(JobKey(id), Started(w)), s.m.(processingTime := s.m.processingTime + [w.workTime]));
      if !w.finish.Done? then (s1, false)
      else (State(s1.db.HSet(JobKey(id), Completed(w)), s1.m.(processed := s1.m.processed + 1)), true)
  }

  /** One iteration of worker_loop: a failed BRPOP and a timeout change nothing; a popped id is processed. */
  function Step(s: State, p: Pass): State {
    if !p.pop.Done? then s
    else
      var (db1, item) := s.db.RPop(QueueKey);
      if item.None? then s else ProcessJobStep(s.(db := db1), item.value, p.job).0
  }

  /** The state after a finite prefix of the (endless) loop. */
  function Run(s: State, passes: seq<Pass>): State
    decreases |passes|
  {
    if passes == [] then s else Step(Run(s, passes[..|passes| - 1]), passes[|passes| - 1])
  }

  /** A job that returns normally ends done, with its finish time and result text, and is counted once. */
  lemma {:induction false} ProcessJobDone(s: State, id: string, w: JobWorld)
    ensures var (s', ok) := ProcessJobStep(s, id, w);
      (ok <==> w.start.Done? && w.finish.Done?) &&
      s'.m.processed == s.m.processed + (if ok then 1 else 0) &&
      (ok ==>
        (s'.db.HGet(JobKey(id), "status") == Some("done") &&
         s'.db.HGet(JobKey(id), "result") == Some(ResultText(w.workTime)) &&
         s'.db.HGet(JobKey(id), "finished_at") == Some(w.finishedAt) &&
         s'.db.HGet(JobKey(id), "started_at") == Some(w.startedAt))) &&
      (w.start.Done? && !w.finish.Done? ==> s'.db.HGet(JobKey(id), "status") == Some("processing"))
  {
    var key := JobKey(id);
    var d1 := s.db.HSet(key, Started(w));
    HSetThenHGet(s.db, key, Started(w), key, "status");
    HSetThenHGet(s.db, key, Started(w), key, "started_at");
    HSetThenHGet(d1, key, Completed(w), key, "status");
    HSetThenHGet(d1, key, Completed(w), key, "result");
    HSetThenHGet(d1, key, Completed(w), key, "finished_at");
    HSetThenHGet(d1, key, Completed(w), key, "started_at");
  }

  /** Processing a job touches only that job's hash. */
  lemma {:induction false} ProcessJobFrame(s: State, id: string, w: JobWorld)
    ensures var s' := ProcessJobStep(s, id, w).0;
      s'.db.lists == s.db.lists && s'.db.keys == s.db.keys && s'.db.published == s.db.published &&
      forall k :: k != JobKey(id) ==> s'.db.Hash(k) == s.db.Hash(k)
  {
    var d1 := s.db.HSet(JobKey(id), Started(w));
    HSetFrame(s.db, JobKey(id), Started(w));
    HSetFrame(d1, JobKey(id), Completed(w));
  }

  /**
   * Each pass removes at most one id, the tail of the queue, and never
   * puts it back: the queue afterwards is the queue before, or the queue
   * without its last element, and processed grows by at most one.
   */
  lemma {:induction false} StepTakesTail(s: State, p: Pass)
    ensures var s' := Step(s, p);
      var l := s.db.List(QueueKey);
      (s'.db.List(QueueKey) == l || (l != [] && s'.db.List(QueueKey) == l[..|l| - 1])) &&
      (!p.pop.Done? || l == [] ==> s' == s) &&
      s'.m.processed <= s.m.processed + 1
  {
    if p.pop.Done? && s.db.List(QueueKey) != [] {
      var (db1, item) := s.db.RPop(QueueKey);
      RPopTail(s.db, QueueKey);
      ProcessJobFrame(s.(db := db1), item.value, p.job);
    }
  }

  /** An exception after the pop loses the id: it is gone from the queue, and the loop goes on with the next pass. */
  lemma {:induction false} FailedJobNotRequeued(s: State, p: Pass)
    requires p.pop.Done? && s.db.List(QueueKey) != [] && !p.job.start.Done?
    ensures var l := s.db.List(QueueKey);
      Step(s, p).db.List(QueueKey) == l[..|l| - 1] && Step(s, p).db.hashes == s.db.hashes &&
      Step(s, p).m == s.m
  {
    RPopTail(s.db, QueueKey);
  }

  /** Over any number of passes the queue only loses elements from its tail, at most one per pass. */
  lemma {:induction false} RunShrinksFromTail(s: State, passes: seq<Pass>)
    ensures Run(s, passes).db.List(QueueKey) <= s.db.List(QueueKey)
    ensures |s.db.List(QueueKey)| - |Run(s, passes).db.List(QueueKey)| <= |passes|
    ensures Run(s, passes).m.processed <= s.m.processed + |passes|
    decreases |passes|
  {
    if passes != [] {
      var before := Run(s, passes[..|passes| - 1]);
      RunShrinksFromTail(s, passes[..|passes| - 1]);
      StepTakesTail(before, passes[|passes| - 1]);
    }
  }

  /** The running worker: its Redis client and metrics. */
  class Service {
    const store: Store
    var metrics: Metrics

    function Model(): State
      reads this, store
    {
      State(store.Snapshot(), metrics)
    }

    constructor (client: Store)
      ensures store == client && metrics == Metrics(0, [])
    {
      store := client;
      metrics := Metrics(0, []);
    }

    /** process_job; `ok` is false when an HSET raised. */
    method ProcessJob(id: string, w: JobWorld) returns (ok: bool)
      modifies this, store
      ensures (Model(), ok) == ProcessJobStep(old(Model()), id, w)
    {
      if !w.start.Done? {
        return false;
      }
      store.HSet(JobKey(id), Started(w));
      metrics := metrics.(processingTime := metrics.processingTime + [w.workTime]);
      if !w.finish.Done? {
        return false;
      }
      store.HSet(JobKey(id), Completed(w));
      metrics := metrics.(processed := metrics.processed + 1);
      ok := true;
    }

    /** worker_loop, run for the given passes. */
    method Loop(passes: seq<Pass>)
      modifies this, store
      ensures Model() == Run(old(Model()), passes)
    {
      for i := 0 to |passes|
        invariant Model() == Run(old(Model()), passes[..i])
      {
        var p := passes[i];
        if p.pop.Done? {
          var item := store.RPop(QueueKey);
          if item.Some? {
            var _ := ProcessJob(item.value, p.job);
          }
        }
        assert passes[..i + 1][..i] == passes[..i];
      }
      assert passes[..|passes|] == passes;
    }
  }
}
