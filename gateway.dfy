// redis-app/gateway: POST /jobs creates a job hash and enqueues its id,
// GET /jobs/{id} reads it back; every Redis command goes through
// time_redis_cmd.
module Gateway {
  import opened Wrappers
  import opened Redis
  import opened Web
  import JobLookup

  const QueueKey := "jobs_queue"
  const Component := "gateway"

  datatype Metrics = Metrics(enqueued: nat, enqueueLatency: seq<real>, redis: CommandMetrics)

  datatype State = State(db: Db, m: Metrics)

  /**
   * What one create_job call meets: the fresh uuid, str(time.time()),
   * str(payload), the outcomes and durations of HSET and LPUSH, and the
   * handler's whole duration.
   */
  datatype CreateWorld = CreateWorld(
    jobId: string, createdAt: string, payloadText: string,
    hset: Outcome, hsetTime: real, lpush: Outcome, lpushTime: real, elapsed: real)

  function JobKey(id: string): string { JobLookup.JobKey(id) }

  function JobMeta(w: CreateWorld): map<string, string> {
    map["id" := w.jobId, "status" := "pending", "created_at" := w.createdAt, "payload" := w.payloadText]
  }

  /** The new state and reply of create_job; an exception from either command propagates (500). */
  function CreateJobStep(s: State, dst: string, w: CreateWorld): (State, Response) {
    var m1 := s.m.(redis := Timed(s.m.redis, Label(Component, "HSET", dst), w.hset, w.hsetTime));
    if !w.hset.Done? then (s.(m := m1), Unhandled)
    else
      var db1 := s.db.HSet(JobKey(w.jobId), JobMeta(w));
      var m2 := m1.(redis := Timed(m1.redis, Label(Component, "LPUSH", dst), w.lpush, w.lpushTime));
      if !w.lpush.Done? then (State(db1, m2), Unhandled)
      else
        (State(db1.LPush(QueueKey, w.jobId), m2.(enqueued := m2.enqueued + 1, enqueueLatency := m2.enqueueLatency + [w.elapsed])),
         Response(200, map["job_id" := JStr(w.jobId)]))
  }

  /** The hash is written before the push: when HSET raises, nothing is written and nothing is queued. */
  lemma {:induction false} HashBeforePush(s: State, dst: string, w: CreateWorld)
    requires !w.hset.Done?
    ensures var (s', r) := CreateJobStep(s, dst, w);
      s'.db == s.db && r == Unhandled && s'.m.enqueued == s.m.enqueued
  {
  }

  /** After a successful create_job the job hash carries the returned id and status pending. */
  lemma {:induction false} CreatedHash(s: State, dst: string, w: CreateWorld)
    requires w.hset.Done? && w.lpush.Done?
    ensures var (s', r) := CreateJobStep(s, dst, w);
      r.code == 200 && r.body == map["job_id" := JStr(w.jobId)] &&
      s'.db.HGet(JobKey(w.jobId), "id") == Some(w.jobId) &&
      s'.db.HGet(JobKey(w.jobId), "status") == Some("pending")
  {
    var key := JobKey(w.jobId);
    HSetThenHGet(s.db, key, JobMeta(w), key, "id");
    HSetThenHGet(s.db, key, JobMeta(w), key, "status");
  }

  /** The queue grows by the new id at its head; no other list, marker or notification changes, and only the new job's hash. */
  lemma {:induction false} QueueGrowsByOne(s: State, dst: string, w: CreateWorld)
    requires w.hset.Done? && w.lpush.Done?
    ensures var (s', _) := CreateJobStep(s, dst, w);
      s'.db.List(QueueKey) == [w.jobId] + s.db.List(QueueKey) &&
      (forall k :: k != QueueKey ==> s'.db.List(k) == s.db.List(k)) &&
      (forall k :: k != JobKey(w.jobId) ==> s'.db.Hash(k) == s.db.Hash(k)) &&
      s'.db.keys == s.db.keys && s'.db.published == s.db.published
  {
    var db1 := s.db.HSet(JobKey(w.jobId), JobMeta(w));
    HSetFrame(s.db, JobKey(w.jobId), JobMeta(w));
    LPushGrows(db1, QueueKey, w.jobId);
  }

  /** The enqueued counter grows by one exactly when both commands succeeded. */
  lemma {:induction false} EnqueuedAfterBoth(s: State, dst: string, w: CreateWorld)
    ensures var (s', r) := CreateJobStep(s, dst, w);
      s'.m.enqueued == s.m.enqueued + (if w.hset.Done? && w.lpush.Done? then 1 else 0) &&
      (r.code == 200 <==> w.hset.Done? && w.lpush.Done?)
  {
  }

  /** The running gateway: its Redis client, the client's host:port label, and its metrics. */
  class Service {
    const store: Store
    const dst: string
    var metrics: Metrics

    function Model(): State
      reads this, store
    {
      State(store.Snapshot(), metrics)
    }

    constructor (client: Store, redisDst: string)
      ensures store == client && dst == redisDst && metrics == Metrics(0, [], CommandMetrics(map[], map[]))
    {
      store := client;
      dst := redisDst;
      metrics := Metrics(0, [], CommandMetrics(map[], map[]));
    }

    /** time_redis_cmd's bookkeeping for one command. */
    method Record(cmd: string, o: Outcome, elapsed: real)
      modifies this
      ensures metrics == old(metrics).(redis := Timed(old(metrics).redis, Label(Component, cmd, dst), o, elapsed))
    {
      metrics := metrics.(redis := Timed(metrics.redis, Label(Component, cmd, dst), o, elapsed));
    }

    /** POST /jobs. */
    method CreateJob(w: CreateWorld) returns (resp: Response)
      modifies this, store
      ensures (Model(), resp) == CreateJobStep(old(Model()), dst, w)
    {
      var key := JobKey(w.jobId);
      Record("HSET", w.hset, w.hsetTime);
      if !w.hset.Done? {
        return Unhandled;
      }
      store.HSet(key, JobMeta(w));
      Record("LPUSH", w.lpush, w.lpushTime);
      if !w.lpush.Done? {
        return Unhandled;
      }
      store.LPush(QueueKey, w.jobId);
      metrics := metrics.(enqueued := metrics.enqueued + 1, enqueueLatency := metrics.enqueueLatency + [w.elapsed]);
      resp := Response(200, map["job_id" := JStr(w.jobId)]);
    }

    /** GET /jobs/{job_id}: reads the store and records the two commands. */
    method GetJob(id: string, w: JobLookup.World) returns (resp: Response)
      modifies this
      ensures store.Snapshot() == old(store.Snapshot())
      ensures (metrics.redis, resp) == JobLookup.GetJob(store.Snapshot(), old(metrics).redis, Component, dst, id, w)
      ensures metrics == old(metrics).(redis := metrics.redis)
    {
      var key := JobLookup.JobKey(id);
      Record("EXISTS", w.probe, w.probeTime);
      if !w.probe.Done? {
        return Unhandled;
      }
      var present := store.Exists(key);
      if !present {
        return Response(404, map["detail" := JStr("job not found")]);
      }
      Record("HGETALL", w.fetch, w.fetchTime);
      if !w.fetch.Done? {
        return Unhandled;
      }
      var h := store.HGetAll(key);
      resp := Response(200, JobLookup.HashBody(h));
    }
  }
}
