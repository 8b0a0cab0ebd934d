// redis-app/backend: the queue-length endpoint and gauge, the job lookup,
// and the gauge refresh done before each /metrics scrape.
module Backend {
  import opened Redis
  import opened Web
  import JobLookup

  const QueueKey := "jobs_queue"
  const Component := "backend"

  /** The backend_queue_length gauge and the Redis client metrics. */
  datatype Metrics = Metrics(queueLength: int, redis: CommandMetrics)

  /** GET /queue/length: LLEN through time_redis_cmd, then the gauge; an exception propagates (500). */
  function QueueLengthStep(db: Db, m: Metrics, dst: string, o: Outcome, elapsed: real): (Metrics, Response) {
    var m1 := m.(redis := Timed(m.redis, Label(Component, "LLEN", dst), o, elapsed));
    if !o.Done? then (m1, Unhandled)
    else (m1.(queueLength := db.LLen(QueueKey)), Response(200, map["queue_length" := JInt(db.LLen(QueueKey))]))
  }

  /** The refresh in /metrics: the gauge takes the length when LLEN answers and keeps its value otherwise. */
  function RefreshStep(db: Db, m: Metrics, dst: string, o: Outcome, elapsed: real): Metrics {
    var m1 := m.(redis := Timed(m.redis, Label(Component, "LLEN", dst), o, elapsed));
    if o.Done? then m1.(queueLength := db.LLen(QueueKey)) else m1
  }

  /** queue_length reports the length of the queue and leaves the gauge equal to it. */
  lemma {:induction false} QueueLengthReported(db: Db, m: Metrics, dst: string, o: Outcome, elapsed: real)
    requires o.Done?
    ensures var (m', r) := QueueLengthStep(db, m, dst, o, elapsed);
      r.code == 200 && r.body["queue_length"] == JInt(|db.List(QueueKey)|) && m'.queueLength == |db.List(QueueKey)|
  {
  }

  /** A failed LLEN leaves the gauge as it was, counts one error under the LLEN label, and the scrape still proceeds. */
  lemma {:induction false} RefreshKeepsGauge(db: Db, m: Metrics, dst: string, o: Outcome, elapsed: real)
    requires !o.Done?
    ensures var m' := RefreshStep(db, m, dst, o, elapsed);
      m'.queueLength == m.queueLength &&
      m'.redis.Errors(Label(Component, "LLEN", dst)) == m.redis.Errors(Label(Component, "LLEN", dst)) + 1
  {
  }

  /** The refresh and the endpoint leave the gauge at the same value when LLEN answers. */
  lemma {:induction false} RefreshAgreesWithEndpoint(db: Db, m: Metrics, dst: string, elapsed: real)
    ensures RefreshStep(db, m, dst, Done, elapsed) == QueueLengthStep(db, m, dst, Done, elapsed).0
  {
  }

  /** The running backend; it only reads the store. */
  class Service {
    const store: Store
    const dst: string
    var metrics: Metrics

    constructor (client: Store, redisDst: string)
      ensures store == client && dst == redisDst && metrics == Metrics(0, CommandMetrics(map[], map[]))
    {
      store := client;
      dst := redisDst;
      metrics := Metrics(0, CommandMetrics(map[], map[]));
    }

    /** time_redis_cmd's bookkeeping for one command. */
    method Record(cmd: string, o: Outcome, elapsed: real)
      modifies this
      ensures metrics == old(metrics).(redis := Timed(old(metrics).redis, Label(Component, cmd, dst), o, elapsed))
    {
      metrics := metrics.(redis := Timed(metrics.redis, Label(Component, cmd, dst), o, elapsed));
    }

    /** GET /queue/length. */
    method QueueLength(o: Outcome, elapsed: real) returns (resp: Response)
      modifies this
      ensures (metrics, resp) == QueueLengthStep(store.Snapshot(), old(metrics), dst, o, elapsed)
    {
      Record("LLEN", o, elapsed);
      if !o.Done? {
        return Unhandled;
      }
      var length := store.LLen(QueueKey);
      metrics := metrics.(queueLength := length);
      resp := Response(200, map["queue_length" := JInt(length)]);
    }

    /** GET /jobs/{job_id}. */
    method GetJob(id: string, w: JobLookup.World) returns (resp: Response)
      modifies this
      ensures (metrics.redis, resp) == JobLookup.GetJob(store.Snapshot(), old(metrics).redis, Component, dst, id, w)
      ensures metrics.queueLength == old(metrics).queueLength
    {
      var key := JobLookup.JobKey(id);
      Record("EXISTS", w.probe, w.probeTime);
      if !w.probe.Done? {
        return Unhandled;
      }
      var present := store.Exists(key);
      if !present {
        return Response(404, map["detail" := JStr("job not found")]);
      }
      Record("HGETALL", w.fetch, w.fetchTime);
      if !w.fetch.Done? {
        return Unhandled;
      }
      var h := store.HGetAll(key);
      resp := Response(200, JobLookup.HashBody(h));
    }

    /** The gauge refresh of GET /metrics; the exposition text itself is not modelled. */
    method RefreshGauge(o: Outcome, elapsed: real)
      modifies this
      ensures metrics == RefreshStep(store.Snapshot(), old(metrics), dst, o, elapsed)
    {
      Record("LLEN", o, elapsed);
      if o.Done? {
        var length := store.LLen(QueueKey);
        metrics := metrics.(queueLength := length);
      }
    }
  }
}
