// GET /jobs/{job_id} as the gateway and the backend both serve it: EXISTS,
// then HGETALL, each through time_redis_cmd, and 404 when the job is unknown.
module JobLookup {
  import opened Redis
  import opened Web

  function JobKey(id: string): string { "job:" + id }

  /** The answers of the two commands: outcomes and elapsed times. */
  datatype World = World(probe: Outcome, probeTime: real, fetch: Outcome, fetchTime: real)

  /** A hash as the JSON object FastAPI returns for it. */
  function HashBody(h: map<string, string>): (b: map<string, Json>)
    ensures b.Keys == h.Keys && forall k :: k in h ==> b[k] == JStr(h[k])
  {
    map k | k in h :: JStr(h[k])
  }

  /** The metric updates and the reply of one lookup; the database is only read. */
  function GetJob(db: Db, m: CommandMetrics, component: string, dst: string, id: string, w: World): (CommandMetrics, Response) {
    var m1 := Timed(m, Label(component, "EXISTS", dst), w.probe, w.probeTime);
    if !w.probe.Done? then (m1, Unhandled)
    else if !db.Exists(JobKey(id)) then (m1, Response(404, map["detail" := JStr("job not found")]))
    else
      var m2 := Timed(m1, Label(component, "HGETALL", dst), w.fetch, w.fetchTime);
      if !w.fetch.Done? then (m2, Unhandled) else (m2, Response(200, HashBody(db.Hash(JobKey(id)))))
  }

  /** 404 exactly when EXISTS answered and the key is absent; otherwise the full hash, field for field, when both commands answered. */
  lemma {:induction false} NotFoundIff(db: Db, m: CommandMetrics, component: string, dst: string, id: string, w: World)
    ensures var (_, r) := GetJob(db, m, component, dst, id, w);
      (r.code == 404 <==> w.probe.Done? && !db.Exists(JobKey(id))) &&
      (w.probe.Done? && w.fetch.Done? && db.Exists(JobKey(id)) ==>
        r.code == 200 && r.body.Keys == db.Hash(JobKey(id)).Keys &&
        forall f :: f in db.Hash(JobKey(id)) ==> r.body[f] == JStr(db.Hash(JobKey(id))[f]))
  {
  }

  /** Each command issued records one latency sample; a failed command also counts one error and ends the request with 500. */
  lemma {:induction false} LookupMetrics(db: Db, m: CommandMetrics, component: string, dst: string, id: string, w: World)
    ensures var (m', r) := GetJob(db, m, component, dst, id, w);
      var e := Label(component, "EXISTS", dst);
      m'.Latency(e) == m.Latency(e) + [w.probeTime] &&
      m'.Errors(e) == m.Errors(e) + (if w.probe.Done? then 0 else 1) &&
      (r.code == 500 <==> !w.probe.Done? || (db.Exists(JobKey(id)) && !w.fetch.Done?))
  {
    var e := Label(component, "EXISTS", dst);
    var h := Label(component, "HGETALL", dst);
    assert e != h;
  }
}
