// micro-pipeline/aggregator: the /finalize handler, which stores a
// processed image for a job exactly once and marks the job finished in
// Redis, and the /ready and /health probes.
module Aggregator {
  import opened Wrappers
  import opened Strings
  import opened Redis
  import opened Web

  const JobsDir := "jobs"
  const MaxResultBytes := 50 * 1024 * 1024

  /** The /finalize body as get_json(silent=True) and dict.get see it; a field is None when absent. */
  datatype Request =
    | InvalidJson
    | NotAnObject
    | Fields(jobId: Option<string>, processedB64: Option<string>)

  /** A field is truthy: present and non-empty. */
  predicate Present(o: Option<string>) { o.Some? && |o.value| > 0 }

  /**
   * The Prometheus metrics of the service: the finalized, error and
   * duplicate counters, the saved-size samples and the finalize-duration
   * samples in seconds.
   */
  datatype Metrics = Metrics(total: nat, errors: nat, duplicates: nat, savedBytes: seq<nat>, durations: seq<real>)

  /** Everything finalize can change: the Redis database, the jobs directory, the metrics. */
  datatype State = State(db: Db, files: map<string, Bytes>, m: Metrics)

  /**
   * What the outside world answers during one call: the HGET of the status,
   * the best-effort HSET of `finalizing`, the base64 decoding of the
   * payload, the file write, the final HSET, the PUBLISH, the clock
   * text stored as finished_at, the seconds elapsed since the request
   * arrived (time.time() - start when the duration is observed) and the
   * node identity.
   */
  datatype World = World(
    read: Outcome, mark: Outcome, decoded: Decoding, writeOk: bool,
    finish: Outcome, publish: Outcome, finishedAt: string, elapsed: real, node: Json)

  /** os.path.join of two components: an absolute second component replaces the first. */
  function PathJoin(dir: string, name: string): (p: string)
    ensures StartsWith(name, "/") ==> p == name
    ensures !StartsWith(name, "/") && dir != "" ==> StartsWith(p, dir) && EndsWith(p, name)
  {
    if StartsWith(name, "/") || dir == "" then name
    else if EndsWith(dir, "/") then dir + name
    else dir + "/" + name
  }

  function JobKey(id: string): string { "job:" + id }

  function ResultPath(id: string): string { PathJoin(JobsDir, id + ".png") }

  function CountError(s: State): State { s.(m := s.m.(errors := s.m.errors + 1)) }

  /** The reply and the new state of one /finalize call. `hasClient` is false when the Redis client could not be created. */
  function FinalizeStep(s: State, hasClient: bool, req: Request, w: World): (State, Response) {
    match req
    case InvalidJson => (CountError(s), ErrorResponse("invalid_json", 400))
    case NotAnObject => (s, Unhandled)
    case Fields(jobId, b64) =>
      if !Present(jobId) || !Present(b64) then
        (CountError(s), ErrorResponse("missing_job_id_or_processed_b64", 400))
      else if !hasClient then (CountError(s), ErrorResponse("redis_unavailable", 503))
      else FinalizeJob(s, jobId.value, w)
  }

  /** From the status read on: the duplicate check and the best-effort `finalizing` mark. */
  function FinalizeJob(s: State, id: string, w: World): (State, Response) {
    match w.read
    case ConnectionError => (CountError(s), ErrorResponse("redis_unavailable", 503))
    case RedisError => (CountError(s), ErrorResponse("redis_error", 503))
    case OtherError => (CountError(s), ErrorResponse("internal_error", 500))
    case Done =>
      if s.db.HGet(JobKey(id), "status") == Some("finished") then
        (s.(m := s.m.(duplicates := s.m.duplicates + 1)),
         Response(200, map["status" := JStr("already_finished"), "node" := w.node]))
      else
        var s1 := if w.mark.Done? then s.(db := s.db.HSet(JobKey(id), map["status" := "finalizing"])) else CountError(s);
        SaveResult(s1, id, w)
  }

  /** From the decoding on: payload bounds, file write, final HSET and PUBLISH. */
  function SaveResult(s: State, id: string, w: World): (State, Response) {
    match w.decoded
    case Malformed => (CountError(s), ErrorResponse("invalid_base64", 400))
    case DecodeRaised => (s, Unhandled)
    case Decoded(bytes) =>
      if |bytes| == 0 then (CountError(s), ErrorResponse("empty_processed_payload", 400))
      else if |bytes| > MaxResultBytes then (CountError(s), ErrorResponse("payload_too_large", 413))
      else if !w.writeOk then (CountError(s), ErrorResponse("file_write_error", 500))
      else
        var path := ResultPath(id);
        var s1 := s.(files := s.files[path := bytes], m := s.m.(savedBytes := s.m.savedBytes + [|bytes|]));
        var s2 := if w.finish.Done? then
            s1.(db := s1.db.HSet(JobKey(id), map["status" := "finished", "result_path" := path, "finished_at" := w.finishedAt]))
          else CountError(s1);
        var s3 := if w.publish.Done? then s2.(db := s2.db.Publish("notifications", "job:" + id + ":finished")) else s2;
        (s3.(m := s3.m.(total := s3.m.total + 1, durations := s3.m.durations + [w.elapsed])), Finished(path, |bytes|, w.node, !w.finish.Done?))
  }

  /** The success reply, with the warning when the final HSET failed. */
  function Finished(path: string, size: nat, node: Json, warn: bool): Response {
    var body := map["status" := JStr("finished"), "path" := JStr(path), "bytes" := JInt(size), "node" := node];
    Response(200, if warn then body["warnings" := JList([JStr("redis_update_failed")])] else body)
  }

  /** A request that names its job and payload and reaches the store. */
  predicate Reaches(hasClient: bool, req: Request) {
    req.Fields? && Present(req.jobId) && Present(req.processedB64) && hasClient
  }

  /** Malformed requests and a missing client are answered before any store access: nothing but the error counter changes. */
  lemma {:induction false} ValidationFirst(s: State, hasClient: bool, req: Request, w: World, w': World)
    requires !Reaches(hasClient, req)
    ensures FinalizeStep(s, hasClient, req, w) == FinalizeStep(s, hasClient, req, w')
    ensures var (s', r) := FinalizeStep(s, hasClient, req, w);
      s'.db == s.db && s'.files == s.files && s'.m.total == s.m.total && s'.m.duplicates == s.m.duplicates &&
      r.code == (if req.NotAnObject? then 500 else if req.Fields? && Present(req.jobId) && Present(req.processedB64) then 503 else 400)
  {
  }

  /** The precedence of the early rejections: invalid JSON, then a missing field, then the client. */
  lemma {:induction false} ValidationOrder(s: State, hasClient: bool, id: Option<string>, b64: Option<string>, w: World)
    ensures FinalizeStep(s, hasClient, InvalidJson, w).1 == ErrorResponse("invalid_json", 400)
    ensures !Present(id) || !Present(b64) ==>
      FinalizeStep(s, hasClient, Fields(id, b64), w).1 == ErrorResponse("missing_job_id_or_processed_b64", 400)
    ensures Present(id) && Present(b64) && !hasClient ==>
      FinalizeStep(s, hasClient, Fields(id, b64), w).1 == ErrorResponse("redis_unavailable", 503)
  {
  }

  /** The status read's exceptions map to 503 redis_unavailable, 503 redis_error and 500 internal_error, with no write. */
  lemma {:induction false} ReadFailure(s: State, id: string, b64: string, w: World)
    requires |id| > 0 && |b64| > 0 && !w.read.Done?
    ensures var (s', r) := FinalizeStep(s, true, Fields(Some(id), Some(b64)), w);
      s' == CountError(s) &&
      r == match w.read
        case ConnectionError => ErrorResponse("redis_unavailable", 503)
        case RedisError => ErrorResponse("redis_error", 503)
        case _ => ErrorResponse("internal_error", 500)
  {
  }

  /** A job already finished is answered 200 already_finished; only the duplicate counter changes. */
  lemma {:induction false} DuplicateShortCircuit(s: State, id: string, b64: string, w: World)
    requires |id| > 0 && |b64| > 0 && w.read.Done?
    requires s.db.HGet(JobKey(id), "status") == Some("finished")
    ensures var (s', r) := FinalizeStep(s, true, Fields(Some(id), Some(b64)), w);
      s'.db == s.db && s'.files == s.files &&
      s'.m == s.m.(duplicates := s.m.duplicates + 1) &&
      r.code == 200 && r.body["status"] == JStr("already_finished")
  {
  }

  /** The payload bounds: empty is 400, above the maximum 413, and any size from 1 to the maximum itself is stored. */
  lemma {:induction false} PayloadBounds(s: State, id: string, bytes: Bytes, w: World)
    requires w.decoded == Decoded(bytes) && w.writeOk
    ensures var r := SaveResult(s, id, w).1;
      (|bytes| == 0 <==> r == ErrorResponse("empty_processed_payload", 400)) &&
      (|bytes| > MaxResultBytes <==> r == ErrorResponse("payload_too_large", 413)) &&
      (0 < |bytes| <= MaxResultBytes <==> r.code == 200)
  {
  }

  /** A rejected payload leaves the status that the `finalizing` mark wrote. */
  lemma {:induction false} RejectLeavesFinalizing(s: State, id: string, b64: string, w: World)
    requires |id| > 0 && |b64| > 0 && w.read.Done? && w.mark.Done?
    requires s.db.HGet(JobKey(id), "status") != Some("finished")
    requires !w.decoded.Decoded? || |w.decoded.bytes| == 0 || |w.decoded.bytes| > MaxResultBytes
    ensures var (s', r) := FinalizeStep(s, true, Fields(Some(id), Some(b64)), w);
      r.code != 200 && s'.db.HGet(JobKey(id), "status") == Some("finalizing") && s'.files == s.files && s'.m.total == s.m.total
  {
    HSetThenHGet(s.db, JobKey(id), map["status" := "finalizing"], JobKey(id), "status");
  }

  /** On success the job hash says finished with the result path and time, the file holds the payload, and the reply gives path and size. */
  lemma {:induction false} SuccessState(s: State, id: string, b64: string, w: World)
    requires |id| > 0 && |b64| > 0 && w.read.Done? && w.finish.Done? && w.writeOk
    requires s.db.HGet(JobKey(id), "status") != Some("finished")
    requires w.decoded.Decoded? && 0 < |w.decoded.bytes| <= MaxResultBytes
    ensures var (s', r) := FinalizeStep(s, true, Fields(Some(id), Some(b64)), w);
      s'.db.HGet(JobKey(id), "status") == Some("finished") &&
      s'.db.HGet(JobKey(id), "result_path") == Some(ResultPath(id)) &&
      s'.db.HGet(JobKey(id), "finished_at") == Some(w.finishedAt) &&
      s'.files == s.files[ResultPath(id) := w.decoded.bytes] &&
      r.code == 200 && r.body["path"] == JStr(ResultPath(id)) && r.body["bytes"] == JInt(|w.decoded.bytes|) &&
      "warnings" !in r.body
  {
    var s1 := if w.mark.Done? then s.(db := s.db.HSet(JobKey(id), map["status" := "finalizing"])) else CountError(s);
    assert FinalizeStep(s, true, Fields(Some(id), Some(b64)), w) == SaveResult(s1, id, w);
    SaveSuccess(s1, id, w);
  }

  lemma {:induction false} SaveSuccess(s: State, id: string, w: World)
    requires w.finish.Done? && w.writeOk && w.decoded.Decoded? && 0 < |w.decoded.bytes| <= MaxResultBytes
    ensures var (s', r) := SaveResult(s, id, w);
      s'.db.HGet(JobKey(id), "status") == Some("finished") &&
      s'.db.HGet(JobKey(id), "result_path") == Some(ResultPath(id)) &&
      s'.db.HGet(JobKey(id), "finished_at") == Some(w.finishedAt) &&
      s'.files == s.files[ResultPath(id) := w.decoded.bytes] &&
      r.code == 200 && r.body["path"] == JStr(ResultPath(id)) && r.body["bytes"] == JInt(|w.decoded.bytes|) &&
      "warnings" !in r.body
  {
    var key, path := JobKey(id), ResultPath(id);
    var fin := map["status" := "finished", "result_path" := path, "finished_at" := w.finishedAt];
    var d2 := s.db.HSet(key, fin);
    HSetThenHGet(s.db, key, fin, key, "status");
    HSetThenHGet(s.db, key, fin, key, "result_path");
    HSetThenHGet(s.db, key, fin, key, "finished_at");
    assert d2.Publish("notifications", "job:" + id + ":finished").hashes == d2.hashes;
  }

  /** A failed final HSET still answers 200 finished, with the redis_update_failed warning. */
  lemma {:induction false} FinishFailureWarns(s: State, id: string, bytes: Bytes, w: World)
    requires w.decoded == Decoded(bytes) && 0 < |bytes| <= MaxResultBytes && w.writeOk && !w.finish.Done?
    ensures var r := SaveResult(s, id, w).1;
      r.code == 200 && r.body["status"] == JStr("finished") &&
      r.body["warnings"] == JList([JStr("redis_update_failed")])
  {
  }

  /** The PUBLISH outcome never changes the reply, nor anything but the notification log. */
  lemma {:induction false} PublishIndependent(s: State, hasClient: bool, req: Request, w: World, p: Outcome)
    ensures var (s1, r1) := FinalizeStep(s, hasClient, req, w);
      var (s2, r2) := FinalizeStep(s, hasClient, req, w.(publish := p));
      r1 == r2 && s1.files == s2.files && s1.m == s2.m && s1.db.hashes == s2.db.hashes
  {
    if Reaches(hasClient, req) && w.read.Done? && s.db.HGet(JobKey(req.jobId.value), "status") != Some("finished") {
      var id := req.jobId.value;
      var s1 := if w.mark.Done? then s.(db := s.db.HSet(JobKey(id), map["status" := "finalizing"])) else CountError(s);
      SavePublishIndependent(s1, id, w, p);
    }
  }

  lemma {:induction false} SavePublishIndependent(s: State, id: string, w: World, p: Outcome)
    ensures var (s1, r1) := SaveResult(s, id, w);
      var (s2, r2) := SaveResult(s, id, w.(publish := p));
      r1 == r2 && s1.files == s2.files && s1.m == s2.m && s1.db.hashes == s2.db.hashes
  {
    if w.decoded.Decoded? && 0 < |w.decoded.bytes| <= MaxResultBytes && w.writeOk {
      var bytes, path := w.decoded.bytes, ResultPath(id);
      var s1 := s.(files := s.files[path := bytes], m := s.m.(savedBytes := s.m.savedBytes + [|bytes|]));
      var s2 := if w.finish.Done? then
          s1.(db := s1.db.HSet(JobKey(id), map["status" := "finished", "result_path" := path, "finished_at" := w.finishedAt]))
        else CountError(s1);
      assert s2.db.Publish("notifications", "job:" + id + ":finished").hashes == s2.db.hashes;
    }
  }

  /**
   * The finalized counter grows by one and the elapsed time is observed as
   * one finalize duration exactly on a 200 finished reply; otherwise both
   * stay.
   */
  lemma {:induction false} TotalCountsSuccess(s: State, hasClient: bool, req: Request, w: World)
    ensures var (s', r) := FinalizeStep(s, hasClient, req, w);
      s'.m.total == s.m.total + (if r.code == 200 && r.body["status"] == JStr("finished") then 1 else 0)
    ensures var (s', r) := FinalizeStep(s, hasClient, req, w);
      s'.m.durations == s.m.durations + (if r.code == 200 && r.body["status"] == JStr("finished") then [w.elapsed] else [])
  {
    if Reaches(hasClient, req) && w.read.Done? && s.db.HGet(JobKey(req.jobId.value), "status") != Some("finished") {
      var id := req.jobId.value;
      var s1 := if w.mark.Done? then s.(db := s.db.HSet(JobKey(id), map["status" := "finalizing"])) else CountError(s);
      SaveCountsSuccess(s1, id, w);
    }
  }

  lemma {:induction false} SaveCountsSuccess(s: State, id: string, w: World)
    ensures var (s', r) := SaveResult(s, id, w);
      s'.m.total == s.m.total + (if r.code == 200 && r.body["status"] == JStr("finished") then 1 else 0)
    ensures var (s', r) := SaveResult(s, id, w);
      s'.m.durations == s.m.durations + (if r.code == 200 && r.body["status"] == JStr("finished") then [w.elapsed] else [])
  {
  }

  /** check_jobs_dir_writable's probe: a temporary file could be created, or the exception's name. */
  datatype DirProbe = Writable | NotWritable(exception: string)

  function RedisReady(hasClient: bool, p: Ping): (bool, string) {
    if !hasClient then (false, "redis_client_not_initialized")
    else match p
      case PingReply(ok) => (ok, if ok then "redis_ping_ok" else "redis_ping_failed")
      case PingRaised(e) => (false, "redis_ping_exception_" + e)
  }

  function JobsDirWritable(d: DirProbe): (bool, string) {
    match d
    case Writable => (true, "jobs_dir_writable")
    case NotWritable(e) => (false, "jobs_dir_not_writable_" + e)
  }

  function Details(hasClient: bool, p: Ping, d: DirProbe): map<string, Json> {
    map["redis" := JStr(RedisReady(hasClient, p).1), "jobs_dir" := JStr(JobsDirWritable(d).1)]
  }

  /** GET /ready. */
  function Readiness(hasClient: bool, p: Ping, d: DirProbe): Response {
    var details := JObj(Details(hasClient, p, d));
    if !RedisReady(hasClient, p).0 || !JobsDirWritable(d).0 then
      Response(503, map["ready" := JBool(false), "details" := details])
    else Response(200, map["ready" := JBool(true), "details" := details])
  }

  /** GET /health. */
  function Health(hasClient: bool, p: Ping, d: DirProbe): Response {
    var ready := RedisReady(hasClient, p).0 && JobsDirWritable(d).0;
    Response(if ready then 200 else 503,
      map["live" := JBool(true), "ready" := JBool(ready), "details" := JObj(Details(hasClient, p, d))])
  }

  /** Ready iff the client exists and pings true and the jobs directory is writable; both details are always reported. */
  lemma {:induction false} ReadinessIff(hasClient: bool, p: Ping, d: DirProbe)
    ensures var r := Readiness(hasClient, p, d);
      (r.code == 200 <==> hasClient && p == PingReply(true) && d == Writable) &&
      (r.code == 200 || r.code == 503) &&
      r.body["ready"] == JBool(r.code == 200) &&
      r.body["details"].JObj? && r.body["details"].fields.Keys == {"redis", "jobs_dir"}
  {
  }

  /** /health answers 503 exactly when /ready would, and says whether it is ready. */
  lemma {:induction false} HealthMatchesReadiness(hasClient: bool, p: Ping, d: DirProbe)
    ensures var h := Health(hasClient, p, d);
      h.code == Readiness(hasClient, p, d).code && h.body["ready"] == JBool(h.code == 200) &&
      h.body["live"] == JBool(true) && h.body["details"] == Readiness(hasClient, p, d).body["details"]
  {
  }

  /** The running service: its metrics, its jobs directory and its Redis client (null when it could not be created). */
  class Service {
    const store: Store?
    var files: map<string, Bytes>
    var metrics: Metrics

    /** The state finalize acts on; without a client the database is not visible. */
    function Model(): State
      reads this, store
    {
      State(if store == null then Db(map[], map[], {}, []) else store.Snapshot(), files, metrics)
    }

    constructor (client: Store?)
      ensures store == client && files == map[] && metrics == Metrics(0, 0, 0, [], [])
    {
      store := client;
      files := map[];
      metrics := Metrics(0, 0, 0, [], []);
    }

    method Error()
      modifies this
      ensures files == old(files) && metrics == old(metrics).(errors := old(metrics).errors + 1)
    {
      metrics := metrics.(errors := metrics.errors + 1);
    }

    /** POST /finalize, step by step against the store. */
    method Finalize(req: Request, w: World) returns (resp: Response)
      modifies this, store
      ensures (Model(), resp) == FinalizeStep(old(Model()), store != null, req, w)
    {
      if req.InvalidJson? {
        Error();
        return ErrorResponse("invalid_json", 400);
      }
      if req.NotAnObject? {
        return Unhandled;
      }
      if !Present(req.jobId) || !Present(req.processedB64) {
        Error();
        return ErrorResponse("missing_job_id_or_processed_b64", 400);
      }
      if store == null {
        Error();
        return ErrorResponse("redis_unavailable", 503);
      }
      var id := req.jobId.value;
      var key := JobKey(id);
      if !w.read.Done? {
        Error();
        resp := match w.read
          case ConnectionError => ErrorResponse("redis_unavailable", 503)
          case RedisError => ErrorResponse("redis_error", 503)
          case _ => ErrorResponse("internal_error", 500);
        return;
      }
      var status := store.HGet(key, "status");
      if status == Some("finished") {
        metrics := metrics.(duplicates := metrics.duplicates + 1);
        return Response(200, map["status" := JStr("already_finished"), "node" := w.node]);
      }
      if w.mark.Done? {
        store.HSet(key, map["status" := "finalizing"]);
      } else {
        Error();
      }
      resp := Save(id, w);
    }

    method Save(id: string, w: World) returns (resp: Response)
      requires store != null
      modifies this, store
      ensures (Model(), resp) == SaveResult(old(Model()), id, w)
    {
      if w.decoded.Malformed? {
        Error();
        return ErrorResponse("invalid_base64", 400);
      }
      if w.decoded.DecodeRaised? {
        return Unhandled;
      }
      var bytes := w.decoded.bytes;
      var size := |bytes|;
      if size == 0 {
        Error();
        return ErrorResponse("empty_processed_payload", 400);
      }
      if size > MaxResultBytes {
        Error();
        return ErrorResponse("payload_too_large", 413);
      }
      var path := ResultPath(id);
      if !w.writeOk {
        Error();
        return ErrorResponse("file_write_error", 500);
      }
      files := files[path := bytes];
      metrics := metrics.(savedBytes := metrics.savedBytes + [size]);
      var failed := !w.finish.Done?;
      if failed {
        Error();
      } else {
        store.HSet(JobKey(id), map["status" := "finished", "result_path" := path, "finished_at" := w.finishedAt]);
      }
      if w.publish.Done? {
        store.Publish("notifications", "job:" + id + ":finished");
      }
      metrics := metrics.(total := metrics.total + 1, durations := metrics.durations + [w.elapsed]);
      resp := Finished(path, size, w.node, failed);
    }
  }
}
