// micro-pipeline/processor: the /process handler, which takes a per-job
// lock, halves the image, records the job's progress in Redis and forwards
// the result to the aggregator, and the /ready and /health probes.
module Processor {
  import opened Wrappers
  import opened Numbers
  import opened Redis
  import opened Web

  const MaxInputBytes := 10 * 1024 * 1024

  /** The /process body as get_json(silent=True) and dict.get see it. */
  datatype Request =
    | InvalidJson
    | NotAnObject
    | Fields(jobId: Option<string>, imageB64: Option<string>)

  predicate Present(o: Option<string>) { o.Some? && |o.value| > 0 }

  /**
   * The Prometheus metrics of the service: the job, error and lock
   * counters, the input and output size samples, and the processing
   * duration samples in seconds.
   */
  datatype Metrics = Metrics(
    total: nat, errors: nat, lockAcquired: nat, lockFailed: nat,
    inputSizes: seq<nat>, outputSizes: seq<nat>, durations: seq<real>)

  datatype State = State(db: Db, m: Metrics)

  /** A decoded picture; only its dimensions matter here. */
  datatype Image = Image(width: nat, height: nat)

  /** Image.open: a picture, UnidentifiedImageError, another OSError, or any other exception. */
  datatype Opening = Opened(img: Image) | Unidentified | OpenOSError | OpenRaised

  /** requests.post to the aggregator: a reply (with its body when that is JSON), or the exception raised. */
  datatype AggReply = Reply(status: int, body: Option<Json>) | AggConnectionError | AggTimeout | AggRequestError | AggOtherError

  /**
   * What the outside world answers during one call: the lock SET, the
   * best-effort `processing` HSET, the base64 decoding, Image.open, the
   * grayscale conversion and resize, the PNG encoding of an image of the
   * given size, the seconds PROC_DURATION.time() measures around the
   * image work, the `processed` HSET with its clock text, the aggregator
   * call, the lock DEL in `finally`, and the node identity.
   */
  datatype World = World(
    lock: Outcome, mark: Outcome, decoded: Decoding, opening: Opening, convertOk: bool,
    encode: Image -> Option<Bytes>, procSeconds: real, processed: Outcome, processedAt: string,
    agg: AggReply, release: Outcome, node: Json)

  function JobKey(id: string): string { "job:" + id }
  function LockKey(id: string): string { "lock:job:" + id }

  /** A job's hash and its lock are different keys. */
  lemma {:induction false} KeysDistinct(id: string, id': string)
    ensures JobKey(id) != LockKey(id')
  {
    assert JobKey(id)[0] != LockKey(id')[0];
  }

  /** One side of the thumbnail: half, rounded down, and at least one pixel. */
  function HalfDim(n: nat): nat {
    if n / 2 < 1 then 1 else n / 2
  }

  /** The resized image's dimensions. */
  function Resized(img: Image): Image {
    Image(HalfDim(img.width), HalfDim(img.height))
  }

  /** The halved side is positive, no larger than the original, and at least half of it. */
  lemma {:induction false} HalfDimBounds(n: nat)
    ensures HalfDim(n) >= 1
    ensures n >= 1 ==> HalfDim(n) <= n
    ensures n >= 2 ==> 2 * HalfDim(n) <= n < 2 * HalfDim(n) + 2
  {
  }

  function CountError(s: State): State { s.(m := s.m.(errors := s.m.errors + 1)) }

  /**
   * The errors counted for an aggregator reply with this status. The
   * second test is the `== 503` branch, which the first already covers.
   */
  function ReplyErrors(status: int): int {
    if status >= 500 then 1 else if status == 503 then 1 else 0
  }

  /** The `== 503` branch never contributes: a reply counts one error exactly when its status is 500 or more. */
  lemma {:induction false} ReplyErrorsDeadBranch(status: int)
    ensures ReplyErrors(status) == (if status >= 500 then 1 else 0)
  {
  }

  /** The `node` the aggregator reported: the field of a JSON object body, and null for any other body. */
  function AggNode(body: Option<Json>): Json {
    if body.Some? && body.value.JObj? then Get(body.value.fields, "node") else JNull
  }

  /** The reply and the new state of one /process call. */
  function ProcessStep(s: State, hasClient: bool, req: Request, w: World): (State, Response) {
    var s0 := s.(m := s.m.(total := s.m.total + 1));
    match req
    case InvalidJson => (CountError(s0), ErrorResponse("invalid_json", 400))
    case NotAnObject => (s0, Unhandled)
    case Fields(jobId, b64) =>
      if !Present(jobId) || !Present(b64) then
        (CountError(s0), ErrorResponse("missing_job_id_or_image_b64", 400))
      else if !hasClient then (CountError(s0), ErrorResponse("redis_unavailable", 503))
      else Locked(s0, jobId.value, w)
  }

  /** The lock attempt, the locked work and the release in `finally`. */
  function Locked(s: State, id: string, w: World): (State, Response) {
    match w.lock
    case ConnectionError => (CountError(s), ErrorResponse("redis_unavailable", 503))
    case RedisError => (CountError(s), ErrorResponse("redis_error", 503))
    case OtherError => (CountError(s), ErrorResponse("internal_error", 500))
    case Done =>
      var (db1, got) := s.db.SetNX(LockKey(id));
      if !got then
        (s.(m := s.m.(lockFailed := s.m.lockFailed + 1)), Response(409, map["status" := JStr("already_processing")]))
      else
        var (s2, r) := Work(s.(db := db1, m := s.m.(lockAcquired := s.m.lockAcquired + 1)), id, w);
        (if w.release.Done? then s2.(db := s2.db.Del(LockKey(id))) else s2, r)
  }

  /** Inside the lock, from the `processing` mark to the reply. */
  function Work(s: State, id: string, w: World): (State, Response) {
    var s1 := if w.mark.Done? then s.(db := s.db.HSet(JobKey(id), map["status" := "processing"])) else CountError(s);
    match w.decoded
    case Malformed => (CountError(s1), ErrorResponse("invalid_image_b64", 400))
    case DecodeRaised => (CountError(s1), ErrorResponse("internal_error", 500))
    case Decoded(bytes) =>
      var s2 := s1.(m := s1.m.(inputSizes := s1.m.inputSizes + [|bytes|]));
      if |bytes| == 0 then (CountError(s2), ErrorResponse("empty_image_payload", 400))
      else if |bytes| > MaxInputBytes then (CountError(s2), ErrorResponse("payload_too_large", 413))
      else Transform(ObserveDuration(s2, w), id, w)
  }

  /**
   * The `with PROC_DURATION.time()` block observes its duration however it
   * is left; nothing else touches the samples, so the model records it on
   * entry.
   */
  function ObserveDuration(s: State, w: World): State {
    s.(m := s.m.(durations := s.m.durations + [w.procSeconds]))
  }

  /** Opening, converting, resizing and encoding the picture, then the `processed` mark and the hand-off. */
  function Transform(s: State, id: string, w: World): (State, Response) {
    match w.opening
    case Unidentified => (CountError(s), ErrorResponse("invalid_image_data", 400))
    case OpenOSError => (CountError(s), ErrorResponse("invalid_image_data", 400))
    case OpenRaised => (CountError(s), ErrorResponse("internal_error", 500))
    case Opened(img) =>
      if !w.convertOk then (CountError(s), ErrorResponse("processing_error", 500))
      else match w.encode(Resized(img))
        case None => (CountError(s), ErrorResponse("processing_error", 500))
        case Some(out) =>
          var s1 := s.(m := s.m.(outputSizes := s.m.outputSizes + [|out|]));
          var s2 := if w.processed.Done? then
              s1.(db := s1.db.HSet(JobKey(id), map["status" := "processed", "processed_at" := w.processedAt]))
            else CountError(s1);
          Forward(s2, |out|, w)
  }

  /** The aggregator call and the reply to the producer. */
  function Forward(s: State, size: nat, w: World): (State, Response) {
    match w.agg
    case AggConnectionError => (CountError(s), ErrorResponse("aggregator_unreachable", 503))
    case AggTimeout => (CountError(s), ErrorResponse("aggregator_timeout", 504))
    case AggRequestError => (CountError(s), ErrorResponse("aggregator_error", 502))
    case AggOtherError => (CountError(s), ErrorResponse("aggregator_error", 502))
    case Reply(status, body) =>
      var errors := s.m.errors + ReplyErrors(status);
      var node := AggNode(body);
      var reply := map["status" := JStr("sent_to_aggregator"), "bytes" := JInt(size), "node" := w.node];
      (s.(m := s.m.(errors := errors)),
       Response(200, if Truthy(node) then reply["aggregator_node" := node] else reply))
  }

  /** A request that names its job and image and reaches the lock. */
  predicate Reaches(hasClient: bool, req: Request) {
    req.Fields? && Present(req.jobId) && Present(req.imageB64) && hasClient
  }

  /** Invalid JSON, a missing field and a missing client are answered before any lock is tried, whatever the world does. */
  lemma {:induction false} RejectedBeforeLock(s: State, hasClient: bool, req: Request, w: World, w': World)
    requires !Reaches(hasClient, req)
    ensures ProcessStep(s, hasClient, req, w) == ProcessStep(s, hasClient, req, w')
    ensures var (s', r) := ProcessStep(s, hasClient, req, w);
      s'.db == s.db && s'.m.lockAcquired == s.m.lockAcquired && s'.m.lockFailed == s.m.lockFailed &&
      r == (match req
        case InvalidJson => ErrorResponse("invalid_json", 400)
        case NotAnObject => Unhandled
        case Fields(_, _) =>
          if Present(req.jobId) && Present(req.imageB64) then ErrorResponse("redis_unavailable", 503)
          else ErrorResponse("missing_job_id_or_image_b64", 400))
  {
  }

  /** A held lock answers 409 already_processing: the job hash and the existing lock stay as they were. */
  lemma {:induction false} LockConflict(s: State, id: string, b64: string, w: World)
    requires |id| > 0 && |b64| > 0 && w.lock.Done? && s.db.Exists(LockKey(id))
    ensures var (s', r) := ProcessStep(s, true, Fields(Some(id), Some(b64)), w);
      s'.db == s.db && r == Response(409, map["status" := JStr("already_processing")]) &&
      s'.m.lockFailed == s.m.lockFailed + 1 && s'.m.lockAcquired == s.m.lockAcquired
  {
  }

  /** The work inside the lock changes no marker key. */
  lemma {:induction false} WorkKeepsKeys(s: State, id: string, w: World)
    ensures Work(s, id, w).0.db.keys == s.db.keys
  {
    var s1 := if w.mark.Done? then s.(db := s.db.HSet(JobKey(id), map["status" := "processing"])) else CountError(s);
    if w.decoded.Decoded? {
      var bytes := w.decoded.bytes;
      TransformKeepsKeys(ObserveDuration(s1.(m := s1.m.(inputSizes := s1.m.inputSizes + [|bytes|])), w), id, w);
    }
  }

  lemma {:induction false} TransformKeepsKeys(s: State, id: string, w: World)
    ensures Transform(s, id, w).0.db.keys == s.db.keys
  {
    if w.opening.Opened? && w.convertOk && w.encode(Resized(w.opening.img)).Some? {
      var out := w.encode(Resized(w.opening.img)).value;
      var s1 := s.(m := s.m.(outputSizes := s.m.outputSizes + [|out|]));
      var s2 := if w.processed.Done? then
          s1.(db := s1.db.HSet(JobKey(id), map["status" := "processed", "processed_at" := w.processedAt]))
        else CountError(s1);
      ForwardKeepsDb(s2, |out|, w);
    }
  }

  lemma {:induction false} ForwardKeepsDb(s: State, size: nat, w: World)
    ensures Forward(s, size, w).0.db == s.db
  {
  }

  /** Once the lock is taken it is released on every path, whenever the DEL itself succeeds; a failed DEL leaves it held. */
  lemma {:induction false} LockReleased(s: State, id: string, b64: string, w: World)
    requires |id| > 0 && |b64| > 0 && w.lock.Done? && !s.db.Exists(LockKey(id))
    ensures var (s', _) := ProcessStep(s, true, Fields(Some(id), Some(b64)), w);
      (LockKey(id) in s'.db.keys <==> !w.release.Done?) &&
      s'.m.lockAcquired == s.m.lockAcquired + 1
  {
    var s0 := s.(m := s.m.(total := s.m.total + 1));
    var db1 := s0.db.SetNX(LockKey(id)).0;
    var s1 := s0.(db := db1, m := s0.m.(lockAcquired := s0.m.lockAcquired + 1));
    var (s2, r) := Work(s1, id, w);
    assert ProcessStep(s, true, Fields(Some(id), Some(b64)), w) == Locked(s0, id, w);
    assert Locked(s0, id, w) == (if w.release.Done? then s2.(db := s2.db.Del(LockKey(id))) else s2, r);
    WorkKeepsKeys(s1, id, w);
    WorkKeepsMetricsLock(s1, id, w);
  }

  /** The work inside the lock leaves the lock counters alone. */
  lemma {:induction false} WorkKeepsMetricsLock(s: State, id: string, w: World)
    ensures Work(s, id, w).0.m.lockAcquired == s.m.lockAcquired
  {
  }

  /** The payload bounds: empty is 400, above the maximum 413, and the maximum itself passes to the image stage. */
  lemma {:induction false} PayloadBounds(s: State, id: string, bytes: Bytes, w: World)
    requires w.decoded == Decoded(bytes) && w.opening.Opened? && w.convertOk && w.encode(Resized(w.opening.img)).Some?
    requires w.agg.Reply?
    ensures var r := Work(s, id, w).1;
      (|bytes| == 0 <==> r == ErrorResponse("empty_image_payload", 400)) &&
      (|bytes| > MaxInputBytes <==> r == ErrorResponse("payload_too_large", 413)) &&
      (0 < |bytes| <= MaxInputBytes <==> r.code == 200)
  {
  }

  /**
   * One processing duration is observed exactly when the payload passes the
   * bounds and the image work starts, whatever happens to the picture.
   */
  lemma {:induction false} DurationObserved(s: State, id: string, w: World)
    ensures Work(s, id, w).0.m.durations ==
      s.m.durations + (if w.decoded.Decoded? && 0 < |w.decoded.bytes| <= MaxInputBytes then [w.procSeconds] else [])
  {
  }

  /** The job status after the work: `processing` from the first mark, `processed` only after a successful encoding and second mark. */
  lemma {:induction false} StatusTransitions(s: State, id: string, w: World)
    requires w.mark.Done?
    ensures var (s', _) := Work(s, id, w);
      var encoded := w.decoded.Decoded? && 0 < |w.decoded.bytes| <= MaxInputBytes &&
        w.opening.Opened? && w.convertOk && w.encode(Resized(w.opening.img)).Some?;
      s'.db.HGet(JobKey(id), "status") == (if encoded && w.processed.Done? then Some("processed") else Some("processing"))
  {
    var key := JobKey(id);
    var d1 := s.db.HSet(key, map["status" := "processing"]);
    HSetThenHGet(s.db, key, map["status" := "processing"], key, "status");
    HSetThenHGet(d1, key, map["status" := "processed", "processed_at" := w.processedAt], key, "status");
  }

  /** The status read after the lock is released is the one the work left: the release touches only the lock key. */
  lemma {:induction false} ReleaseKeepsStatus(d: Db, id: string)
    ensures d.Del(LockKey(id)).HGet(JobKey(id), "status") == d.HGet(JobKey(id), "status")
  {
    KeysDistinct(id, id);
  }

  /** Transport failures of the aggregator call: 503 unreachable, 504 timeout, 502 for every other exception. */
  lemma {:induction false} AggregatorFailures(s: State, size: nat, w: World)
    requires !w.agg.Reply?
    ensures var (s', r) := Forward(s, size, w);
      s' == CountError(s) &&
      r == match w.agg
        case AggConnectionError => ErrorResponse("aggregator_unreachable", 503)
        case AggTimeout => ErrorResponse("aggregator_timeout", 504)
        case _ => ErrorResponse("aggregator_error", 502)
  {
  }

  /** A server error from the aggregator counts one error and the call still answers 200 sent_to_aggregator. */
  lemma {:induction false} ServerErrorCountedOnce(s: State, size: nat, w: World)
    requires w.agg.Reply?
    ensures var (s', r) := Forward(s, size, w);
      s'.m.errors == s.m.errors + (if w.agg.status >= 500 then 1 else 0) &&
      r.code == 200 && r.body["status"] == JStr("sent_to_aggregator") && r.body["bytes"] == JInt(size) &&
      ("aggregator_node" in r.body <==> Truthy(AggNode(w.agg.body)))
  {
    ReplyErrorsDeadBranch(w.agg.status);
  }

  /** check_redis_ready of this service (its exception message differs from the aggregator's). */
  function RedisReady(hasClient: bool, p: Ping): (bool, string) {
    if !hasClient then (false, "redis_client_not_initialized")
    else match p
      case PingReply(ok) => (ok, if ok then "redis_ping_ok" else "redis_ping_failed")
      case PingRaised(e) => (false, "redis_ping_exception: " + e)
  }

  /** The GET on the aggregator's health path: a status code, or the name of the exception raised. */
  datatype HealthReply = HealthStatus(code: int) | HealthRaised(exception: string)

  /** check_aggregator_http: healthy below 500. */
  function AggregatorHealthy(h: HealthReply): (r: (bool, string))
    ensures r.0 <==> h.HealthStatus? && h.code < 500
  {
    match h
    case HealthStatus(code) =>
      if code < 500 then (true, "aggregator_ok_" + IntToString(code))
      else (false, "aggregator_unhealthy_status_" + IntToString(code))
    case HealthRaised(e) => (false, "aggregator_check_exception_" + e)
  }

  /** GET /ready; `checkAggregator` is CHECK_AGGREGATOR_HEALTH. */
  function Readiness(hasClient: bool, p: Ping, checkAggregator: bool, h: HealthReply): Response {
    var (redisOk, redisMsg) := RedisReady(hasClient, p);
    var details := map["redis" := JStr(redisMsg)];
    if !redisOk then Response(503, map["ready" := JBool(false), "details" := JObj(details)])
    else if checkAggregator then
      var (aggOk, aggMsg) := AggregatorHealthy(h);
      var details2 := details["aggregator" := JStr(aggMsg)];
      if !aggOk then Response(503, map["ready" := JBool(false), "details" := JObj(details2)])
      else Response(200, map["ready" := JBool(true), "details" := JObj(details2)])
    else Response(200, map["ready" := JBool(true), "details" := JObj(details)])
  }

  /** GET /health. */
  function Health(hasClient: bool, p: Ping, checkAggregator: bool, h: HealthReply): Response {
    var (redisOk, redisMsg) := RedisReady(hasClient, p);
    var details := map["redis" := JStr(redisMsg)];
    var (ready, details2) :=
      if redisOk && checkAggregator then
        var (aggOk, aggMsg) := AggregatorHealthy(h);
        (aggOk, details["aggregator" := JStr(aggMsg)])
      else (redisOk, details);
    Response(if ready then 200 else 503, map["live" := JBool(true), "ready" := JBool(ready), "details" := JObj(details2)])
  }

  /** Ready iff Redis answers the ping and, when it is checked, the aggregator is healthy; the aggregator is probed only after Redis passed. */
  lemma {:induction false} ReadinessIff(hasClient: bool, p: Ping, checkAggregator: bool, h: HealthReply)
    ensures var r := Readiness(hasClient, p, checkAggregator, h);
      (r.code == 200 <==> hasClient && p == PingReply(true) && (checkAggregator ==> h.HealthStatus? && h.code < 500)) &&
      r.body["ready"] == JBool(r.code == 200) && r.body["details"].JObj? &&
      ("aggregator" in r.body["details"].fields <==> checkAggregator && hasClient && p == PingReply(true))
  {
  }

  /** /health agrees with /ready on the verdict and the details. */
  lemma {:induction false} HealthMatchesReadiness(hasClient: bool, p: Ping, checkAggregator: bool, h: HealthReply)
    ensures var r := Health(hasClient, p, checkAggregator, h);
      r.code == Readiness(hasClient, p, checkAggregator, h).code &&
      r.body["details"] == Readiness(hasClient, p, checkAggregator, h).body["details"] &&
      r.body["ready"] == JBool(r.code == 200) && r.body["live"] == JBool(true)
  {
  }

  /** The running service: its metrics and its Redis client (null when it could not be created). */
  class Service {
    const store: Store?
    var metrics: Metrics

    function Model(): State
      reads this, store
    {
      State(if store == null then Db(map[], map[], {}, []) else store.Snapshot(), metrics)
    }

    constructor (client: Store?)
      ensures store == client && metrics == Metrics(0, 0, 0, 0, [], [], [])
    {
      store := client;
      metrics := Metrics(0, 0, 0, 0, [], [], []);
    }

    method Error()
      modifies this
      ensures metrics == old(metrics).(errors := old(metrics).errors + 1)
    {
      metrics := metrics.(errors := metrics.errors + 1);
    }

    /** POST /process. */
    method Process(req: Request, w: World) returns (resp: Response)
      modifies this, store
      ensures (Model(), resp) == ProcessStep(old(Model()), store != null, req, w)
    {
      metrics := metrics.(total := metrics.total + 1);
      if req.InvalidJson? {
        Error();
        return ErrorResponse("invalid_json", 400);
      }
      if req.NotAnObject? {
        return Unhandled;
      }
      if !Present(req.jobId) || !Present(req.imageB64) {
        Error();
        return ErrorResponse("missing_job_id_or_image_b64", 400);
      }
      if store == null {
        Error();
        return ErrorResponse("redis_unavailable", 503);
      }
      var id := req.jobId.value;
      if !w.lock.Done? {
        Error();
        resp := match w.lock
          case ConnectionError => ErrorResponse("redis_unavailable", 503)
          case RedisError => ErrorResponse("redis_error", 503)
          case _ => ErrorResponse("internal_error", 500);
        return;
      }
      var got := store.SetNX(LockKey(id));
      if !got {
        metrics := metrics.(lockFailed := metrics.lockFailed + 1);
        return Response(409, map["status" := JStr("already_processing")]);
      }
      metrics := metrics.(lockAcquired := metrics.lockAcquired + 1);
      ghost var s0 := old(Model()).(m := old(Model()).m.(total := old(Model()).m.total + 1));
      assert Model() == s0.(db := s0.db.SetNX(LockKey(id)).0, m := s0.m.(lockAcquired := s0.m.lockAcquired + 1));
      resp := Locked(id, w);
      // finally: release the lock
      if w.release.Done? {
        store.Del(LockKey(id));
      }
    }

    /** The body of the `try` whose `finally` releases the lock. */
    method Locked(id: string, w: World) returns (resp: Response)
      requires store != null
      modifies this, store
      ensures (Model(), resp) == Work(old(Model()), id, w)
    {
      if w.mark.Done? {
        store.HSet(JobKey(id), map["status" := "processing"]);
      } else {
        Error();
      }
      if w.decoded.Malformed? {
        Error();
        return ErrorResponse("invalid_image_b64", 400);
      }
      if w.decoded.DecodeRaised? {
        Error();
        return ErrorResponse("internal_error", 500);
      }
      var size := |w.decoded.bytes|;
      metrics := metrics.(inputSizes := metrics.inputSizes + [size]);
      if size == 0 {
        Error();
        return ErrorResponse("empty_image_payload", 400);
      }
      if size > MaxInputBytes {
        Error();
        return ErrorResponse("payload_too_large", 413);
      }
      metrics := metrics.(durations := metrics.durations + [w.procSeconds]);
      resp := Convert(id, w);
    }

    /** Image.open, the conversion and resize, PNG encoding and the `processed` mark. */
    method Convert(id: string, w: World) returns (resp: Response)
      requires store != null
      modifies this, store
      ensures (Model(), resp) == Transform(old(Model()), id, w)
    {
      if w.opening.Unidentified? || w.opening.OpenOSError? {
        Error();
        return ErrorResponse("invalid_image_data", 400);
      }
      if w.opening.OpenRaised? {
        Error();
        return ErrorResponse("internal_error", 500);
      }
      if !w.convertOk {
        Error();
        return ErrorResponse("processing_error", 500);
      }
      var encoded := w.encode(Resized(w.opening.img));
      if encoded.None? {
        Error();
        return ErrorResponse("processing_error", 500);
      }
      var outSize := |encoded.value|;
      metrics := metrics.(outputSizes := metrics.outputSizes + [outSize]);
      if w.processed.Done? {
        store.HSet(JobKey(id), map["status" := "processed", "processed_at" := w.processedAt]);
      } else {
        Error();
      }
      resp := Send(outSize, w);
    }

    /** The aggregator call and the reply to the producer. */
    method Send(size: nat, w: World) returns (resp: Response)
      modifies this
      ensures Model().db == old(Model()).db
      ensures (Model(), resp) == Forward(old(Model()), size, w)
    {
      match w.agg {
        case AggConnectionError =>
          Error();
          resp := ErrorResponse("aggregator_unreachable", 503);
        case AggTimeout =>
          Error();
          resp := ErrorResponse("aggregator_timeout", 504);
        case AggRequestError =>
          Error();
          resp := ErrorResponse("aggregator_error", 502);
        case AggOtherError =>
          Error();
          resp := ErrorResponse("aggregator_error", 502);
        case Reply(status, body) =>
          metrics := metrics.(errors := metrics.errors + ReplyErrors(status));
          var node := AggNode(body);
          var reply := map["status" := JStr("sent_to_aggregator"), "bytes" := JInt(size), "node" := w.node];
          resp := Response(200, if Truthy(node) then reply["aggregator_node" := node] else reply);
      }
    }
  }
}
