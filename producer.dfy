// micro-pipeline/producer: claims a fresh job id, marks it queued, fetches
// an image and posts it to the processor, at a configured rate.
module Producer {
  import opened Wrappers
  import opened Redis
  import opened Web
  import Numbers

  datatype Metrics = Metrics(
    produced: nat, errors: nat, fetchDurations: seq<real>, imageSizes: seq<nat>,
    responses: map<string, nat>)

  datatype State = State(db: Db, m: Metrics)

  /** The image download: its bytes, or an exception (a transport error or a failed raise_for_status). */
  datatype Fetch = Fetched(bytes: Bytes) | FetchFailed

  /** The processor POST: its status code and the decoded JSON body (None when .json() raised), or an exception. */
  datatype Post = Posted(status: int, body: Option<Json>) | PostFailed

  /** What one produce_once call meets: the uuid, the Redis outcomes, the fetch and its duration, and the POST. */
  datatype World = World(jobId: string, claim: Outcome, hset: Outcome, fetch: Fetch, fetchTime: real, post: Post)

  function ClaimKey(id: string): string { "job:" + id + ":claimed" }
  function JobKey(id: string): string { "job:" + id }

  function Reply(message: string): Json { JObj(map["error" := JStr(message)]) }

  function Count(responses: map<string, nat>, code: string): nat {
    if code in responses then responses[code] else 0
  }

  function Failed(m: Metrics): Metrics { m.(errors := m.errors + 1) }

  /**
   * produce_once: the new state and the returned value. The try block's
   * exceptions all end in one error count and {"error": "exception"}.
   */
  function ProduceStep(s: State, w: World): (State, Json) {
    var m0 := s.m.(produced := s.m.produced + 1);
    if !w.claim.Done? then (s.(m := Failed(m0)), Reply("exception"))
    else
      var (db1, claimed) := s.db.SetNX(ClaimKey(w.jobId));
      if !claimed then (State(db1, Failed(m0)), Reply("job already claimed"))
      else if !w.hset.Done? then (State(db1, Failed(m0)), Reply("exception"))
      else
        var db2 := db1.HSet(JobKey(w.jobId), map["status" := "queued"]);
        var m1 := m0.(fetchDurations := m0.fetchDurations + [w.fetchTime]);
        match w.fetch
        case FetchFailed => (State(db2, Failed(m1)), Reply("exception"))
        case Fetched(bytes) =>
          var m2 := m1.(imageSizes := m1.imageSizes + [|bytes|]);
          match w.post
          case PostFailed => (State(db2, Failed(m2)), Reply("exception"))
          case Posted(status, body) =>
            var code := Numbers.IntToString(status);
            var m3 := m2.(responses := m2.responses[code := Count(m2.responses, code) + 1]);
            match body
            case None => (State(db2, Failed(m3)), Reply("exception"))
            case Some(j) => (State(db2, m3), j)
  }

  /** Whether the call reaches the processor's decoded reply. */
  predicate Delivered(s: State, w: World) {
    w.claim.Done? && !s.db.Exists(ClaimKey(w.jobId)) && w.hset.Done? &&
    w.fetch.Fetched? && w.post.Posted? && w.post.body.Some?
  }

  /** Every call counts as produced; it counts one error exactly when it does not deliver, and then returns an error object. */
  lemma {:induction false} ProducedAlways(s: State, w: World)
    ensures var (s', r) := ProduceStep(s, w);
      s'.m.produced == s.m.produced + 1 &&
      s'.m.errors == s.m.errors + (if Delivered(s, w) then 0 else 1) &&
      (Delivered(s, w) ==> r == w.post.body.value) &&
      (!Delivered(s, w) ==> r == Reply("exception") || r == Reply("job already claimed"))
  {
  }

  /** A taken claim counts an error and writes no job hash. */
  lemma {:induction false} ClaimConflict(s: State, w: World)
    requires w.claim.Done? && s.db.Exists(ClaimKey(w.jobId))
    ensures var (s', r) := ProduceStep(s, w);
      r == Reply("job already claimed") && s'.db == s.db && s'.m.errors == s.m.errors + 1 &&
      s'.m.fetchDurations == s.m.fetchDurations
  {
  }

  /**
   * After a free claim and a successful HSET the job is marked queued and
   * claimed, whatever the fetch and the POST then do; neither is attempted
   * before the mark.
   */
  lemma {:induction false} QueuedBeforeFetch(s: State, w: World)
    requires w.claim.Done? && !s.db.Exists(ClaimKey(w.jobId))
    ensures var (s', _) := ProduceStep(s, w);
      ClaimKey(w.jobId) in s'.db.keys &&
      (w.hset.Done? ==>
        (s'.db.HGet(JobKey(w.jobId), "status") == Some("queued") &&
         s'.m.fetchDurations == s.m.fetchDurations + [w.fetchTime])) &&
      (!w.hset.Done? ==> s'.db.hashes == s.db.hashes && s'.m.fetchDurations == s.m.fetchDurations)
  {
    var db1 := s.db.SetNX(ClaimKey(w.jobId)).0;
    HSetThenHGet(db1, JobKey(w.jobId), map["status" := "queued"], JobKey(w.jobId), "status");
  }

  /** One response is counted under the POST's status code whenever the POST returns, even when its body is not JSON. */
  lemma {:induction false} ResponseCounted(s: State, w: World)
    requires w.claim.Done? && !s.db.Exists(ClaimKey(w.jobId)) && w.hset.Done? && w.fetch.Fetched? && w.post.Posted?
    ensures var (s', _) := ProduceStep(s, w);
      var code := Numbers.IntToString(w.post.status);
      Count(s'.m.responses, code) == Count(s.m.responses, code) + 1 &&
      (forall c :: c != code ==> Count(s'.m.responses, c) == Count(s.m.responses, c)) &&
      s'.m.imageSizes == s.m.imageSizes + [|w.fetch.bytes|]
  {
  }

  /** The pacing interval: one minute for a rate at or below zero, otherwise the reciprocal of the rate. */
  function Interval(rate: real): (i: real)
    ensures i > 0.0
    ensures rate <= 0.0 ==> i == 60.0
    ensures rate > 0.0 ==> i * rate == 1.0
  {
    if rate <= 0.0 then 60.0 else 1.0 / rate
  }

  /** How long the loop sleeps after a pass that took `elapsed`: the rest of the interval, and nothing when none is left. */
  function SleepTime(interval: real, elapsed: real): (t: Option<real>)
    ensures t.Some? <==> elapsed < interval
    ensures t.Some? ==> t.value > 0.0 && elapsed + t.value == interval
  {
    if interval - elapsed > 0.0 then Some(interval - elapsed) else None
  }

  /** A pass lasts the interval or, when it overran, exactly its own time: an overrun is not made up later. */
  lemma {:induction false} NoCatchUp(interval: real, elapsed: real)
    ensures var t := SleepTime(interval, elapsed);
      elapsed + (if t.Some? then t.value else 0.0) == if elapsed > interval then elapsed else interval
  {
  }

  /** The state after the given passes of main_loop; each pass is a call and its elapsed time. */
  function Run(s: State, passes: seq<(World, real)>): State
    decreases |passes|
  {
    if passes == [] then s else ProduceStep(Run(s, passes[..|passes| - 1]), passes[|passes| - 1].0).0
  }

  /** Every pass produces, whatever happened in it, and errors never outnumber the new productions. */
  lemma {:induction false} RunCounts(s: State, passes: seq<(World, real)>)
    ensures Run(s, passes).m.produced == s.m.produced + |passes|
    ensures s.m.errors <= Run(s, passes).m.errors <= s.m.errors + |passes|
    decreases |passes|
  {
    if passes != [] {
      var before := Run(s, passes[..|passes| - 1]);
      RunCounts(s, passes[..|passes| - 1]);
      ProducedAlways(before, passes[|passes| - 1].0);
    }
  }

  /** The sleeps the loop takes over the passes. */
  function Sleeps(interval: real, passes: seq<(World, real)>): seq<Option<real>>
    decreases |passes|
  {
    if passes == [] then []
    else Sleeps(interval, passes[..|passes| - 1]) + [SleepTime(interval, passes[|passes| - 1].1)]
  }

  /** The running producer: its Redis client, metrics and the configured-rate gauge. */
  class Service {
    const store: Store
    var metrics: Metrics
    var rateGauge: real

    function Model(): State
      reads this, store
    {
      State(store.Snapshot(), metrics)
    }

    constructor (client: Store, rate: real)
      ensures store == client && rateGauge == rate && metrics == Metrics(0, 0, [], [], map[])
    {
      store := client;
      rateGauge := rate;
      metrics := Metrics(0, 0, [], [], map[]);
    }

    /** produce_once. */
    method ProduceOnce(w: World) returns (result: Json)
      modifies this, store
      ensures (Model(), result) == ProduceStep(old(Model()), w)
      ensures rateGauge == old(rateGauge)
    {
      metrics := metrics.(produced := metrics.produced + 1);
      if !w.claim.Done? {
        metrics := Failed(metrics);
        return Reply("exception");
      }
      var claimed := store.SetNX(ClaimKey(w.jobId));
      if !claimed {
        metrics := Failed(metrics);
        return Reply("job already claimed");
      }
      if !w.hset.Done? {
        metrics := Failed(metrics);
        return Reply("exception");
      }
      store.HSet(JobKey(w.jobId), map["status" := "queued"]);
      metrics := metrics.(fetchDurations := metrics.fetchDurations + [w.fetchTime]);
      if w.fetch.FetchFailed? {
        metrics := Failed(metrics);
        return Reply("exception");
      }
      metrics := metrics.(imageSizes := metrics.imageSizes + [|w.fetch.bytes|]);
      if w.post.PostFailed? {
        metrics := Failed(metrics);
        return Reply("exception");
      }
      var code := Numbers.IntToString(w.post.status);
      metrics := metrics.(responses := metrics.responses[code := Count(metrics.responses, code) + 1]);
      if w.post.body.None? {
        metrics := Failed(metrics);
        return Reply("exception");
      }
      result := w.post.body.value;
    }

    /** main_loop over the given passes; it reports the sleep taken after each. */
    method MainLoop(rate: real, passes: seq<(World, real)>) returns (sleeps: seq<Option<real>>)
      modifies this, store
      ensures Model() == Run(old(Model()), passes)
      ensures sleeps == Sleeps(Interval(rate), passes)
      ensures rateGauge == old(rateGauge)
    {
      var interval := if rate <= 0.0 then 60.0 else 1.0 / rate;
      sleeps := [];
      for i := 0 to |passes|
        invariant Model() == Run(old(Model()), passes[..i])
        invariant sleeps == Sleeps(interval, passes[..i])
        invariant rateGauge == old(rateGauge)
      {
        var _ := ProduceOnce(passes[i].0);
        var elapsed := passes[i].1;
        var sleepTime := interval - elapsed;
        sleeps := sleeps + [if sleepTime > 0.0 then Some(sleepTime) else None];
        assert passes[..i + 1][..i] == passes[..i];
      }
      assert passes[..|passes|] == passes;
    }
  }
}
