// The Redis data model the pipeline services share: hashes, lists, plain
// marker keys (locks and claims) and published notifications, with the
// commands the services issue. Each command is atomic.
module Redis {
  import opened Wrappers

  /** A notification sent with PUBLISH. */
  datatype Message = Message(channel: string, payload: string)

  /** What a client call reports: success, or the class of the exception it raised. */
  datatype Outcome = Done | ConnectionError | RedisError | OtherError

  /** PING as a client sees it: the boolean reply, or the name of the exception raised. */
  datatype Ping = PingReply(ok: bool) | PingRaised(exception: string)

  /** The elements of s in reverse order. */
  function Reversed<T>(s: seq<T>): (r: seq<T>)
    ensures |r| == |s|
  {
    if s == [] then [] else Reversed(s[1..]) + [s[0]]
  }

  lemma {:induction false} ReversedAppend<T>(s: seq<T>, x: T)
    ensures Reversed(s + [x]) == [x] + Reversed(s)
  {
    if s != [] {
      assert (s + [x])[1..] == s[1..] + [x];
      ReversedAppend(s[1..], x);
    }
  }

  /** Reversing twice gives back the sequence. */
  lemma {:induction false} ReversedReversed<T>(s: seq<T>)
    ensures Reversed(Reversed(s)) == s
  {
    if s != [] {
      ReversedAppend(Reversed(s[1..]), s[0]);
      ReversedReversed(s[1..]);
    }
  }

  /** One Redis database. Hashes, lists and plain keys are stored apart but share one keyspace: EXISTS, SET NX and DEL look at all three. */
  datatype Db = Db(
    hashes: map<string, map<string, string>>,
    lists: map<string, seq<string>>,
    keys: set<string>,
    published: seq<Message>)
  {
    /** HGETALL: the fields of a hash, empty when the key is absent. */
    function Hash(key: string): map<string, string> {
      if key in hashes then hashes[key] else map[]
    }

    /** HGET: one field of a hash. */
    function HGet(key: string, field: string): Option<string> {
      var h := Hash(key);
      if field in h then Some(h[field]) else None
    }

    /** HSET key with a mapping: each given field is set, the others kept. */
    function HSet(key: string, fields: map<string, string>): Db {
      this.(hashes := hashes[key := Hash(key) + fields])
    }

    /** EXISTS: the key holds a value of some type. */
    predicate Exists(key: string) {
      key in hashes || key in lists || key in keys
    }

    /** SET key value NX: inserts the key when no value of any type is stored under it, and reports whether it did. */
    function SetNX(key: string): (Db, bool) {
      if Exists(key) then (this, false) else (this.(keys := keys + {key}), true)
    }

    /** DEL: removes the key whatever its type. */
    function Del(key: string): Db {
      this.(hashes := hashes - {key}, lists := lists - {key}, keys := keys - {key})
    }

    /** The elements of a list, head first; empty when absent. */
    function List(key: string): seq<string> {
      if key in lists then lists[key] else []
    }

    /** LLEN. */
    function LLen(key: string): nat {
      |List(key)|
    }

    /** LPUSH of one value: it becomes the new head. */
    function LPush(key: string, v: string): Db {
      this.(lists := lists[key := [v] + List(key)])
    }

    /**
     * BRPOP of one list: the tail element, removed; None (a timeout) when
     * the list is empty. A list left empty is deleted, as Redis does.
     */
    function RPop(key: string): (Db, Option<string>) {
      var l := List(key);
      if l == [] then (this, None)
      else
        var rest := l[..|l| - 1];
        (this.(lists := if rest == [] then lists - {key} else lists[key := rest]), Some(l[|l| - 1]))
    }

    /** PUBLISH. Subscribers are not modelled; the message is recorded. */
    function Publish(channel: string, payload: string): Db {
      this.(published := published + [Message(channel, payload)])
    }
  }

  /** Read after HSET: the written fields are visible, every other field of every hash is as before. */
  lemma {:induction false} HSetThenHGet(db: Db, key: string, fields: map<string, string>, k: string, f: string)
    ensures db.HSet(key, fields).HGet(k, f) == if k == key && f in fields then Some(fields[f]) else db.HGet(k, f)
  {
    if k != key {
      assert db.HSet(key, fields).Hash(k) == db.Hash(k);
    }
  }

  /** HSET changes no list, no marker key and no notification. */
  lemma {:induction false} HSetFrame(db: Db, key: string, fields: map<string, string>)
    ensures var d := db.HSet(key, fields);
      d.lists == db.lists && d.keys == db.keys && d.published == db.published
    ensures forall k :: k != key ==> db.HSet(key, fields).Hash(k) == db.Hash(k)
  {
  }

  /**
   * SET NX inserts exactly when the key holds no value of any type, and
   * afterwards the key exists; a refused SET NX changes nothing.
   */
  lemma {:induction false} SetNXInserts(db: Db, key: string)
    ensures var (d, ok) := db.SetNX(key);
      ok == !db.Exists(key) && d.Exists(key) &&
      d.keys == (if ok then db.keys + {key} else db.keys) &&
      d.hashes == db.hashes && d.lists == db.lists && d.published == db.published
  {
  }

  /** Mutual exclusion: a second SET NX on the same key fails and changes nothing. */
  lemma {:induction false} SetNXExclusive(db: Db, key: string)
    ensures var (d, _) := db.SetNX(key);
      d.SetNX(key) == (d, false)
  {
  }

  /** Releasing with DEL lets the next SET NX succeed. */
  lemma {:induction false} DelThenSetNX(db: Db, key: string)
    ensures db.Del(key).SetNX(key).1
  {
  }

  /** LPUSH grows the list by one and the new element is the head. */
  lemma {:induction false} LPushGrows(db: Db, key: string, v: string)
    ensures db.LPush(key, v).List(key) == [v] + db.List(key)
    ensures db.LPush(key, v).LLen(key) == db.LLen(key) + 1
    ensures forall k :: k != key ==> db.LPush(key, v).List(k) == db.List(k)
  {
  }

  /** BRPOP takes the tail element and leaves the rest of the list in order. */
  lemma {:induction false} RPopTail(db: Db, key: string)
    ensures var (d, v) := db.RPop(key);
      (db.List(key) == [] ==> v == None && d == db) &&
      (db.List(key) != [] ==>
        (v == Some(db.List(key)[db.LLen(key) - 1]) && d.List(key) == db.List(key)[..db.LLen(key) - 1])) &&
      d.hashes == db.hashes && d.keys == db.keys && d.published == db.published &&
      (forall k :: k != key ==> d.List(k) == db.List(k))
  {
  }

  /** LPUSH of several values in order. */
  function PushAll(db: Db, key: string, vs: seq<string>): Db
    decreases |vs|
  {
    if vs == [] then db else PushAll(db.LPush(key, vs[0]), key, vs[1..])
  }

  /** n BRPOPs in a row, with the values they return (a timeout returns nothing). */
  function PopN(db: Db, key: string, n: nat): (Db, seq<string>)
    decreases n
  {
    if n == 0 then (db, [])
    else
      var (d, v) := db.RPop(key);
      var (d2, vs) := PopN(d, key, n - 1);
      (d2, (if v.Some? then [v.value] else []) + vs)
  }

  lemma {:induction false} PushAllList(db: Db, key: string, vs: seq<string>)
    ensures PushAll(db, key, vs).List(key) == Reversed(vs) + db.List(key)
    decreases |vs|
  {
    if vs != [] {
      PushAllList(db.LPush(key, vs[0]), key, vs[1..]);
      assert vs == [vs[0]] + vs[1..];
      assert Reversed(vs) == Reversed(vs[1..]) + [vs[0]];
    }
  }

  /** Popping a whole list from the tail yields its elements tail first. */
  lemma {:induction false} PopNList(db: Db, key: string)
    ensures PopN(db, key, db.LLen(key)).1 == Reversed(db.List(key))
    decreases db.LLen(key)
  {
    var l := db.List(key);
    if l != [] {
      var (d, v) := db.RPop(key);
      assert d.List(key) == l[..|l| - 1];
      PopNList(d, key);
      assert l == l[..|l| - 1] + [l[|l| - 1]];
      ReversedAppend(l[..|l| - 1], l[|l| - 1]);
    }
  }

  /** FIFO: values LPUSHed onto an empty queue come back from BRPOP in the order they were pushed. */
  lemma {:induction false} Fifo(db: Db, key: string, vs: seq<string>)
    requires db.List(key) == []
    ensures PopN(PushAll(db, key, vs), key, |vs|).1 == vs
  {
    var d := PushAll(db, key, vs);
    PushAllList(db, key, vs);
    assert d.List(key) == Reversed(vs);
    PopNList(d, key);
    ReversedReversed(vs);
  }

  /** A Redis server as the services see it: one database updated in place by each command. */
  class Store {
    var hashes: map<string, map<string, string>>
    var lists: map<string, seq<string>>
    var keys: set<string>
    var published: seq<Message>

    function Snapshot(): Db
      reads this
    {
      Db(hashes, lists, keys, published)
    }

    constructor (db: Db)
      ensures Snapshot() == db
    {
      hashes, lists, keys, published := db.hashes, db.lists, db.keys, db.published;
    }

    method Load(db: Db)
      modifies this
      ensures Snapshot() == db
    {
      hashes, lists, keys, published := db.hashes, db.lists, db.keys, db.published;
    }

    method HGetAll(key: string) returns (h: map<string, string>)
      ensures h == Snapshot().Hash(key)
      ensures key !in hashes ==> h == map[]
    {
      h := if key in hashes then hashes[key] else map[];
    }

    method HGet(key: string, field: string) returns (v: Option<string>)
      ensures v == Snapshot().HGet(key, field)
      ensures v.Some? ==> key in hashes && field in hashes[key] && v.value == hashes[key][field]
    {
      var h := HGetAll(key);
      v := if field in h then Some(h[field]) else None;
    }

    method HSet(key: string, fields: map<string, string>)
      modifies this
      ensures Snapshot() == old(Snapshot()).HSet(key, fields)
    {
      var h := HGetAll(key);
      hashes := hashes[key := h + fields];
    }

    method Exists(key: string) returns (b: bool)
      ensures b == Snapshot().Exists(key)
    {
      b := key in hashes || key in lists || key in keys;
    }

    method SetNX(key: string) returns (inserted: bool)
      modifies this
      ensures (Snapshot(), inserted) == old(Snapshot()).SetNX(key)
    {
      inserted := !(key in hashes || key in lists || key in keys);
      if inserted {
        keys := keys + {key};
      }
    }

    method Del(key: string)
      modifies this
      ensures Snapshot() == old(Snapshot()).Del(key)
    {
      hashes, lists, keys := hashes - {key}, lists - {key}, keys - {key};
    }

    method LLen(key: string) returns (n: nat)
      ensures n == Snapshot().LLen(key)
    {
      n := if key in lists then |lists[key]| else 0;
    }

    method LPush(key: string, v: string)
      modifies this
      ensures Snapshot() == old(Snapshot()).LPush(key, v)
    {
      var l := if key in lists then lists[key] else [];
      lists := lists[key := [v] + l];
    }

    method RPop(key: string) returns (v: Option<string>)
      modifies this
      ensures (Snapshot(), v) == old(Snapshot()).RPop(key)
    {
      var l := if key in lists then lists[key] else [];
      if l == [] {
        v := None;
      } else {
        v := Some(l[|l| - 1]);
        var rest := l[..|l| - 1];
        lists := if rest == [] then lists - {key} else lists[key := rest];
      }
    }

    method Publish(channel: string, payload: string)
      modifies this
      ensures Snapshot() == old(Snapshot()).Publish(channel, payload)
    {
      published := published + [Message(channel, payload)];
    }
  }

  /** The (component, cmd, dst) labels of the shared Redis client metrics. */
  datatype Label = Label(component: string, cmd: string, dst: string)

  /** redis_cmd_errors_total and the observations of redis_cmd_latency_seconds, per label. */
  datatype CommandMetrics = CommandMetrics(errors: map<Label, nat>, latency: map<Label, seq<real>>)
  {
    function Errors(l: Label): nat { if l in errors then errors[l] else 0 }
    function Latency(l: Label): seq<real> { if l in latency then latency[l] else [] }
  }

  /**
   * The bookkeeping of time_redis_cmd around one command: the error
   * counter of the label grows by one when the command raised, and the
   * elapsed time is observed once either way (the exception itself is
   * re-raised by the caller).
   */
  function Timed(m: CommandMetrics, l: Label, o: Outcome, elapsed: real): (r: CommandMetrics)
    ensures r.Errors(l) == m.Errors(l) + (if o.Done? then 0 else 1)
    ensures r.Latency(l) == m.Latency(l) + [elapsed]
    ensures forall l' :: l' != l ==> r.Errors(l') == m.Errors(l') && r.Latency(l') == m.Latency(l')
  {
    CommandMetrics(
      if o.Done? then m.errors else m.errors[l := m.Errors(l) + 1],
      m.latency[l := m.Latency(l) + [elapsed]])
  }
}
