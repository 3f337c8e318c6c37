/** The Redis cache that falls back to a local in-memory cache, with a timed degraded mode. */
module FallbackCache {

  const RECONNECT_INTERVAL: real := 60.0

  datatype Value = Num(n: int) | Text(text: string)

  type Store = map<string, Value>

  /** The cache operations that the class wraps. */
  datatype Op =
    | Add(key: string, value: Value)
    | Get(key: string, default: Value)
    | Set(key: string, value: Value)
    | Delete(key: string)
    | HasKey(key: string)
    | Incr(key: string, delta: int)
    | Decr(key: string, delta: int)
    | GetMany(keys: set<string>)
    | SetMany(mapping: Store)
    | DeleteMany(keys: set<string>)
    | Clear

  datatype Reply = Done | Flag(b: bool) | Item(value: Value) | Items(items: Store) | Raised

  /** An operation on a plain map. Incrementing needs an existing number; otherwise the caches
      raise, and change nothing. */
  function Perform(s: Store, op: Op): (Store, Reply) {
    match op
    case Add(key, value) => if key in s then (s, Flag(false)) else (s[key := value], Flag(true))
    case Get(key, default) => (s, Item(if key in s then s[key] else default))
    case Set(key, value) => (s[key := value], Done)
    case Delete(key) => (s - {key}, Flag(key in s))
    case HasKey(key) => (s, Flag(key in s))
    case Incr(key, delta) => Increment(s, key, delta)
    case Decr(key, delta) => Increment(s, key, -delta)
    case GetMany(keys) => (s, Items(map key | key in keys && key in s :: s[key]))
    case SetMany(mapping) => (s + mapping, Done)
    case DeleteMany(keys) => (s - keys, Done)
    case Clear => (map[], Done)
  }

  function Increment(s: Store, key: string, delta: int): (Store, Reply) {
    if key in s && s[key].Num? then (s[key := Num(s[key].n + delta)], Item(Num(s[key].n + delta)))
    else (s, Raised)
  }

  /** How a Redis call goes: it works, or it raises before or after it has taken effect. */
  datatype Outcome = Works | FailsBefore | FailsAfter

  /** A call as Redis executes it; the reply `Raised` stands for every exception. */
  function OnRedis(s: Store, op: Op, outcome: Outcome): (Store, Reply) {
    match outcome
    case Works => Perform(s, op)
    case FailsBefore => (s, Raised)
    case FailsAfter => (Perform(s, op).0, Raised)
  }

  /** One call: the clock when it starts, what Redis would do, and the clock when a Redis
      failure has been noticed. */
  datatype Call = Call(op: Op, startedAt: real, outcome: Outcome, failedAt: real)

  datatype Side = Redis | Fallback

  datatype Answer = Answer(side: Side, reply: Reply, raised: bool)

  datatype State = State(redis: Store, fallback: Store, degraded: bool, lastFailure: real)

  class FallbackRedisCache {
    var redis: Store
    var fallback: Store
    var degraded: bool
    var redisHealthy: bool
    var lastRedisFailure: real

    constructor (redis: Store)
      ensures Now() == State(redis, map[], false, 0.0) && Valid()
    {
      this.redis, fallback := redis, map[];
      degraded, redisHealthy, lastRedisFailure := false, true, 0.0;
    }

    ghost predicate Valid()
      reads this
    {
      redisHealthy == !degraded
    }

    ghost function Now(): State
      reads this
    {
      State(redis, fallback, degraded, lastRedisFailure)
    }

    method ShouldAttemptReconnect(now: real) returns (b: bool)
      ensures b <==> degraded && now >= lastRedisFailure + 60.0
    {
      if !degraded {
        return false;
      }
      return now - lastRedisFailure >= RECONNECT_INTERVAL;
    }

    method EnterDegraded(now: real)
      modifies this`degraded, this`redisHealthy, this`lastRedisFailure
      ensures Valid() && degraded && lastRedisFailure == now
    {
      degraded, redisHealthy := true, false;
      lastRedisFailure := now;
    }

    method ExitDegraded()
      modifies this`degraded, this`redisHealthy
      ensures Valid() && !degraded
    {
      degraded, redisHealthy := false, true;
    }

    method CallRedis(op: Op, outcome: Outcome) returns (reply: Reply)
      modifies this`redis
      ensures (redis, reply) == OnRedis(old(redis), op, outcome)
    {
      var result := OnRedis(redis, op, outcome);
      redis, reply := result.0, result.1;
    }

    method CallFallback(op: Op) returns (reply: Reply)
      modifies this`fallback
      ensures (fallback, reply) == Perform(old(fallback), op)
    {
      var result := Perform(fallback, op);
      fallback, reply := result.0, result.1;
    }

    method CallWithFallback(call: Call) returns (answer: Answer)
      requires Valid()
      modifies this
      ensures Valid() && (Now(), answer) == Step(old(Now()), call)
    {
      var reconnect := ShouldAttemptReconnect(call.startedAt);
      if reconnect {
        var reply := CallRedis(call.op, call.outcome);
        if reply != Raised {
          ExitDegraded();
          return Answer(Redis, reply, false);
        }
        EnterDegraded(call.failedAt);
        reply := CallFallback(call.op);
        return Answer(Fallback, reply, true);
      }
      if degraded {
        var reply := CallFallback(call.op);
        return Answer(Fallback, reply, false);
      }
      var reply := CallRedis(call.op, call.outcome);
      if reply != Raised {
        return Answer(Redis, reply, false);
      }
      EnterDegraded(call.failedAt);
      reply := CallFallback(call.op);
      return Answer(Fallback, reply, true);
    }
  }

  /** Redis is tried unless a failure less than a minute old is on record. */
  predicate Tries(s: State, call: Call) {
    s.degraded ==> call.startedAt >= s.lastFailure + RECONNECT_INTERVAL
  }

  /** One wrapped call: the Redis reply if Redis is tried and does not raise, else the
      fallback's. */
  function Step(s: State, call: Call): (State, Answer) {
    var (redis, reply) := OnRedis(s.redis, call.op, call.outcome);
    var (fallback, local) := Perform(s.fallback, call.op);
    if !Tries(s, call) then (s.(fallback := fallback), Answer(Fallback, local, false))
    else if reply != Raised then (s.(redis := redis, degraded := false), Answer(Redis, reply, false))
    else (State(redis, fallback, true, call.failedAt), Answer(Fallback, local, true))
  }

  /** A run: the state before each call and at the end, and the answers. */
  function States(s: State, calls: seq<Call>): (states: seq<State>)
    ensures |states| == |calls| + 1 && states[0] == s
    decreases |calls|
  {
    if calls == [] then [s] else [s] + States(Step(s, calls[0]).0, calls[1..])
  }

  function Answers(s: State, calls: seq<Call>): (answers: seq<Answer>)
    ensures |answers| == |calls|
    decreases |calls|
  {
    if calls == [] then []
    else [Step(s, calls[0]).1] + Answers(Step(s, calls[0]).0, calls[1..])
  }

  function Final(s: State, calls: seq<Call>): State {
    States(s, calls)[|calls|]
  }

  /** A plain map that executes the operations in order: what it ends as, what it replies. */
  function Replay(s: Store, ops: seq<Op>): (result: (Store, seq<Reply>))
    ensures |result.1| == |ops|
    decreases |ops|
  {
    if ops == [] then (s, [])
    else
      var (next, reply) := Perform(s, ops[0]);
      var (last, replies) := Replay(next, ops[1..]);
      (last, [reply] + replies)
  }

  /** The operations answered by the fallback, and its replies, in order. */
  function FallbackOps(calls: seq<Call>, answers: seq<Answer>): seq<Op>
    requires |calls| == |answers|
  {
    if calls == [] then []
    else (if answers[0].side == Fallback then [calls[0].op] else []) + FallbackOps(calls[1..], answers[1..])
  }

  function FallbackReplies(answers: seq<Answer>): seq<Reply> {
    if answers == [] then []
    else (if answers[0].side == Fallback then [answers[0].reply] else []) + FallbackReplies(answers[1..])
  }

  /** The fallback behaves as a plain map that sees exactly the calls it answers: calls answered
      by Redis leave no trace in it, and a call whose Redis attempt raised reaches it once. */
  lemma {:induction false} FallbackIsReplay(s: State, calls: seq<Call>)
    ensures var answers := Answers(s, calls);
            Replay(s.fallback, FallbackOps(calls, answers)) == (Final(s, calls).fallback, FallbackReplies(answers))
    decreases |calls|
  {
    if calls != [] {
      var next := Step(s, calls[0]).0;
      var answers := Answers(s, calls);
      FallbackIsReplay(next, calls[1..]);
      assert answers[1..] == Answers(next, calls[1..]);
      assert Final(s, calls) == Final(next, calls[1..]);
      if answers[0].side == Fallback {
        assert FallbackOps(calls, answers)[1..] == FallbackOps(calls[1..], answers[1..]);
      } else {
        assert FallbackOps(calls, answers) == FallbackOps(calls[1..], answers[1..]);
        assert FallbackReplies(answers) == FallbackReplies(answers[1..]);
        assert next.fallback == s.fallback;
      }
    }
  }

  /** Redis was tried for the call. */
  predicate Tried(answer: Answer) {
    answer.side == Redis || answer.raised
  }

  /** The calls for which Redis was tried, and what came of it: Redis's reply, or an exception. */
  function TriedCalls(calls: seq<Call>, answers: seq<Answer>): seq<Call>
    requires |calls| == |answers|
  {
    if calls == [] then []
    else (if Tried(answers[0]) then [calls[0]] else []) + TriedCalls(calls[1..], answers[1..])
  }

  function TriedReplies(answers: seq<Answer>): seq<Reply> {
    if answers == [] then []
    else
      (if !Tried(answers[0]) then [] else if answers[0].raised then [Raised] else [answers[0].reply])
      + TriedReplies(answers[1..])
  }

  /** Redis executing the calls alone. */
  function RedisRun(s: Store, calls: seq<Call>): (Store, seq<Reply>)
    decreases |calls|
  {
    if calls == [] then (s, [])
    else
      var (next, reply) := OnRedis(s, calls[0].op, calls[0].outcome);
      var (last, replies) := RedisRun(next, calls[1..]);
      (last, [reply] + replies)
  }

  /** Redis sees exactly the calls for which it is tried, each once: its content and its replies
      are those of Redis executing them alone. With `FallbackIsReplay`, every call is answered by
      one store, and a call that Redis did not answer reaches the fallback. */
  lemma {:induction false} RedisIsReplay(s: State, calls: seq<Call>)
    ensures var answers := Answers(s, calls);
            RedisRun(s.redis, TriedCalls(calls, answers)) == (Final(s, calls).redis, TriedReplies(answers))
    decreases |calls|
  {
    if calls != [] {
      var next := Step(s, calls[0]).0;
      var answers := Answers(s, calls);
      RedisIsReplay(next, calls[1..]);
      assert answers[1..] == Answers(next, calls[1..]);
      assert Final(s, calls) == Final(next, calls[1..]);
      if Tried(answers[0]) {
        assert TriedCalls(calls, answers)[1..] == TriedCalls(calls[1..], answers[1..]);
      } else {
        assert TriedCalls(calls, answers) == TriedCalls(calls[1..], answers[1..]);
        assert TriedReplies(answers) == TriedReplies(answers[1..]);
      }
    }
  }

  function Ops(calls: seq<Call>): (ops: seq<Op>)
    ensures |ops| == |calls|
    ensures forall i :: 0 <= i < |calls| ==> ops[i] == calls[i].op
  {
    seq(|calls|, i requires 0 <= i < |calls| => calls[i].op)
  }

  function Replies(answers: seq<Answer>): (replies: seq<Reply>)
    ensures |replies| == |answers|
    ensures forall i :: 0 <= i < |answers| ==> replies[i] == answers[i].reply
  {
    seq(|answers|, i requires 0 <= i < |answers| => answers[i].reply)
  }

  ghost predicate AllWork(calls: seq<Call>) {
    forall i :: 0 <= i < |calls| ==> calls[i].outcome == Works
  }

  ghost predicate AllByRedis(answers: seq<Answer>) {
    forall i :: 0 <= i < |answers| ==> answers[i].side == Redis
  }

  /** The cache ends as Redis alone would, and replies as Redis alone does. */
  ghost predicate LikeRedisAlone(s: State, calls: seq<Call>) {
    var (redis, replies) := Replay(s.redis, Ops(calls));
    Replies(Answers(s, calls)) == replies && Final(s, calls) == s.(redis := redis)
  }

  lemma FirstCall(s: State, calls: seq<Call>)
    requires calls != [] && !s.degraded && calls[0].outcome == Works
    ensures var (redis, reply) := Perform(s.redis, calls[0].op);
            var next := s.(redis := redis);
            && (reply != Raised ==> Step(s, calls[0]) == (next, Answer(Redis, reply, false)))
            && (reply != Raised && LikeRedisAlone(next, calls[1..]) ==> LikeRedisAlone(s, calls))
            && Replay(s.redis, Ops(calls)).1 == [reply] + Replay(redis, Ops(calls[1..])).1
  {
    assert Ops(calls)[1..] == Ops(calls[1..]);
    var (redis, reply) := Perform(s.redis, calls[0].op);
    if reply != Raised {
      assert Replies(Answers(s, calls)) == [reply] + Replies(Answers(s.(redis := redis), calls[1..]));
    }
  }

  lemma {:induction false} NoRaiseMeansRedisAlone(s: State, calls: seq<Call>)
    requires !s.degraded && AllWork(calls) && Raised !in Replay(s.redis, Ops(calls)).1
    ensures AllByRedis(Answers(s, calls)) && LikeRedisAlone(s, calls)
    decreases |calls|
  {
    if calls != [] {
      FirstCall(s, calls);
      NoRaiseMeansRedisAlone(Step(s, calls[0]).0, calls[1..]);
    }
  }

  lemma {:induction false} ByRedisMeansNoRaise(s: State, calls: seq<Call>)
    requires !s.degraded && AllWork(calls) && AllByRedis(Answers(s, calls))
    ensures Raised !in Replay(s.redis, Ops(calls)).1
    decreases |calls|
  {
    if calls != [] {
      FirstCall(s, calls);
      assert Answers(s, calls)[0].side == Redis;
      assert Answers(s, calls)[1..] == Answers(Step(s, calls[0]).0, calls[1..]);
      ByRedisMeansNoRaise(Step(s, calls[0]).0, calls[1..]);
    }
  }

  /** While every Redis call works, Redis answers every call exactly when no operation raises on
      its own account, and then the cache is indistinguishable from Redis alone. */
  lemma HealthyRunIsRedisAlone(s: State, calls: seq<Call>)
    requires !s.degraded && AllWork(calls)
    ensures AllByRedis(Answers(s, calls)) <==> Raised !in Replay(s.redis, Ops(calls)).1
    ensures AllByRedis(Answers(s, calls)) ==> LikeRedisAlone(s, calls)
  {
    if Raised !in Replay(s.redis, Ops(calls)).1 {
      NoRaiseMeansRedisAlone(s, calls);
    } else if AllByRedis(Answers(s, calls)) {
      ByRedisMeansNoRaise(s, calls);
      assert false;
    }
  }

  /** So an application error is taken for an outage: incrementing a key that Redis does not
      hold degrades the cache although Redis is up. */
  lemma MissingKeyDegrades(s: State, key: string, delta: int, now: real)
    requires !s.degraded && key !in s.redis
    ensures var (next, answer) := Step(s, Call(Incr(key, delta), now, Works, now));
            next.degraded && next.lastFailure == now && next.redis == s.redis && answer.side == Fallback
  {
  }

  /** The latest call for which Redis was tried raised; `before` if there was none. */
  function LatestRaised(answers: seq<Answer>, before: bool): bool {
    if answers == [] then before
    else
      var last := answers[|answers| - 1];
      if Tried(last) then last.raised else LatestRaised(answers[..|answers| - 1], before)
  }

  lemma {:induction false} LatestRaisedFromFront(answers: seq<Answer>, before: bool)
    requires answers != []
    ensures LatestRaised(answers, before)
            == LatestRaised(answers[1..], if Tried(answers[0]) then answers[0].raised else before)
  {
    if |answers| > 1 {
      LatestRaisedFromFront(answers[..|answers| - 1], before);
      assert answers[..|answers| - 1][1..] == answers[1..][..|answers| - 2];
    }
  }

  /** The cache is degraded exactly when the latest Redis call raised. */
  lemma {:induction false} DegradedIffLatestRaised(s: State, calls: seq<Call>)
    ensures Final(s, calls).degraded == LatestRaised(Answers(s, calls), s.degraded)
    decreases |calls|
  {
    if calls != [] {
      var next := Step(s, calls[0]).0;
      DegradedIffLatestRaised(next, calls[1..]);
      LatestRaisedFromFront(Answers(s, calls), s.degraded);
      assert Answers(s, calls)[1..] == Answers(next, calls[1..]);
      assert Final(s, calls) == Final(next, calls[1..]);
    }
  }

  // ---- What the operations do -------------------------------------------------------------

  /** What reading the key gives. */
  function Look(s: Store, key: string, default: Value): Value {
    match Perform(s, Get(key, default)).1
    case Item(value) => value
    case _ => default
  }

  predicate Has(s: Store, key: string) {
    Perform(s, HasKey(key)).1 == Flag(true)
  }

  /** What is written is read back, and nothing else changes: said of each operation by what reading
      gives before and after it. */
  lemma ReadsSeeWrites(s: Store, key: string, value: Value, other: string, default: Value)
    ensures Look(Perform(s, Set(key, value)).0, other, default)
            == if other == key then value else Look(s, other, default)
    ensures Has(Perform(s, Set(key, value)).0, other) <==> other == key || Has(s, other)
    ensures !Has(s, key) ==> Look(s, key, default) == default
    ensures Perform(s, Get(key, default)).0 == Perform(s, HasKey(key)).0 == s
    ensures Perform(s, Set(key, value)).1 == Done
    ensures Perform(s, Add(key, value))
            == if Has(s, key) then (s, Flag(false)) else (Perform(s, Set(key, value)).0, Flag(true))
  {
  }

  lemma DeletesForget(s: Store, key: string, other: string, default: Value)
    ensures Perform(s, Delete(key)).1 == Flag(Has(s, key))
    ensures Has(Perform(s, Delete(key)).0, other) <==> other != key && Has(s, other)
    ensures other != key ==> Look(Perform(s, Delete(key)).0, other, default) == Look(s, other, default)
    ensures !Has(Perform(s, Clear).0, other) && Perform(s, Clear).1 == Done
  {
  }

  /** The operations on many keys do what the single ones do for each of the keys. */
  lemma ManyAreEach(s: Store, keys: set<string>, mapping: Store, other: string, default: Value)
    ensures Look(Perform(s, SetMany(mapping)).0, other, default)
            == if other in mapping then mapping[other] else Look(s, other, default)
    ensures Has(Perform(s, SetMany(mapping)).0, other) <==> other in mapping || Has(s, other)
    ensures Has(Perform(s, DeleteMany(keys)).0, other) <==> other !in keys && Has(s, other)
    ensures other !in keys ==> Look(Perform(s, DeleteMany(keys)).0, other, default) == Look(s, other, default)
    ensures Perform(s, SetMany(mapping)).1 == Perform(s, DeleteMany(keys)).1 == Done
    ensures Perform(s, GetMany(keys)).0 == s && Perform(s, GetMany(keys)).1.Items?
    ensures var items := Perform(s, GetMany(keys)).1.items;
            && (other in items <==> other in keys && Has(s, other))
            && (other in items ==> items[other] == Look(s, other, default))
  {
  }

  /** Incrementing raises, and changes nothing, exactly when the key holds no number; decrementing
      undoes it, and two increments are one by the sum. */
  lemma IncrementsAdd(s: Store, key: string, n: int, a: int, b: int)
    ensures var t := Perform(s, Set(key, Num(n))).0;
            && Perform(t, Incr(key, a)) == (Perform(s, Set(key, Num(n + a))).0, Item(Num(n + a)))
            && Perform(Perform(t, Incr(key, a)).0, Decr(key, a)) == (t, Item(Num(n)))
            && Perform(Perform(t, Incr(key, a)).0, Incr(key, b)) == Perform(t, Incr(key, a + b))
    ensures Perform(s, Incr(key, a)).1 == Raised <==> !Has(s, key) || Look(s, key, Text("")).Text?
    ensures Perform(s, Incr(key, a)).1 == Raised ==> Perform(s, Incr(key, a)).0 == s
    ensures Perform(s, Decr(key, a)) == Perform(s, Incr(key, -a))
  {
    SetTwice(s, key, Num(n), Num(n + a));
    SetTwice(s, key, Num(n + a), Num(n));
    SetTwice(s, key, Num(n), Num(n + a + b));
    SetTwice(s, key, Num(n + a), Num(n + a + b));
    assert n + (a + b) == n + a + b;
  }

  lemma SetTwice(s: Store, key: string, first: Value, second: Value)
    ensures s[key := first][key := second] == s[key := second]
  {
  }

  // ---- When Redis is tried ----------------------------------------------------------------

  /** The time of the latest failure on record: the last one of the run, or the one before it. */
  function LatestFailure(s: State, calls: seq<Call>): real {
    var times := Failures(s, calls);
    if times == [] then s.lastFailure else times[|times| - 1]
  }

  lemma {:induction false} FinalRecordsLatest(s: State, calls: seq<Call>)
    ensures Final(s, calls).lastFailure == LatestFailure(s, calls)
    decreases |calls|
  {
    if calls != [] {
      var (next, answer) := Step(s, calls[0]);
      FinalRecordsLatest(next, calls[1..]);
      assert Final(s, calls) == Final(next, calls[1..]);
      var rest := Failures(next, calls[1..]);
      assert Failures(s, calls) == (if answer.raised then [calls[0].failedAt] else []) + rest;
      assert answer.raised ==> next.lastFailure == calls[0].failedAt;
    }
  }

  /** The k-th call is answered from the state that the calls before it leave. */
  lemma {:induction false} AnswerAt(s: State, calls: seq<Call>, k: nat)
    requires k < |calls|
    ensures Answers(s, calls)[k] == Step(Final(s, calls[..k]), calls[k]).1
    ensures Answers(s, calls)[..k] == Answers(s, calls[..k])
    decreases k
  {
    if k > 0 {
      var next := Step(s, calls[0]).0;
      AnswerAt(next, calls[1..], k - 1);
      assert calls[..k][1..] == calls[1..][..k - 1];
      assert Answers(s, calls)[..k] == [Step(s, calls[0]).1] + Answers(next, calls[1..])[..k - 1];
    }
  }

  /** In every run Redis is tried for a call if and only if the latest Redis call did not raise, or
      at least 60 seconds have passed since that failure when the call starts. */
  lemma TriedExactly(s: State, calls: seq<Call>, k: nat)
    requires k < |calls|
    ensures var answers := Answers(s, calls);
            Tried(answers[k]) <==> !LatestRaised(answers[..k], s.degraded)
                                   || calls[k].startedAt >= LatestFailure(s, calls[..k]) + 60.0
  {
    AnswerAt(s, calls, k);
    DegradedIffLatestRaised(s, calls[..k]);
    FinalRecordsLatest(s, calls[..k]);
  }

  // ---- How often Redis may fail -----------------------------------------------------------

  /** The clock does not run backwards. */
  ghost predicate Chronological(calls: seq<Call>) {
    && (forall i :: 0 <= i < |calls| ==> calls[i].startedAt <= calls[i].failedAt)
    && (forall i, j :: 0 <= i < j < |calls| ==> calls[i].failedAt <= calls[j].startedAt)
  }

  /** The times at which Redis failures are recorded, in order. */
  function Failures(s: State, calls: seq<Call>): seq<real>
    decreases |calls|
  {
    if calls == [] then []
    else
      var (next, answer) := Step(s, calls[0]);
      (if answer.raised then [calls[0].failedAt] else []) + Failures(next, calls[1..])
  }

  /** After a failure at time `f` the next one is recorded a minute later at the earliest,
      however many recoveries lie in between. */
  lemma {:induction false} NextFailureIsFar(s: State, calls: seq<Call>, f: real)
    requires Chronological(calls)
    requires (s.degraded && s.lastFailure >= f)
             || forall i :: 0 <= i < |calls| ==> calls[i].startedAt >= f + 60.0
    ensures forall t :: t in Failures(s, calls) ==> t >= f + 60.0
    decreases |calls|
  {
    if calls != [] {
      var next := Step(s, calls[0]).0;
      if Tries(s, calls[0]) {
        assert calls[0].startedAt >= f + 60.0;
        assert forall i :: 0 <= i < |calls[1..]| ==> calls[1..][i].startedAt >= calls[0].failedAt;
      }
      NextFailureIsFar(next, calls[1..], f);
    }
  }

  ghost predicate Spaced(times: seq<real>) {
    forall i, j :: 0 <= i < j < |times| ==> times[j] >= times[i] + 60.0
  }

  /** Any two recorded Redis failures are at least a minute apart. */
  lemma {:induction false} FailuresAreSpaced(s: State, calls: seq<Call>)
    requires Chronological(calls)
    ensures Spaced(Failures(s, calls))
    decreases |calls|
  {
    if calls != [] {
      var (next, answer) := Step(s, calls[0]);
      var rest := Failures(next, calls[1..]);
      FailuresAreSpaced(next, calls[1..]);
      if answer.raised {
        NextFailureIsFar(next, calls[1..], calls[0].failedAt);
        assert forall j :: 0 <= j < |rest| ==> rest[j] in rest;
      }
    }
  }

  function CountBetween(times: seq<real>, from: real, to: real): nat {
    if times == [] then 0
    else
      var last := times[|times| - 1];
      CountBetween(times[..|times| - 1], from, to) + if from <= last <= to then 1 else 0
  }

  lemma {:induction false} CountCut(times: seq<real>, from: real, to: real, cut: real)
    requires forall i :: 0 <= i < |times| ==> times[i] <= cut
    ensures CountBetween(times, from, to) <= CountBetween(times, from, cut)
    ensures cut < from ==> CountBetween(times, from, to) == 0
  {
    if times != [] {
      CountCut(times[..|times| - 1], from, to, cut);
    }
  }

  lemma {:induction false} SpacedCount(times: seq<real>, from: real, to: real)
    requires Spaced(times) && from <= to
    ensures CountBetween(times, from, to) <= ((to - from) / 60.0).Floor + 1
  {
    if times != [] {
      var last, before := times[|times| - 1], times[..|times| - 1];
      if from <= last <= to {
        var cut := last - 60.0;
        CountCut(before, from, to, cut);
        if from <= cut {
          SpacedCount(before, from, cut);
          assert (cut - from) / 60.0 + 1.0 <= (to - from) / 60.0;
        }
      } else {
        SpacedCount(before, from, to);
      }
    }
  }

  /** Any window of L seconds holds at most floor(L/60) + 1 failed Redis calls. */
  lemma FewFailuresPerWindow(s: State, calls: seq<Call>, from: real, length: real)
    requires Chronological(calls) && length >= 0.0
    ensures CountBetween(Failures(s, calls), from, from + length) <= (length / 60.0).Floor + 1
  {
    FailuresAreSpaced(s, calls);
    SpacedCount(Failures(s, calls), from, from + length);
  }
}
