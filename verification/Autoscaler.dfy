/** The VPS autoscaler: demand scores, worker and memory targets, and their application.
    Python's floats are modelled as exact reals. */
module Autoscaler {
  const MIN_MEMORY_MB: int := 256
  const MAX_MEMORY_MB: int := 2048
  const WORKER_MEMORY_MB: int := 120

  datatype Kind = Gunicorn | Celery | Daphne

  datatype Service = Service(name: string, kind: Kind, priority: int, minWorkers: int, maxWorkers: int)

  datatype Stats = Stats(cpu: real, memory: real, limit: real, rx: real, tx: real, pids: int)

  function Least(a: real, b: real): real { if a < b then a else b }
  function Min(a: int, b: int): int { if a < b then a else b }
  function Max(a: int, b: int): int { if a > b then a else b }

  /** Python's `int(x)`: truncation toward zero. */
  function Trunc(x: real): int {
    if x >= 0.0 then x.Floor else -((-x).Floor)
  }

  /** The whole number next to x on the side of zero. */
  lemma TruncTowardZero(x: real)
    ensures var t := Trunc(x) as real;
            (x >= 0.0 ==> 0.0 <= t <= x < t + 1.0) && (x <= 0.0 ==> t - 1.0 < x <= t <= 0.0)
  {
  }

  // ---- Demand -----------------------------------------------------------------------------

  /** CPU, memory pressure, network and processes, weighted 4:3:2:1, each capped at 1. */
  function Load(s: Stats): real {
    Least(s.cpu / 100.0, 1.0) * 0.4 + Least(s.memory / 100.0, 1.0) * 0.3
    + Least((s.rx + s.tx) / 50.0, 1.0) * 0.2 + Least(s.pids as real / 100.0, 1.0) * 0.1
  }

  /** Higher priority boosts the load. */
  function Boost(priority: int): real {
    1.0 + (priority - 1) as real * 0.1
  }

  function Capped(load: real, boost: real): real {
    Least(load * boost, 1.0)
  }

  function Score(service: Service, s: Stats): real {
    Capped(Load(s), Boost(service.priority))
  }

  ghost predicate Table(table: seq<Service>) {
    forall i, j :: 0 <= i < j < |table| ==> table[i].name != table[j].name
  }

  ghost predicate NonNegative(s: Stats) {
    s.cpu >= 0.0 && s.memory >= 0.0 && s.rx >= 0.0 && s.tx >= 0.0 && s.pids >= 0
  }

  method CalculateDemandScores(table: seq<Service>, stats: map<string, Stats>) returns (scores: map<string, real>)
    requires Table(table)
    ensures scores.Keys == set i | 0 <= i < |table| :: table[i].name
    ensures forall i :: 0 <= i < |table| ==>
              scores[table[i].name] == if table[i].name in stats then Score(table[i], stats[table[i].name]) else 0.0
  {
    scores := map[];
    for i := 0 to |table|
      invariant scores.Keys == set j | 0 <= j < i :: table[j].name
      invariant forall j :: 0 <= j < i ==> table[j].name in scores
      invariant forall j :: 0 <= j < i ==>
                  scores[table[j].name] == if table[j].name in stats then Score(table[j], stats[table[j].name]) else 0.0
    {
      var name := table[i].name;
      scores := scores[name := if name in stats then Score(table[i], stats[name]) else 0.0];
    }
  }

  /** Demand scores lie between 0 and 1, and no statistic that grows lowers one. */
  lemma ScoreIsMonotoneInUnitRange(service: Service, s: Stats, t: Stats)
    requires service.priority >= 1 && NonNegative(s)
    requires s.cpu <= t.cpu && s.memory <= t.memory && s.rx <= t.rx && s.tx <= t.tx && s.pids <= t.pids
    ensures 0.0 <= Score(service, s) <= Score(service, t) <= 1.0
  {
    LoadIsMonotone(s, t);
    CappedIsMonotone(Load(s), Load(t), Boost(service.priority));
  }

  lemma CappedIsMonotone(a: real, b: real, boost: real)
    requires 0.0 <= a <= b && boost >= 0.0
    ensures 0.0 <= Capped(a, boost) <= Capped(b, boost) <= 1.0
  {
  }

  lemma LoadIsMonotone(s: Stats, t: Stats)
    requires NonNegative(s)
    requires s.cpu <= t.cpu && s.memory <= t.memory && s.rx <= t.rx && s.tx <= t.tx && s.pids <= t.pids
    ensures 0.0 <= Load(s) <= Load(t)
  {
  }

  lemma Scale(a: real, b: real, c: real)
    requires 0.0 <= a <= b && c >= 0.0
    ensures 0.0 <= a * c <= b * c
  {
  }

  /** The readings differ in one statistic at most. */
  ghost predicate OnlyCpu(s: Stats, t: Stats) {
    s.memory == t.memory && s.rx == t.rx && s.tx == t.tx && s.pids == t.pids
  }

  ghost predicate OnlyMemory(s: Stats, t: Stats) {
    s.cpu == t.cpu && s.rx == t.rx && s.tx == t.tx && s.pids == t.pids
  }

  ghost predicate OnlyTraffic(s: Stats, t: Stats) {
    s.cpu == t.cpu && s.memory == t.memory && s.pids == t.pids
  }

  ghost predicate OnlyProcesses(s: Stats, t: Stats) {
    s.cpu == t.cpu && s.memory == t.memory && s.rx == t.rx && s.tx == t.tx
  }

  /** At priority 1 the score grows by 0.4 for each 100% of CPU, up to 100% and no further. */
  lemma CpuCounts(service: Service, s: Stats, t: Stats)
    requires service.priority == 1 && NonNegative(s) && NonNegative(t) && OnlyCpu(s, t)
    ensures s.cpu <= 100.0 && t.cpu <= 100.0 ==>
              Score(service, t) - Score(service, s) == 0.4 * ((t.cpu - s.cpu) / 100.0)
    ensures s.cpu >= 100.0 && t.cpu >= 100.0 ==> Score(service, t) == Score(service, s)
  {
    FirstPriority(service, s);
    FirstPriority(service, t);
  }

  /** By 0.3 for each 100% of memory. */
  lemma MemoryCounts(service: Service, s: Stats, t: Stats)
    requires service.priority == 1 && NonNegative(s) && NonNegative(t) && OnlyMemory(s, t)
    ensures s.memory <= 100.0 && t.memory <= 100.0 ==>
              Score(service, t) - Score(service, s) == 0.3 * ((t.memory - s.memory) / 100.0)
    ensures s.memory >= 100.0 && t.memory >= 100.0 ==> Score(service, t) == Score(service, s)
  {
    FirstPriority(service, s);
    FirstPriority(service, t);
  }

  /** By 0.2 for each 50 MB of traffic, both directions together. */
  lemma TrafficCounts(service: Service, s: Stats, t: Stats)
    requires service.priority == 1 && NonNegative(s) && NonNegative(t) && OnlyTraffic(s, t)
    ensures s.rx + s.tx <= 50.0 && t.rx + t.tx <= 50.0 ==>
              Score(service, t) - Score(service, s) == 0.2 * (((t.rx + t.tx) - (s.rx + s.tx)) / 50.0)
    ensures s.rx + s.tx >= 50.0 && t.rx + t.tx >= 50.0 ==> Score(service, t) == Score(service, s)
  {
    FirstPriority(service, s);
    FirstPriority(service, t);
  }

  /** And by 0.1 for each 100 processes; a service without any of it has no demand. */
  lemma ProcessesCount(service: Service, s: Stats, t: Stats)
    requires service.priority == 1 && NonNegative(s) && NonNegative(t) && OnlyProcesses(s, t)
    ensures s.pids <= 100 && t.pids <= 100 ==>
              Score(service, t) - Score(service, s) == 0.1 * ((t.pids - s.pids) as real / 100.0)
    ensures s.pids >= 100 && t.pids >= 100 ==> Score(service, t) == Score(service, s)
    ensures s.cpu == s.memory == s.rx == s.tx == 0.0 && s.pids == 0 ==> Score(service, s) == 0.0
  {
    FirstPriority(service, s);
    FirstPriority(service, t);
  }

  lemma FirstPriority(service: Service, s: Stats)
    requires service.priority == 1
    ensures Score(service, s) == Load(s)
  {
    assert Load(s) <= 1.0;
  }

  /** Each further priority adds a tenth of the score at priority 1, until the score reaches 1. */
  lemma NextPriorityCounts(first: Service, service: Service, next: Service, s: Stats)
    requires first.priority == 1 <= service.priority && next.priority == service.priority + 1 && NonNegative(s)
    ensures var more := Score(service, s) + Score(first, s) / 10.0;
            Score(next, s) == if more < 1.0 then more else 1.0
  {
    FirstPriority(first, s);
    LoadIsMonotone(s, s);
    BoostAddsTenth(Load(s), service.priority);
  }

  lemma BoostAddsTenth(load: real, priority: int)
    requires load >= 0.0
    ensures var more := Capped(load, Boost(priority)) + load / 10.0;
            Capped(load, Boost(priority + 1)) == if more < 1.0 then more else 1.0
  {
    var boost := Boost(priority);
    assert Boost(priority + 1) == boost + 0.1;
    Distribute(load, boost);
  }

  lemma Distribute(load: real, boost: real)
    ensures load * (boost + 0.1) == load * boost + load / 10.0
  {
  }

  // ---- Targets ----------------------------------------------------------------------------

  function TargetWorkers(demand: real, lo: int, hi: int): int {
    if demand < 0.1 then lo
    else if demand < 0.3 then Min(lo + 1, hi)
    else if demand < 0.6 then Min(Trunc(hi as real * 0.6), hi)
    else hi
  }

  ghost predicate StaysInRange(lo: int, hi: int) {
    forall demand :: lo <= TargetWorkers(demand, lo, hi) <= hi
  }

  ghost predicate FollowsDemand(lo: int, hi: int) {
    forall a, b :: a <= b ==> TargetWorkers(a, lo, hi) <= TargetWorkers(b, lo, hi)
  }

  /** The worker target stays between the service's bounds for every demand exactly when 60% of
      the maximum, truncated, is not below the minimum. */
  lemma TargetInRangeExactly(lo: int, hi: int)
    requires lo <= hi
    ensures StaysInRange(lo, hi) <==> lo <= Trunc(hi as real * 0.6)
  {
    if StaysInRange(lo, hi) {
      assert lo <= TargetWorkers(0.5, lo, hi);
    }
  }

  /** And it never falls when demand rises exactly when that value is not below the target for
      low demand either. */
  lemma TargetFollowsDemandExactly(lo: int, hi: int)
    requires lo <= hi
    ensures FollowsDemand(lo, hi) <==> Min(lo + 1, hi) <= Trunc(hi as real * 0.6)
  {
    if FollowsDemand(lo, hi) {
      assert TargetWorkers(0.2, lo, hi) <= TargetWorkers(0.5, lo, hi);
    }
  }

  /** The table the autoscaler ships with. */
  const SERVICE_GROUPS: seq<Service> := [
    Service("smsly-helper-web", Gunicorn, 3, 2, 8),
    Service("smsly-helper-celery", Celery, 2, 1, 4),
    Service("lina-deluxe-backend", Gunicorn, 2, 2, 4),
    Service("lina-deluxe-celery", Celery, 2, 1, 4),
    Service("buyforfront-backend", Daphne, 2, 1, 1),
    Service("ignite-web", Gunicorn, 1, 2, 4),
    Service("ignite-celery", Celery, 1, 1, 4)
  ]

  /** Every shipped worker service keeps its bounds, but the two Gunicorn services with 2 to 4
      workers get fewer of them at medium demand than at low demand. */
  lemma ShippedTargets(i: nat)
    requires i < |SERVICE_GROUPS| && !SERVICE_GROUPS[i].kind.Daphne?
    ensures StaysInRange(SERVICE_GROUPS[i].minWorkers, SERVICE_GROUPS[i].maxWorkers)
    ensures FollowsDemand(SERVICE_GROUPS[i].minWorkers, SERVICE_GROUPS[i].maxWorkers)
            <==> SERVICE_GROUPS[i].name !in {"lina-deluxe-backend", "ignite-web"}
  {
    var s := SERVICE_GROUPS[i];
    TargetInRangeExactly(s.minWorkers, s.maxWorkers);
    TargetFollowsDemandExactly(s.minWorkers, s.maxWorkers);
    assert i in {0, 1, 2, 3, 5, 6};
  }

  datatype Action = ScaleUp | ScaleDown | AdjustMemory | NoAction

  datatype Decision = Decision(container: string, action: Action, currentWorkers: int, targetWorkers: int,
                               targetMemory: int)

  function Share(demand: real, total: real): real {
    if total == 0.0 then demand else demand / total
  }

  function DaphneMemory(demand: real, total: real, budget: int): int {
    Max(MIN_MEMORY_MB, Min(Trunc(budget as real * Share(demand, total) * 0.5), MAX_MEMORY_MB))
  }

  function WorkerMemory(workers: int): int {
    Min(Max(MIN_MEMORY_MB, workers * WORKER_MEMORY_MB + 128), MAX_MEMORY_MB)
  }

  /** The limit differs from the target by more than 64 MB. */
  predicate FarFrom(target: int, limit: real) {
    target as real - limit > 64.0 || limit - target as real > 64.0
  }

  function Decide(service: Service, s: Stats, demand: real, total: real, budget: int): Decision {
    if service.kind.Daphne? then
      var memory := DaphneMemory(demand, total, budget);
      Decision(service.name, if FarFrom(memory, s.limit) then AdjustMemory else NoAction, 1, 1, memory)
    else
      var target := TargetWorkers(demand, service.minWorkers, service.maxWorkers);
      var current := Max(1, s.pids - 1);
      var memory := WorkerMemory(target);
      var action :=
        if target > current then ScaleUp
        else if target < current then ScaleDown
        else if FarFrom(memory, s.limit) then AdjustMemory
        else NoAction;
      Decision(service.name, action, current, target, memory)
  }

  // ---- What is decided --------------------------------------------------------------------

  /** The workers that the shipped services get at very low, low, medium and high demand. */
  lemma ShippedWorkers(i: nat, s: Stats, demand: real, total: real, budget: int)
    requires i < |SERVICE_GROUPS|
    ensures var workers := Decide(SERVICE_GROUPS[i], s, demand, total, budget).targetWorkers;
            && (demand < 0.1 ==> workers == [2, 1, 2, 1, 1, 2, 1][i])
            && (0.1 <= demand < 0.3 ==> workers == [3, 2, 3, 2, 1, 3, 2][i])
            && (0.3 <= demand < 0.6 ==> workers == [4, 2, 2, 2, 1, 2, 2][i])
            && (0.6 <= demand ==> workers == [8, 4, 4, 4, 1, 4, 4][i])
  {
    assert i in {0, 1, 2, 3, 4, 5, 6};
  }

  /** The demand of the shipped services that use a fifth of everything. */
  lemma ShippedScores(i: nat, s: Stats)
    requires i < |SERVICE_GROUPS| && s.cpu == s.memory == 20.0 && s.rx + s.tx == 10.0 && s.pids == 20
    ensures Score(SERVICE_GROUPS[i], s) == [0.24, 0.22, 0.22, 0.22, 0.22, 0.2, 0.2][i]
  {
    assert i in {0, 1, 2, 3, 4, 5, 6};
    assert Load(s) == 0.2;
  }

  /** The memory of a worker service: 120 MB for each worker and 128 more, between 256 and 2048 MB. */
  lemma WorkerMemoryExactly(service: Service, s: Stats, demand: real, total: real, budget: int)
    requires !service.kind.Daphne?
    ensures var d := Decide(service, s, demand, total, budget);
            && (d.targetWorkers <= 1 ==> d.targetMemory == 256)
            && (2 <= d.targetWorkers <= 15 ==> d.targetMemory == 120 * d.targetWorkers + 128)
            && (d.targetWorkers >= 16 ==> d.targetMemory == 2048)
  {
  }

  /** The memory of a Daphne service is the whole megabytes of half its share of the budget, the
      share being its part of the total demand, brought to the nearest of 256 to 2048. */
  lemma DaphneMemoryExactly(service: Service, s: Stats, demand: real, total: real, budget: int)
    requires service.kind.Daphne? && budget >= 0 && demand >= 0.0 && total >= 0.0
    ensures var memory := Decide(service, s, demand, total, budget).targetMemory;
            var half := budget as real * (if total > 0.0 then demand / total else demand) / 2.0;
            && 256 <= memory <= 2048
            && (half < 257.0 ==> memory == 256) && (half >= 2048.0 ==> memory == 2048)
            && (256.0 <= half < 2049.0 ==> memory as real <= half < memory as real + 1.0)
  {
    var share := if total > 0.0 then demand / total else demand;
    var part := budget as real * share;
    NotNegative(budget as real, share);
    HalfDecides(part);
    assert DaphneMemory(demand, total, budget) == Max(MIN_MEMORY_MB, Min(Trunc(part * 0.5), MAX_MEMORY_MB));
  }

  lemma HalfDecides(part: real)
    requires part >= 0.0
    ensures var memory, half := Max(MIN_MEMORY_MB, Min(Trunc(part * 0.5), MAX_MEMORY_MB)), part / 2.0;
            && 256 <= memory <= 2048
            && (half < 257.0 ==> memory == 256) && (half >= 2048.0 ==> memory == 2048)
            && (256.0 <= half < 2049.0 ==> memory as real <= half < memory as real + 1.0)
  {
  }

  lemma NotNegative(a: real, b: real)
    requires a >= 0.0 && b >= 0.0
    ensures a * b >= 0.0
  {
  }

  /** A worker service is scaled exactly when its target differs from its processes besides the main
      one, taken to be one at least, and else its memory is set exactly when the limit is more than
      64 MB off; a Daphne service is never scaled. */
  lemma ActionExactly(service: Service, s: Stats, demand: real, total: real, budget: int)
    ensures var d := Decide(service, s, demand, total, budget);
            var workers := if s.pids >= 2 then s.pids - 1 else 1;
            var off := d.targetMemory as real - s.limit;
            && d.container == service.name && (service.kind.Daphne? ==> d.targetWorkers == d.currentWorkers == 1)
            && (!service.kind.Daphne? ==> d.currentWorkers == workers)
            && (d.action.ScaleUp? <==> d.targetWorkers > d.currentWorkers)
            && (d.action.ScaleDown? <==> d.targetWorkers < d.currentWorkers)
            && (d.action.AdjustMemory? <==> d.targetWorkers == d.currentWorkers && (off > 64.0 || off < -64.0))
  {
  }

  /** `demand_scores.get(name, 0.0)`. */
  function Demand(scores: map<string, real>, name: string): real {
    if name in scores then scores[name] else 0.0
  }

  /** `sum(demand_scores.values())`. */
  ghost function TotalDemand(scores: map<string, real>): real
    decreases |scores.Keys|
  {
    if scores.Keys == {} then 0.0
    else
      var name :| name in scores.Keys;
      assert |scores.Keys - {name}| < |scores.Keys|;
      scores[name] + TotalDemand(scores - {name})
  }

  /** Any of the values may be taken first. */
  lemma {:induction false} TotalWithout(scores: map<string, real>, name: string)
    requires name in scores
    ensures TotalDemand(scores) == scores[name] + TotalDemand(scores - {name})
    decreases |scores.Keys|
  {
    var first :| first in scores.Keys && TotalDemand(scores) == scores[first] + TotalDemand(scores - {first});
    if first != name {
      assert |(scores - {first}).Keys| < |scores.Keys| && |(scores - {name}).Keys| < |scores.Keys| by {
        assert (scores - {first}).Keys == scores.Keys - {first} && (scores - {name}).Keys == scores.Keys - {name};
      }
      TotalWithout(scores - {first}, name);
      TotalWithout(scores - {name}, first);
      assert scores - {first} - {name} == scores - {name} - {first};
    }
  }

  /** The decision for a service, if it runs. */
  function DecisionFor(service: Service, stats: map<string, Stats>, scores: map<string, real>,
                       total: real, budget: int): seq<Decision> {
    if service.name in stats then
      [Decide(service, stats[service.name], Demand(scores, service.name), total, budget)]
    else []
  }

  function Decider(stats: map<string, Stats>, scores: map<string, real>, total: real, budget: int)
    : Service -> seq<Decision>
  {
    service => DecisionFor(service, stats, scores, total, budget)
  }

  /** The decisions for the services of the table, in order. */
  function Each(table: seq<Service>, decide: Service -> seq<Decision>): seq<Decision> {
    if table == [] then []
    else
      var n := |table| - 1;
      Each(table[..n], decide) + decide(table[n])
  }

  /** One decision for each service of the table that runs. */
  function Decisions(table: seq<Service>, stats: map<string, Stats>, scores: map<string, real>,
                     total: real, budget: int): seq<Decision> {
    Each(table, Decider(stats, scores, total, budget))
  }

  method SumOfScores(scores: map<string, real>) returns (total: real)
    ensures total == TotalDemand(scores)
  {
    var left := scores;
    total := 0.0;
    while left.Keys != {}
      invariant total + TotalDemand(left) == TotalDemand(scores)
      decreases |left.Keys|
    {
      var name :| name in left.Keys;
      TotalWithout(left, name);
      assert (left - {name}).Keys == left.Keys - {name};
      total, left := total + left[name], left - {name};
    }
  }

  method MakeScalingDecisions(table: seq<Service>, stats: map<string, Stats>, scores: map<string, real>, budget: int)
    returns (decisions: seq<Decision>)
    ensures decisions == Decisions(table, stats, scores, TotalDemand(scores), budget)
  {
    var total := SumOfScores(scores);
    decisions := [];
    for i := 0 to |table|
      invariant decisions == Decisions(table[..i], stats, scores, total, budget)
    {
      assert table[..i + 1][..i] == table[..i];
      decisions := decisions + DecisionFor(table[i], stats, scores, total, budget);
    }
    assert table[..|table|] == table;
  }

  /** Every decision is one for some service of the table. */
  lemma {:induction false} EachMember(table: seq<Service>, decide: Service -> seq<Decision>)
    ensures forall d :: d in Each(table, decide) <==> exists i :: 0 <= i < |table| && d in decide(table[i])
  {
    if table != [] {
      var n := |table| - 1;
      EachMember(table[..n], decide);
      forall d ensures d in Each(table, decide) <==> exists i :: 0 <= i < |table| && d in decide(table[i]) {
        if d in Each(table[..n], decide) {
          var i :| 0 <= i < n && d in decide(table[..n][i]);
          assert d in decide(table[i]);
        }
        if i :| 0 <= i < |table| && d in decide(table[i]) {
          assert i < n ==> d in decide(table[..n][i]);
        }
      }
    }
  }

  /** Every memory target is between 256 and 2048 MB, whatever the inputs. */
  lemma MemoryInRange(table: seq<Service>, stats: map<string, Stats>, scores: map<string, real>, total: real,
                      budget: int)
    ensures forall d :: d in Decisions(table, stats, scores, total, budget)
              ==> 256 <= d.targetMemory <= 2048
  {
    EachMember(table, Decider(stats, scores, total, budget));
  }
}
