/** Applying the autoscaler's decisions: memory limits, Gunicorn signals, Celery pool sizes. */
module AutoscalerApply {
  import opened Wrappers
  import opened Decimal
  import opened Autoscaler

  // ---- Scaling Gunicorn -------------------------------------------------------------------

  /** What `pgrep -c -P 1 || echo 0` prints for a master with that many children: pgrep prints
      its count, and exits with an error when the count is 0, so that a second 0 follows. */
  function PgrepOutput(children: nat): string {
    if children == 0 then "0\n0" else Dec(children)
  }

  /** `int(text)`; anything but digits raises. */
  function ParseInt(text: string): Option<int> {
    if text != "" && AllDigits(text) then Some(Value(text)) else None
  }

  /** The worker count is read correctly exactly when there is a worker; without one the parse
      raises, and no signal is sent. */
  lemma ReadingIsExact(children: nat)
    ensures ParseInt(PgrepOutput(children)) == if children > 0 then Some(children) else None
  {
    if children == 0 {
      assert "0\n0"[1] == '\n';
    } else {
      ValueOfDec(children);
    }
  }

  /** How many of the first n signals are delivered. */
  function Delivered(delivered: nat -> bool, n: nat): nat {
    if n == 0 then 0 else Delivered(delivered, n - 1) + if delivered(n - 1) then 1 else 0
  }

  lemma {:induction false} AllDelivered(delivered: nat -> bool, n: nat)
    requires forall i :: delivered(i)
    ensures Delivered(delivered, n) == n
  {
    if n > 0 {
      AllDelivered(delivered, n - 1);
    }
  }

  class GunicornPool {
    var workers: int

    constructor (workers: int)
      ensures this.workers == workers
    {
      this.workers := workers;
    }

    /** A worker more for each TTIN, one less for each TTOU; `exitOk` is false when the command
        itself fails, and the count is then taken to be 0. */
    method Scale(target: int, exitOk: bool, stdout: string, delivered: nat -> bool)
      modifies this
      ensures exitOk && ParseInt(stdout).None? ==> workers == old(workers)
      ensures exitOk && ParseInt(stdout).Some? ==>
                var read := ParseInt(stdout).value;
                workers == old(workers) + if target > read then Delivered(delivered, target - read)
                                          else 0 - Delivered(delivered, read - target)
      ensures !exitOk ==> workers == old(workers) + if target > 0 then Delivered(delivered, target)
                                                    else 0 - Delivered(delivered, -target)
    {
      var current := 0;
      if exitOk {
        var parsed := ParseInt(stdout);
        if parsed.None? {
          return;
        }
        current := parsed.value;
      }
      if target > current {
        for i := 0 to target - current
          invariant workers == old(workers) + Delivered(delivered, i)
        {
          if delivered(i) {
            workers := workers + 1;
          }
        }
      } else if target < current {
        for i := 0 to current - target
          invariant workers == old(workers) - Delivered(delivered, i)
        {
          if delivered(i) {
            workers := workers - 1;
          }
        }
      }
    }
  }

  /** A container: its worker processes besides the main one, and its memory limit. */
  datatype Container = Container(workers: nat, limit: real)

  /** The worker count after scaling succeeded: Gunicorn by signals, Celery by pool_resize. */
  function ScaledWorkers(kind: Kind, c: Container, target: int): nat {
    match kind
    case Daphne => c.workers
    case Celery => if target >= 0 then target else c.workers
    case Gunicorn => if c.workers > 0 && target >= 0 then target else c.workers
  }

  /** When pgrep runs and every signal is delivered, the pool ends at the target if it had a
      worker to start with, and is left empty otherwise: with the worker count of a scaled
      container. */
  method ScaleWithProbe(pool: GunicornPool, target: int, delivered: nat -> bool)
    requires pool.workers >= 0 && forall i :: delivered(i)
    modifies pool
    ensures pool.workers == if old(pool.workers) > 0 then target else 0
    ensures target >= 0 ==>
              forall limit :: pool.workers == ScaledWorkers(Gunicorn, Container(old(pool.workers), limit), target)
  {
    ReadingIsExact(pool.workers);
    var read := pool.workers;
    AllDelivered(delivered, if target > read then target - read else read - target);
    pool.Scale(target, true, PgrepOutput(pool.workers), delivered);
  }

  // ---- One cycle after another ------------------------------------------------------------

  /** What Docker reports of the container; load and traffic are the given ones. */
  function Observe(c: Container, other: Stats): Stats {
    other.(pids := c.workers + 1, limit := c.limit)
  }

  /** The container after the decision was applied and every command succeeded. */
  function Applied(kind: Kind, c: Container, d: Decision): Container {
    if d.action.NoAction? then c
    else
      var scales := d.action.ScaleUp? || d.action.ScaleDown?;
      var workers := if scales then ScaledWorkers(kind, c, d.targetWorkers) else c.workers;
      Container(workers, d.targetMemory as real)
  }

  /** The service scales to its target: a Daphne service has none; another needs a target of at
      least one, and Gunicorn a worker to start from unless one is all it should have. */
  predicate Settles(service: Service, c: Container, target: int) {
    service.kind.Daphne? || (target >= 1 && (service.kind.Celery? || c.workers >= 1 || target == 1))
  }

  /** Deciding again after a successful application, with the same demand, asks for nothing more
      exactly when the service settles. */
  lemma SecondDecisionIsNone(service: Service, c: Container, first: Stats, second: Stats, demand: real, total: real,
                             budget: int)
    requires first.pids == c.workers + 1 && first.limit == c.limit
    requires var next := Applied(service.kind, c, Decide(service, first, demand, total, budget));
             second.pids == next.workers + 1 && second.limit == next.limit
    ensures Decide(service, second, demand, total, budget).action.NoAction?
            <==> Settles(service, c, Decide(service, first, demand, total, budget).targetWorkers)
  {
    var memory := DaphneMemory(demand, total, budget);
    assert !FarFrom(memory, memory as real);
    var target := TargetWorkers(demand, service.minWorkers, service.maxWorkers);
    assert !FarFrom(WorkerMemory(target), WorkerMemory(target) as real);
  }

  // ---- The whole table --------------------------------------------------------------------

  /** What Docker reports of the containers that are in the statistics. */
  ghost predicate Sees(stats: map<string, Stats>, containers: map<string, Container>) {
    forall name :: name in stats ==>
      name in containers && stats[name].pids == containers[name].workers + 1
        && stats[name].limit == containers[name].limit
  }

  /** The decision for a service that runs. */
  function DecisionOf(service: Service, stats: map<string, Stats>, scores: map<string, real>, total: real,
                      budget: int): Decision
    requires service.name in stats
  {
    Decide(service, stats[service.name], Demand(scores, service.name), total, budget)
  }

  /** Every service of the table that ran is as its decision says. */
  ghost predicate AllApplied(table: seq<Service>, stats: map<string, Stats>, scores: map<string, real>, total: real,
                             budget: int, before: map<string, Container>, after: map<string, Container>) {
    forall i :: 0 <= i < |table| && table[i].name in stats ==>
      && table[i].name in before && table[i].name in after
      && after[table[i].name]
         == Applied(table[i].kind, before[table[i].name], DecisionOf(table[i], stats, scores, total, budget))
  }

  ghost predicate AllSettle(table: seq<Service>, stats: map<string, Stats>, scores: map<string, real>, total: real,
                            budget: int, before: map<string, Container>)
    requires forall i :: 0 <= i < |table| && table[i].name in stats ==> table[i].name in before
  {
    forall i :: 0 <= i < |table| && table[i].name in stats ==>
      Settles(table[i], before[table[i].name], DecisionOf(table[i], stats, scores, total, budget).targetWorkers)
  }

  ghost predicate AllNone(decisions: seq<Decision>) {
    forall d :: d in decisions ==> d.action.NoAction?
  }

  /** For a whole table: once every running service's decision was applied, deciding again with the
      same demand asks for nothing more exactly when every running service settles. */
  lemma SecondRoundIsNone(table: seq<Service>, first: map<string, Stats>, second: map<string, Stats>,
                          scores: map<string, real>, total: real, budget: int,
                          before: map<string, Container>, after: map<string, Container>)
    requires Sees(first, before) && Sees(second, after) && first.Keys == second.Keys
    requires AllApplied(table, first, scores, total, budget, before, after)
    ensures AllNone(Decisions(table, second, scores, total, budget))
            <==> AllSettle(table, first, scores, total, budget, before)
  {
    var decide := Decider(second, scores, total, budget);
    EachMember(table, decide);
    forall i | 0 <= i < |table| && table[i].name in first
      ensures Settles(table[i], before[table[i].name], DecisionOf(table[i], first, scores, total, budget).targetWorkers)
              <==> DecisionOf(table[i], second, scores, total, budget).action.NoAction?
    {
      var service := table[i];
      SecondDecisionIsNone(service, before[service.name], first[service.name], second[service.name],
                           Demand(scores, service.name), total, budget);
    }
    forall i | 0 <= i < |table| && table[i].name in first
      ensures decide(table[i]) == [DecisionOf(table[i], second, scores, total, budget)]
      ensures DecisionOf(table[i], second, scores, total, budget) in decide(table[i])
    {
    }
  }

  // ---- The host ---------------------------------------------------------------------------

  /** How the commands for one decision go: whether the memory limit was changed, whether
      `docker update` raised, and the worker count that the scaling commands left. */
  datatype Outcome = Outcome(updated: bool, raises: bool, workers: nat)

  /** The container after the commands for the decision; `kind` is None for an unknown type. */
  function AppliedWith(kind: Option<Kind>, c: Container, d: Decision, o: Outcome): Container {
    if d.action.NoAction? then c
    else
      var scaled := (d.action.ScaleUp? || d.action.ScaleDown?) && !o.raises && kind.Some? && !kind.value.Daphne?;
      Container(if scaled then o.workers else c.workers, if o.updated then d.targetMemory as real else c.limit)
  }

  function KindOf(kinds: map<string, Kind>, name: string): Option<Kind> {
    if name in kinds then Some(kinds[name]) else None
  }

  function After(kinds: map<string, Kind>, c: Container, d: Decision,
                 outcome: (Container, Decision) -> Outcome): Container {
    AppliedWith(KindOf(kinds, d.container), c, d, outcome(c, d))
  }

  /** What becomes of a container, by how the commands go: its limit is the target exactly when
      something is asked for and the update works, and its workers are those that the scaling commands
      left exactly when scaling is asked for, the update does not raise, and the type can be scaled. */
  lemma CommandsDecide(kinds: map<string, Kind>, c: Container, d: Decision, outcome: (Container, Decision) -> Outcome)
    ensures var o, after := outcome(c, d), After(kinds, c, d, outcome);
            && after.limit == (if d.action == NoAction || !o.updated then c.limit else d.targetMemory as real)
            && var scaled := (d.action == ScaleUp || d.action == ScaleDown) && !o.raises
                             && d.container in kinds && kinds[d.container] in {Gunicorn, Celery};
               after.workers == if scaled then o.workers else c.workers
  {
  }

  /** Every command works. */
  function Succeeds(kind: Kind, c: Container, d: Decision): Outcome {
    Outcome(true, false, ScaledWorkers(kind, c, d.targetWorkers))
  }

  lemma SuccessApplies(kind: Kind, c: Container, d: Decision)
    ensures AppliedWith(Some(kind), c, d, Succeeds(kind, c, d)) == Applied(kind, c, d)
  {
  }

  ghost predicate DistinctContainers(decisions: seq<Decision>) {
    forall i, j :: 0 <= i < j < |decisions| ==> decisions[i].container != decisions[j].container
  }

  /** `kinds` gives the type of each service of the table. */
  ghost predicate KindsOf(table: seq<Service>, kinds: map<string, Kind>) {
    forall i :: 0 <= i < |table| ==> table[i].name in kinds && kinds[table[i].name] == table[i].kind
  }

  ghost predicate AllSucceed(kinds: map<string, Kind>, outcome: (Container, Decision) -> Outcome) {
    forall c: Container, d: Decision :: d.container in kinds ==> outcome(c, d) == Succeeds(kinds[d.container], c, d)
  }

  /** Every decision names its service, so that no container gets two. */
  lemma {:induction false} OnePerContainer(table: seq<Service>, decide: Service -> seq<Decision>)
    requires Table(table)
    requires forall i :: 0 <= i < |table| ==> |decide(table[i])| <= 1
    requires forall i, d :: 0 <= i < |table| && d in decide(table[i]) ==> d.container == table[i].name
    ensures DistinctContainers(Each(table, decide))
  {
    if table != [] {
      var n := |table| - 1;
      var before, one := Each(table[..n], decide), decide(table[n]);
      OnePerContainer(table[..n], decide);
      EachMember(table[..n], decide);
      forall j | 0 <= j < |before| ensures before[j].container != table[n].name {
        assert before[j] in before;
        var i :| 0 <= i < n && before[j] in decide(table[..n][i]);
        assert before[j] in decide(table[i]);
      }
      assert one != [] ==> one[0] in one;
    }
  }

  lemma DecisionsAreDistinct(table: seq<Service>, stats: map<string, Stats>, scores: map<string, real>, total: real,
                             budget: int)
    requires Table(table)
    ensures DistinctContainers(Decisions(table, stats, scores, total, budget))
  {
    OnePerContainer(table, Decider(stats, scores, total, budget));
  }

  class Host {
    var containers: map<string, Container>

    constructor (containers: map<string, Container>)
      ensures this.containers == containers
    {
      this.containers := containers;
    }

    /** Each container with a decision ends as the commands for the decision leave it, and no other
        one is touched; commands for a container that is gone do nothing. */
    method ApplyDecisions(kinds: map<string, Kind>, decisions: seq<Decision>, outcome: (Container, Decision) -> Outcome)
      requires DistinctContainers(decisions)
      modifies this
      ensures containers.Keys == old(containers).Keys
      ensures forall i :: 0 <= i < |decisions| && decisions[i].container in containers ==>
                var d := decisions[i];
                containers[d.container] == After(kinds, old(containers)[d.container], d, outcome)
      ensures forall name :: name in containers && (forall i :: 0 <= i < |decisions| ==> decisions[i].container != name)
                ==> containers[name] == old(containers)[name]
    {
      for i := 0 to |decisions|
        invariant containers.Keys == old(containers).Keys
        invariant forall j :: 0 <= j < i && decisions[j].container in containers ==>
                    var d := decisions[j];
                    containers[d.container] == After(kinds, old(containers)[d.container], d, outcome)
        invariant forall name :: name in containers && (forall j :: 0 <= j < i ==> decisions[j].container != name)
                    ==> containers[name] == old(containers)[name]
      {
        var d := decisions[i];
        if !d.action.NoAction? && d.container in containers {
          var c := containers[d.container];
          var o := outcome(c, d);
          if o.updated {
            c := c.(limit := d.targetMemory as real);
          }
          if !o.raises && (d.action.ScaleUp? || d.action.ScaleDown?) {
            var kind := KindOf(kinds, d.container);
            if kind == Some(Gunicorn) {
              c := c.(workers := o.workers);
            } else if kind == Some(Celery) {
              c := c.(workers := o.workers);
            }
          }
          containers := containers[d.container := c];
        }
      }
    }

    /** One turn of the autoscaler with the given statistics and demand scores: decide, and apply the
        decisions if any of them asks for something. */
    method Cycle(table: seq<Service>, kinds: map<string, Kind>, stats: map<string, Stats>, scores: map<string, real>,
                 budget: int, outcome: (Container, Decision) -> Outcome)
      returns (decisions: seq<Decision>)
      requires Table(table)
      modifies this
      ensures decisions == Decisions(table, stats, scores, TotalDemand(scores), budget)
      ensures containers.Keys == old(containers).Keys
      ensures forall d :: d in decisions && d.container in containers ==>
                containers[d.container] == After(kinds, old(containers)[d.container], d, outcome)
      ensures forall name :: name in containers && (forall d :: d in decisions ==> d.container != name)
                ==> containers[name] == old(containers)[name]
    {
      decisions := MakeScalingDecisions(table, stats, scores, budget);
      DecisionsAreDistinct(table, stats, scores, TotalDemand(scores), budget);
      if exists i :: 0 <= i < |decisions| && !decisions[i].action.NoAction? {
        ApplyDecisions(kinds, decisions, outcome);
      }
    }

    /** Two turns with the same demand, every command of the first succeeding: the second asks for
        nothing exactly when every running service settles. `load` is what Docker reports besides
        the processes and limits. */
    method CycleTwice(table: seq<Service>, kinds: map<string, Kind>, first: map<string, Stats>,
                      load: map<string, Stats>,
                      scores: map<string, real>, budget: int, outcome: (Container, Decision) -> Outcome)
      returns (again: seq<Decision>)
      requires Table(table) && KindsOf(table, kinds) && AllSucceed(kinds, outcome)
      requires Sees(first, containers) && first.Keys <= load.Keys
      modifies this
      ensures AllNone(again) <==> AllSettle(table, first, scores, TotalDemand(scores), budget, old(containers))
    {
      ghost var total, before := TotalDemand(scores), containers;
      var decisions := Cycle(table, kinds, first, scores, budget, outcome);
      ghost var after := containers;
      var second := map name | name in first :: Observe(containers[name], load[name]);
      EachMember(table, Decider(first, scores, total, budget));
      forall i | 0 <= i < |table| && table[i].name in first
        ensures after[table[i].name]
                == Applied(table[i].kind, before[table[i].name], DecisionOf(table[i], first, scores, total, budget))
      {
        var d := DecisionOf(table[i], first, scores, total, budget);
        assert d in Decider(first, scores, total, budget)(table[i]);
        assert after[d.container] == After(kinds, before[d.container], d, outcome);
        SuccessApplies(table[i].kind, before[d.container], d);
      }
      SecondRoundIsNone(table, first, second, scores, total, budget, before, after);
      again := Cycle(table, kinds, second, scores, budget, outcome);
    }
  }
}
