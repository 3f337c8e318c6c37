/** The Daphne budget: the memory targets of the single-process services against half the budget. */
module AutoscalerBudget {
  import opened Autoscaler

  function SumOfTargets(decisions: seq<Decision>): int {
    if decisions == [] then 0
    else SumOfTargets(decisions[..|decisions| - 1]) + decisions[|decisions| - 1].targetMemory
  }

  function Sum(xs: seq<real>): real {
    if xs == [] then 0.0 else Sum(xs[..|xs| - 1]) + xs[|xs| - 1]
  }

  /** The decisions for the named containers, in order. */
  function Pick(decisions: seq<Decision>, names: set<string>): seq<Decision> {
    if decisions == [] then []
    else
      var n := |decisions| - 1;
      Pick(decisions[..n], names) + if decisions[n].container in names then [decisions[n]] else []
  }

  lemma PickNext(decisions: seq<Decision>, one: seq<Decision>, names: set<string>, daphne: bool)
    requires |one| <= 1 && forall d :: d in one ==> (d.container in names <==> daphne)
    ensures Pick(decisions + one, names) == Pick(decisions, names) + if daphne then one else []
  {
    if one == [] {
      assert decisions + one == decisions;
    } else {
      assert (decisions + one)[..|decisions|] == decisions && one == [one[0]] && one[0] in one;
    }
  }

  lemma {:induction false} PickedAreDecisions(decisions: seq<Decision>, names: set<string>)
    ensures forall d :: d in Pick(decisions, names) ==> d in decisions
  {
    if decisions != [] {
      PickedAreDecisions(decisions[..|decisions| - 1], names);
    }
  }

  /** The names are those of the table's Daphne services. */
  ghost predicate NamesDaphne(table: seq<Service>, names: set<string>) {
    forall i :: 0 <= i < |table| ==> (table[i].name in names <==> table[i].kind.Daphne?)
  }

  /** The demands of the running Daphne services, in table order. */
  function DaphneDemands(table: seq<Service>, stats: map<string, Stats>, scores: map<string, real>): seq<real> {
    if table == [] then []
    else
      var n := |table| - 1;
      DaphneDemands(table[..n], stats, scores)
      + if table[n].kind.Daphne? && table[n].name in stats then [Demand(scores, table[n].name)] else []
  }

  /** What the budget needs to know of the decision for a service. */
  ghost predicate DecidesFor(service: Service, stats: map<string, Stats>, scores: map<string, real>,
                             decide: Service -> seq<Decision>, memory: real -> int) {
    var one := decide(service);
    && |one| == (if service.name in stats then 1 else 0)
    && (forall d :: d in one ==> d.container == service.name)
    && (one != [] && service.kind.Daphne? ==> one[0].targetMemory == memory(Demand(scores, service.name)))
  }

  ghost predicate Carry(decisions: seq<Decision>, demands: seq<real>, memory: real -> int) {
    && |decisions| == |demands|
    && forall i :: 0 <= i < |demands| ==> decisions[i].targetMemory == memory(demands[i])
  }

  /** The Daphne decisions carry the memory targets of the Daphne demands. */
  lemma {:induction false} PickedTargets(table: seq<Service>, names: set<string>, stats: map<string, Stats>,
                                         scores: map<string, real>, decide: Service -> seq<Decision>,
                                         memory: real -> int)
    requires NamesDaphne(table, names)
    requires forall i :: 0 <= i < |table| ==> DecidesFor(table[i], stats, scores, decide, memory)
    ensures Carry(Pick(Each(table, decide), names), DaphneDemands(table, stats, scores), memory)
  {
    if table != [] {
      var n := |table| - 1;
      var last, one := table[n], decide(table[n]);
      var picked, demands := Pick(Each(table[..n], decide), names), DaphneDemands(table[..n], stats, scores);
      assert DecidesFor(last, stats, scores, decide, memory);
      PickedTargets(table[..n], names, stats, scores, decide, memory);
      PickNext(Each(table[..n], decide), one, names, last.kind.Daphne?);
      if last.kind.Daphne? && one != [] {
        assert one == [one[0]];
        CarryMore(picked, demands, one[0], Demand(scores, last.name), memory);
      } else {
        assert picked + [] == picked && demands + [] == demands;
      }
    }
  }

  lemma CarryMore(decisions: seq<Decision>, demands: seq<real>, one: Decision, demand: real, memory: real -> int)
    requires Carry(decisions, demands, memory) && one.targetMemory == memory(demand)
    ensures Carry(decisions + [one], demands + [demand], memory)
  {
  }

  lemma DaphneDecisions(table: seq<Service>, names: set<string>, stats: map<string, Stats>,
                        scores: map<string, real>, total: real, budget: int)
    requires NamesDaphne(table, names)
    ensures var daphne := Pick(Decisions(table, stats, scores, total, budget), names);
            var demands := DaphneDemands(table, stats, scores);
            |daphne| == |demands| && AllTargets(daphne, demands, total, budget)
  {
    PickedTargets(table, names, stats, scores, Decider(stats, scores, total, budget),
                  demand => DaphneMemory(demand, total, budget));
  }

  // ---- The demands fit the total ----------------------------------------------------------

  ghost predicate NonNegativeScores(scores: map<string, real>) {
    forall name :: name in scores ==> scores[name] >= 0.0
  }

  lemma {:induction false} PartOfTotal(scores: map<string, real>, name: string)
    requires NonNegativeScores(scores)
    ensures 0.0 <= Demand(scores, name) <= TotalDemand(scores)
    decreases |scores.Keys|
  {
    if scores.Keys != {} {
      var other :| other in scores.Keys && (name in scores.Keys ==> other == name);
      assert (scores - {other}).Keys == scores.Keys - {other};
      assert |(scores - {other}).Keys| < |scores.Keys|;
      TotalWithout(scores, other);
      PartOfTotal(scores - {other}, other);
    }
  }

  /** A score that no service of the table has does not matter. */
  lemma {:induction false} DemandsWithout(table: seq<Service>, stats: map<string, Stats>, scores: map<string, real>,
                                          name: string)
    requires forall i :: 0 <= i < |table| ==> table[i].name != name
    ensures DaphneDemands(table, stats, scores) == DaphneDemands(table, stats, scores - {name})
  {
    if table != [] {
      DemandsWithout(table[..|table| - 1], stats, scores, name);
    }
  }

  lemma {:induction false} DemandsFitTotal(table: seq<Service>, stats: map<string, Stats>, scores: map<string, real>)
    requires Table(table) && NonNegativeScores(scores)
    ensures Sum(DaphneDemands(table, stats, scores)) <= TotalDemand(scores)
  {
    if table == [] {
      PartOfTotal(scores, "");
    } else {
      var n := |table| - 1;
      var name, rest := table[n].name, scores - {table[n].name};
      var before, demands := DaphneDemands(table[..n], stats, scores), DaphneDemands(table, stats, scores);
      DemandsFitTotal(table[..n], stats, rest);
      DemandsWithout(table[..n], stats, scores, name);
      assert demands != before ==> demands[..|before|] == before;
      if name in scores {
        TotalWithout(scores, name);
      } else {
        assert rest == scores;
      }
    }
  }

  lemma {:induction false} EachDemandFits(table: seq<Service>, stats: map<string, Stats>, scores: map<string, real>)
    requires NonNegativeScores(scores)
    ensures AllWithin(DaphneDemands(table, stats, scores), TotalDemand(scores))
  {
    if table != [] {
      EachDemandFits(table[..|table| - 1], stats, scores);
      PartOfTotal(scores, table[|table| - 1].name);
    }
  }

  ghost predicate AllWithin(demands: seq<real>, total: real) {
    forall i :: 0 <= i < |demands| ==> 0.0 <= demands[i] <= total
  }

  // ---- The bound --------------------------------------------------------------------------

  lemma Distribute(a: real, b: real, c: real)
    ensures a * (b + c) == a * b + a * c
  {
  }

  /** Targets of at most 256 MB plus `rate` for each unit of demand add up likewise. */
  lemma {:induction false} TargetsByRate(decisions: seq<Decision>, demands: seq<real>, rate: real)
    requires |decisions| == |demands| && AllFit(decisions, demands, rate)
    ensures SumOfTargets(decisions) as real <= 256.0 * |decisions| as real + rate * Sum(demands)
  {
    if demands != [] {
      var n := |demands| - 1;
      TargetsByRate(decisions[..n], demands[..n], rate);
      Distribute(rate, Sum(demands[..n]), demands[n]);
    }
  }

  /** Half the budget spread over the total demand bounds each target. */
  lemma SpreadBoundsTarget(demand: real, total: real, budget: int)
    requires budget >= 0 && 0.0 <= demand <= total && total > 0.0
    ensures DaphneMemory(demand, total, budget) as real <= 256.0 + budget as real / 2.0 / total * demand
  {
    var share := demand / total;
    assert share >= 0.0 && budget as real / 2.0 / total * demand == budget as real / 2.0 * share;
    Scale(0.0, share, budget as real);
  }

  /** The memory beyond 256 MB that a unit of demand gets at most. */
  function Rate(total: real, half: real): real {
    if total == 0.0 then 0.0 else half / total
  }

  /** The demands together do not get more than half the budget that way. */
  lemma SpreadSpendsHalf(part: real, total: real, half: real, rate: real)
    requires half >= 0.0 && part <= total && total >= 0.0 && rate == Rate(total, half)
    ensures rate * part <= half
  {
    if total == 0.0 {
      assert rate * part == 0.0;
    } else {
      assert rate >= 0.0 && rate * total == half;
      Distribute(rate, part, total - part);
      Scale(0.0, total - part, rate);
    }
  }

  lemma OneTargetFits(demand: real, total: real, budget: int, rate: real, memory: int)
    requires 0.0 <= demand <= total && budget >= 0 && rate == Rate(total, budget as real / 2.0)
    requires memory == DaphneMemory(demand, total, budget)
    ensures memory as real <= 256.0 + rate * demand
  {
    if total > 0.0 {
      SpreadBoundsTarget(demand, total, budget);
    }
  }

  ghost predicate AllFit(decisions: seq<Decision>, demands: seq<real>, rate: real)
    requires |decisions| == |demands|
  {
    forall i :: 0 <= i < |demands| ==> decisions[i].targetMemory as real <= 256.0 + rate * demands[i]
  }

  ghost predicate AllTargets(decisions: seq<Decision>, demands: seq<real>, total: real, budget: int)
    requires |decisions| == |demands|
  {
    forall i :: 0 <= i < |demands| ==> decisions[i].targetMemory == DaphneMemory(demands[i], total, budget)
  }

  lemma EachTargetFits(decisions: seq<Decision>, demands: seq<real>, total: real, budget: int, rate: real)
    requires |decisions| == |demands| && AllWithin(demands, total) && AllTargets(decisions, demands, total, budget)
    requires budget >= 0 && rate == Rate(total, budget as real / 2.0)
    ensures AllFit(decisions, demands, rate)
  {
    forall i | 0 <= i < |demands| ensures decisions[i].targetMemory as real <= 256.0 + rate * demands[i] {
      OneTargetFits(demands[i], total, budget, rate, decisions[i].targetMemory);
    }
  }

  lemma FitByRate(decisions: seq<Decision>, demands: seq<real>, total: real, half: real, rate: real)
    requires |decisions| == |demands| && Sum(demands) <= total && total >= 0.0 && half >= 0.0
             && rate == Rate(total, half)
    requires AllFit(decisions, demands, rate)
    ensures SumOfTargets(decisions) as real <= half + 256.0 * |decisions| as real
  {
    var part := Sum(demands);
    TargetsByRate(decisions, demands, rate);
    SpreadSpendsHalf(part, total, half, rate);
    var spent := rate * part;
    assert SumOfTargets(decisions) as real <= 256.0 * |decisions| as real + spent;
  }

  /** Targets of at least 256 MB each sum up accordingly. */
  lemma {:induction false} TargetsAddUp(decisions: seq<Decision>)
    requires forall d :: d in decisions ==> d.targetMemory >= MIN_MEMORY_MB
    ensures SumOfTargets(decisions) >= 256 * |decisions|
  {
    if decisions != [] {
      TargetsAddUp(decisions[..|decisions| - 1]);
    }
  }

  lemma BudgetSuffices(table: seq<Service>, names: set<string>, stats: map<string, Stats>, scores: map<string, real>,
                       total: real, budget: int)
    requires Table(table) && NonNegativeScores(scores) && NamesDaphne(table, names)
    requires total == TotalDemand(scores) && budget >= 0
    ensures var daphne := Pick(Decisions(table, stats, scores, total, budget), names);
            SumOfTargets(daphne) as real <= budget as real / 2.0 + 256.0 * |daphne| as real
  {
    DaphneDecisions(table, names, stats, scores, total, budget);
    DemandsFitTotal(table, stats, scores);
    EachDemandFits(table, stats, scores);
    PartOfTotal(scores, "");
    var daphne := Pick(Decisions(table, stats, scores, total, budget), names);
    var demands := DaphneDemands(table, stats, scores);
    var half := budget as real / 2.0;
    var rate := Rate(total, half);
    EachTargetFits(daphne, demands, total, budget, rate);
    FitByRate(daphne, demands, total, half, rate);
  }

  /** The k Daphne targets together stay within half the budget plus 256 MB each, because the shares
      of the demand add up to at most 1: for every table, exactly when the budget is not negative.
      A reserve above the host's memory makes it negative. */
  lemma DaphneBudgetExactly(table: seq<Service>, names: set<string>, stats: map<string, Stats>,
                            scores: map<string, real>, budget: int)
    requires Table(table) && NonNegativeScores(scores) && NamesDaphne(table, names)
    ensures var daphne := Pick(Decisions(table, stats, scores, TotalDemand(scores), budget), names);
            SumOfTargets(daphne) as real <= budget as real / 2.0 + 256.0 * |daphne| as real <==> budget >= 0
  {
    var total := TotalDemand(scores);
    var decisions := Decisions(table, stats, scores, total, budget);
    if budget >= 0 {
      BudgetSuffices(table, names, stats, scores, total, budget);
    } else {
      MemoryInRange(table, stats, scores, total, budget);
      PickedAreDecisions(decisions, names);
      TargetsAddUp(Pick(decisions, names));
    }
  }
}
