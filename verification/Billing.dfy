/** Activation of paid plans: stacking of paid periods on one account, alone and under
    concurrent requests serialised by the row lock. Times are whole microseconds. */
module Billing {
  import opened Wrappers

  datatype Plan = Hobby | Pro | Enterprise

  datatype Status = Inactive | Active

  datatype Account = Account(plan: Plan, status: Status, periodEnd: Option<int>)

  const DAY: int := 86_400_000_000

  /** The plan's text, as it is after `upper` and `strip`, looked up among the plans; None for
      any other text. */
  function ParsePlan(text: string): Option<Plan> {
    if text == "HOBBY" then Some(Hobby)
    else if text == "PRO" then Some(Pro)
    else if text == "ENTERPRISE" then Some(Enterprise)
    else None
  }

  /** A request: the plan's text, whether periods stack, the configured period, and the two
      clock readings of the activation. */
  datatype Request = Request(plan: string, extend: bool, days: int, checkedAt: int, baseAt: int)

  class BillingAccount {
    var plan: Plan
    var status: Status
    var periodEnd: Option<int>

    constructor (a: Account)
      ensures Row() == a
    {
      plan, status, periodEnd := a.plan, a.status, a.periodEnd;
    }

    ghost function Row(): Account
      reads this
    {
      Account(plan, status, periodEnd)
    }

    method ActivatePaidPlan(r: Request)
      requires r.checkedAt <= r.baseAt
      modifies this
      ensures Row() == Activated(old(Row()), r)
    {
      var parsed := ParsePlan(r.plan);
      if parsed.None? {
        return;
      }
      plan := parsed.value;
      if plan == Pro {
        status := Active;
        if r.extend {
          var base := r.baseAt;
          if periodEnd.Some? && periodEnd.value > r.checkedAt {
            base := periodEnd.value;
          }
          periodEnd := Some(base + r.days * DAY);
        }
      } else if plan == Hobby {
        status := Inactive;
        periodEnd := None;
      } else {
        status := Active;
      }
    }
  }

  function Max(a: int, b: int): int {
    if a > b then a else b
  }

  /** The clock reading that decided: the check's, if it found the period running, else the
      later one that became the base. */
  function Instant(end: Option<int>, r: Request): int {
    if end.Some? && end.value > r.checkedAt then r.checkedAt else r.baseAt
  }

  /** Where a period bought at time t starts: at the end of what is paid for, or at t. */
  function PeriodStart(end: Option<int>, t: int): int {
    match end
    case None => t
    case Some(e) => Max(e, t)
  }

  function Activated(a: Account, r: Request): Account {
    match ParsePlan(r.plan)
    case None => a
    case Some(Hobby) => Account(Hobby, Inactive, None)
    case Some(Enterprise) => Account(Enterprise, Active, a.periodEnd)
    case Some(Pro) =>
      Account(Pro, Active,
              if r.extend then Some(PeriodStart(a.periodEnd, Instant(a.periodEnd, r)) + r.days * DAY) else a.periodEnd)
  }

  // ---- A sequence of requests -------------------------------------------------------------

  /** The account after a sequence of requests. */
  function Serial(a: Account, requests: seq<Request>): Account {
    if requests == [] then a
    else Activated(Serial(a, requests[..|requests| - 1]), requests[|requests| - 1])
  }

  ghost predicate Recognised(r: Request) {
    r.plan == "HOBBY" || r.plan == "PRO" || r.plan == "ENTERPRISE"
  }

  /** Requests with any other text leave the account as it was. */
  lemma {:induction false} OthersChangeNothing(a: Account, requests: seq<Request>, i: nat)
    requires i <= |requests| && forall j :: i <= j < |requests| ==> !Recognised(requests[j])
    ensures Serial(a, requests) == Serial(a, requests[..i])
    decreases |requests|
  {
    if i == |requests| {
      assert requests[..i] == requests;
    } else {
      var n := |requests| - 1;
      OthersChangeNothing(a, requests[..n], i);
      assert requests[..n][..i] == requests[..i];
    }
  }

  /** The account after a request that is decided at the given instants. */
  ghost predicate Decides(r: Request, before: Account, after: Account) {
    && (r.plan == "HOBBY" ==> after == Account(Hobby, Inactive, None))
    && (r.plan == "ENTERPRISE" ==> after == Account(Enterprise, Active, before.periodEnd))
    && (r.plan == "PRO" ==> after.plan == Pro && after.status == Active)
    && (r.plan == "PRO" && !r.extend ==> after.periodEnd == before.periodEnd)
    && (r.plan == "PRO" && r.extend && (before.periodEnd.None? || before.periodEnd.value <= r.checkedAt) ==>
          after.periodEnd == Some(r.baseAt + r.days * 86_400_000_000))
    && (r.plan == "PRO" && r.extend && before.periodEnd.Some? && before.periodEnd.value > r.checkedAt ==>
          after.periodEnd == Some(before.periodEnd.value + r.days * 86_400_000_000))
  }

  /** The last request with a recognised plan decides plan and status, whatever comes after it, and
      what becomes of the period that the requests before it left. */
  lemma LastRecognisedDecides(a: Account, requests: seq<Request>, i: nat)
    requires i < |requests| && Recognised(requests[i]) && requests[i].checkedAt <= requests[i].baseAt
    requires forall j :: i < j < |requests| ==> !Recognised(requests[j])
    ensures Decides(requests[i], Serial(a, requests[..i]), Serial(a, requests))
  {
    OthersChangeNothing(a, requests, i + 1);
    assert requests[..i + 1][..i] == requests[..i];
  }

  // ---- Stacking ---------------------------------------------------------------------------

  /** Extending PRO activations, each of `days` days. */
  ghost predicate ProRun(requests: seq<Request>, days: int) {
    forall i :: 0 <= i < |requests| ==>
      requests[i].plan == "PRO" && requests[i].extend && requests[i].days == days
        && requests[i].checkedAt <= requests[i].baseAt
  }

  /** The deciding instant of the i-th activation of a run. */
  function InstantOf(a: Account, requests: seq<Request>, i: nat): int
    requires i < |requests|
  {
    Instant(Serial(a, requests[..i]).periodEnd, requests[i])
  }

  /** The candidates for the final end: what was paid for plus all periods, and each instant plus
      the periods bought from then on. */
  ghost predicate Candidate(a: Account, requests: seq<Request>, period: int, end: int) {
    || (a.periodEnd.Some? && end == a.periodEnd.value + |requests| * period)
    || exists i :: CandidateAt(a, requests, period, end, i)
  }

  ghost predicate CandidateAt(a: Account, requests: seq<Request>, period: int, end: int, i: int) {
    0 <= i < |requests| && end == InstantOf(a, requests, i) + (|requests| - i) * period
  }

  /** One more activation moves every candidate by a period, and adds its own. */
  lemma CandidatesMove(a: Account, requests: seq<Request>, period: int, end: int)
    requires requests != []
    ensures var n := |requests| - 1;
            Candidate(a, requests, period, end + period)
            <==> Candidate(a, requests[..n], period, end) || end == InstantOf(a, requests, n)
  {
    var n := |requests| - 1;
    var before := requests[..n];
    Multiply(n, period);
    var later := end + period;
    if i :| CandidateAt(a, requests, period, later, i) {
      CandidateMoves(a, requests, period, end, i);
    }
    if i :| CandidateAt(a, before, period, end, i) {
      CandidateMoves(a, requests, period, end, i);
      assert CandidateAt(a, requests, period, end + period, i);
    }
    if end == InstantOf(a, requests, n) {
      assert CandidateAt(a, requests, period, end + period, n);
    }
  }

  lemma CandidateMoves(a: Account, requests: seq<Request>, period: int, end: int, i: int)
    requires requests != [] && 0 <= i < |requests|
    ensures var n := |requests| - 1;
            && (i < n ==> (CandidateAt(a, requests, period, end + period, i)
              <==> CandidateAt(a, requests[..n], period, end, i)))
            && (i == n ==> (CandidateAt(a, requests, period, end + period, i) <==> end == InstantOf(a, requests, n)))
  {
    var n := |requests| - 1;
    Multiply(n - i, period);
    if i < n {
      assert requests[..n][..i] == requests[..i];
    }
  }

  /** After n > 0 extending PRO activations of D days each, decided at t_1, ..., t_n, the period
      ends at the maximum of end_0 + nD and all t_i + (n - i + 1)D. */
  lemma {:induction false} PeriodEndIsMaximum(a: Account, requests: seq<Request>, days: int)
    requires ProRun(requests, days) && requests != []
    ensures var end := Serial(a, requests).periodEnd;
            && end.Some?
            && Candidate(a, requests, days * 86_400_000_000, end.value)
            && forall e :: Candidate(a, requests, days * 86_400_000_000, e) ==> e <= end.value
  {
    var n, period := |requests| - 1, days * DAY;
    var before := requests[..n];
    assert requests[n].plan == "PRO";
    var start := Serial(a, before).periodEnd;
    var t := InstantOf(a, requests, n);
    var end := PeriodStart(start, t);
    assert Serial(a, requests).periodEnd == Some(end + period);
    if n == 0 {
      NoCandidateBut(a, before, period);
    } else {
      assert ProRun(before, days);
      PeriodEndIsMaximum(a, before, days);
    }
    CandidatesMove(a, requests, period, end);
    forall e | Candidate(a, requests, period, e) ensures e <= end + period {
      CandidatesMove(a, requests, period, e - period);
    }
  }

  lemma NoCandidateBut(a: Account, requests: seq<Request>, period: int)
    requires requests == []
    ensures forall e :: Candidate(a, requests, period, e) <==> a.periodEnd == Some(e)
  {
  }

  lemma Multiply(n: int, x: int)
    ensures (n + 1) * x == n * x + x
  {
  }

  /** The start and the end of the i-th period bought. */
  function Purchase(a: Account, requests: seq<Request>, days: int, i: nat): (int, int)
    requires i < |requests|
  {
    var start := PeriodStart(Serial(a, requests[..i]).periodEnd, InstantOf(a, requests, i));
    (start, start + days * DAY)
  }

  /** The instant lies in the i-th period bought. */
  predicate Covers(a: Account, requests: seq<Request>, days: int, i: nat, instant: int)
    requires i < |requests|
  {
    var (start, end) := Purchase(a, requests, days, i);
    start <= instant < end
  }

  /** Each period bought has the configured length, starts no earlier than it was bought and where
      the previous one ends or later, and ends where the account says. */
  lemma PurchaseFollows(a: Account, requests: seq<Request>, days: int, i: nat)
    requires ProRun(requests, days) && i < |requests|
    ensures var (start, end) := Purchase(a, requests, days, i);
            && end - start == days * 86_400_000_000
            && start >= InstantOf(a, requests, i)
            && Serial(a, requests[..i + 1]).periodEnd == Some(end)
            && (i > 0 ==> start >= Purchase(a, requests, days, i - 1).1)
            && (i == 0 && a.periodEnd.Some? ==> start >= a.periodEnd.value)
  {
    assert requests[..i + 1][..i] == requests[..i];
    assert requests[i].plan == "PRO";
    if i > 0 {
      assert requests[..i][..i - 1] == requests[..i - 1];
      assert requests[i - 1].plan == "PRO";
    } else {
      assert requests[..0] == [];
    }
  }

  /** No paid time is counted twice: no instant lies in two of the periods, and a period ends before
      every later one starts if the configured number of days is not negative. */
  lemma {:induction false} PurchasesAreDisjoint(a: Account, requests: seq<Request>, days: int, i: nat, j: nat)
    requires ProRun(requests, days) && i < j < |requests|
    ensures days >= 0 ==> Purchase(a, requests, days, i).1 <= Purchase(a, requests, days, j).0
    ensures forall instant :: !(Covers(a, requests, days, i, instant) && Covers(a, requests, days, j, instant))
    decreases j
  {
    PurchaseFollows(a, requests, days, i);
    PurchaseFollows(a, requests, days, j);
    if i < j - 1 {
      PurchasesAreDisjoint(a, requests, days, i, j - 1);
      PurchaseFollows(a, requests, days, j - 1);
    }
    assert days >= 0 ==> days * DAY >= 0;
    assert days < 0 ==> days * DAY < 0;
  }

  /** The purchased time of the first n periods. */
  function PurchasedTime(a: Account, requests: seq<Request>, days: int, n: nat): int
    requires n <= |requests|
  {
    if n == 0 then 0
    else
      var (start, end) := Purchase(a, requests, days, n - 1);
      PurchasedTime(a, requests, days, n - 1) + (end - start)
  }

  /** Paid time is conserved: the purchased time adds up to n periods, the last of them ends where
      the account says, and the account's end moves by at least that much. */
  lemma {:induction false} PaidTimeIsConserved(a: Account, requests: seq<Request>, days: int, n: nat)
    requires ProRun(requests, days) && n <= |requests|
    ensures PurchasedTime(a, requests, days, n) == n * (days * 86_400_000_000)
    ensures n > 0 ==> Serial(a, requests[..n]).periodEnd == Some(Purchase(a, requests, days, n - 1).1)
    ensures n > 0 && a.periodEnd.Some? ==>
              Serial(a, requests[..n]).periodEnd.value - a.periodEnd.value >= n * (days * 86_400_000_000)
  {
    if n > 0 {
      PaidTimeIsConserved(a, requests, days, n - 1);
      PurchaseFollows(a, requests, days, n - 1);
      Multiply(n - 1, days * DAY);
    }
  }
}
