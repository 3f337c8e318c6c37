/** The daemon object of napd: its maps, and the loops that run on one goroutine. */
module NapdDaemon {
  import opened Wrappers
  import opened NapdProtocol

  /** Both maps have the same entry for `x`, or neither has one. */
  ghost predicate Agree(a: map<Tier, Time>, b: map<Tier, Time>, x: Tier) {
    (x in a <==> x in b) && (x in a && x in b ==> a[x] == b[x])
  }

  class Mutex {
    constructor () {}
  }

  class Daemon {
    var lastWake: map<Tier, Time>
    var perTier: map<Tier, Mutex>
    /** The decoded content of napd-state.json. */
    var stateFile: Option<map<Tier, Time>>

    /** No mutex serves two tiers. */
    ghost predicate Valid()
      reads this
    {
      forall x, y :: x in perTier && y in perTier && perTier[x] == perTier[y] ==> x == y
    }

    /** `loadState` keeps what the state file holds, if it can be read. */
    constructor (saved: Option<map<Tier, Time>>)
      ensures Valid() && perTier == map[] && stateFile == saved
      ensures lastWake == if saved.Some? then saved.value else map[]
    {
      lastWake := if saved.Some? then saved.value else map[];
      perTier := map[];
      stateFile := saved;
    }

    method TierLock(name: Tier) returns (m: Mutex)
      requires Valid()
      modifies this`perTier
      ensures Valid() && name in perTier && perTier[name] == m
      ensures forall x :: x in old(perTier) ==> x in perTier && perTier[x] == old(perTier)[x]
      ensures perTier.Keys == old(perTier).Keys + {name}
      ensures name !in old(perTier) ==> fresh(m)
    {
      if name in perTier {
        return perTier[name];
      }
      m := new Mutex();
      perTier := perTier[name := m];
    }

    /** The rename replaces the state file only if both the write and the rename succeed. */
    method MarkWake(tier: Tier, now: Time, writeOk: bool, renameOk: bool)
      modifies this`lastWake, this`stateFile
      ensures lastWake == old(lastWake)[tier := now]
      ensures stateFile == if writeOk && renameOk then Some(lastWake) else old(stateFile)
    {
      lastWake := lastWake[tier := now];
      if writeOk {
        if renameOk {
          stateFile := Some(lastWake);
        }
      }
    }

    /** Boot seeding visits the tier files in directory order; `clock[i]` is the time read for
        the i-th of them. A tier is seeded when one of its services was running. */
    method SeedBoot(names: seq<Tier>, confs: map<Tier, seq<string>>, running: set<string>, clock: seq<Time>)
      requires |clock| == |names|
      modifies this`lastWake
      ensures forall x :: x !in names || x !in confs || !Runs(confs[x], running) ==>
                Agree(lastWake, old(lastWake), x)
      ensures forall x :: x in names && x in confs && Runs(confs[x], running) ==>
                x in lastWake && exists i :: 0 <= i < |names| && names[i] == x && lastWake[x] == clock[i]
    {
      var i := 0;
      while i < |names|
        invariant 0 <= i <= |names|
        invariant forall x :: x !in names[..i] || x !in confs || !Runs(confs[x], running) ==>
                    Agree(lastWake, old(lastWake), x)
        invariant forall x :: x in names[..i] && x in confs && Runs(confs[x], running) ==>
                    x in lastWake && exists j :: 0 <= j < i && names[j] == x && lastWake[x] == clock[j]
      {
        if names[i] in confs {
          var awake := Awake(confs[names[i]], running);
          if awake {
            lastWake := lastWake[names[i] := clock[i]];
          }
        }
        assert names[..i + 1] == names[..i] + [names[i]];
        i := i + 1;
      }
    }
  }

  /** Some service of the list is running. */
  ghost predicate Runs(services: seq<string>, running: set<string>) {
    exists i :: 0 <= i < |services| && services[i] in running
  }

  method Awake(services: seq<string>, running: set<string>) returns (awake: bool)
    ensures awake == Runs(services, running)
  {
    for i := 0 to |services|
      invariant forall j :: 0 <= j < i ==> services[j] !in running
    {
      if services[i] in running {
        return true;
      }
    }
    return false;
  }

  /** The `timeout` parameter of a wake: 120 seconds, or the number given, at least 10 and at
      most 600. */
  function Timeout(given: Option<int>): (secs: int)
    ensures 10 <= secs <= 600
    ensures given.None? ==> secs == 120
    ensures given.Some? && 10 <= given.value <= 600 ==> secs == given.value
    ensures given.Some? && given.value < 10 ==> secs == 10
    ensures given.Some? && given.value > 600 ==> secs == 600
  {
    match given
    case None => 120
    case Some(n) =>
      var capped := if n < 600 then n else 600;
      if capped > 10 then capped else 10
  }

  /** What the i-th round of the wait loop meets: whether Docker shows a service of the tier,
      the time then read, whether the context has ended by then, and whether it ends during the
      three-second wait that follows. */
  datatype Round = Round(awake: bool, at: Time, ended: bool, endsWaiting: bool)

  /** The clock of the wait loop: rounds start after the deadline is set, and a wait that runs
      to its end takes at least three seconds. */
  ghost predicate Paced(rounds: nat -> Round, start: Time) {
    && start <= rounds(0).at
    && forall i: nat :: rounds(i).at + 3 * SECOND <= rounds(i + 1).at
  }

  /** The context ends, at the latest, when the clock reaches its deadline. */
  ghost predicate ContextEndsBy(rounds: nat -> Round, contextDeadline: Time) {
    forall i: nat :: rounds(i).at >= contextDeadline ==> rounds(i).ended
  }

  /** The loop ends with this round. */
  predicate Ends(round: Round, deadline: Time) {
    round.awake || round.at > deadline || round.ended || round.endsWaiting
  }

  /** The rounds end with the `polls`-th, and with no earlier one. */
  ghost predicate EndsAfter(rounds: nat -> Round, deadline: Time, polls: nat) {
    && polls > 0 && Ends(rounds(polls - 1), deadline)
    && forall i :: 0 <= i < polls - 1 ==> !Ends(rounds(i), deadline)
  }

  lemma {:induction false} Elapsed(rounds: nat -> Round, start: Time, i: nat)
    requires Paced(rounds, start)
    ensures rounds(i).at >= start + 3 * SECOND * i
  {
    if i > 0 {
      Elapsed(rounds, start, i - 1);
    }
  }

  /** The wait loop of `wakeHandler`: it ends with the first round that sees the tier awake, the
      deadline passed or the context ended, and answers ok exactly when that round saw the tier
      awake. With a timeout of T seconds it polls at most floor(T/3) + 2 times, and at most
      ceil(T/3) + 1 times if the context, whose timeout of T seconds started no later, ends on
      time. */
  method WaitAwake(timeoutSecs: int, start: Time, contextDeadline: Time, rounds: nat -> Round)
    returns (ok: bool, polls: nat)
    requires 0 <= timeoutSecs && contextDeadline <= start + timeoutSecs * SECOND
    requires Paced(rounds, start)
    ensures EndsAfter(rounds, start + timeoutSecs * SECOND, polls) && ok == rounds(polls - 1).awake
    ensures polls <= timeoutSecs / 3 + 2
    ensures ContextEndsBy(rounds, contextDeadline) ==> polls <= (timeoutSecs + 2) / 3 + 1
  {
    var deadline := start + timeoutSecs * SECOND;
    polls := 0;
    while true
      invariant forall i :: 0 <= i < polls ==> !Ends(rounds(i), deadline)
      invariant polls <= timeoutSecs / 3 + 1
      invariant ContextEndsBy(rounds, contextDeadline) ==> polls <= (timeoutSecs + 2) / 3
      decreases timeoutSecs / 3 + 2 - polls
    {
      var round := rounds(polls);
      Elapsed(rounds, start, polls);
      polls := polls + 1;
      if round.awake {
        return true, polls;
      }
      if round.at > deadline || round.ended {
        return false, polls;
      }
      if round.endsWaiting {
        return false, polls;
      }
    }
  }

  /** A tier that never wakes, polled every three seconds sharp; the context is seen to end from
      the given time on. */
  function NeverAwake(start: Time, endsAt: Time): nat -> Round {
    (i: nat) => Round(false, start + 3_000_000_000 * i, start + 3_000_000_000 * i >= endsAt, false)
  }

  lemma NeverAwakeEnds(start: Time, endsAt: Time, deadline: Time, n: nat)
    requires start + 3_000_000_000 * n > deadline || start + 3_000_000_000 * n >= endsAt
    requires n > 0 ==> start + 3_000_000_000 * (n - 1) <= deadline && start + 3_000_000_000 * (n - 1) < endsAt
    ensures Paced(NeverAwake(start, endsAt), start) && EndsAfter(NeverAwake(start, endsAt), deadline, n + 1)
  {
    var rounds := NeverAwake(start, endsAt);
    forall i: nat ensures rounds(i).at + 3 * SECOND <= rounds(i + 1).at {
      assert 3_000_000_000 * (i + 1) == 3_000_000_000 * i + 3 * SECOND;
    }
    forall i | 0 <= i < n ensures !Ends(rounds(i), deadline) {
      assert 3_000_000_000 * i <= 3_000_000_000 * (n - 1);
    }
    assert Ends(rounds(n), deadline);
  }

  /** The first bound is attained for every timeout, by a context that ends late. */
  lemma LateBoundIsAttained(timeoutSecs: nat, start: Time)
    ensures var rounds := NeverAwake(start, start + (timeoutSecs + 4) * SECOND);
            Paced(rounds, start) && EndsAfter(rounds, start + timeoutSecs * SECOND, timeoutSecs / 3 + 2)
  {
    NeverAwakeEnds(start, start + (timeoutSecs + 4) * SECOND, start + timeoutSecs * SECOND, timeoutSecs / 3 + 1);
  }

  /** So is the second, by a context that ends on time but is not noticed during a wait. */
  lemma OnTimeBoundIsAttained(timeoutSecs: nat, start: Time)
    ensures var deadline := start + timeoutSecs * SECOND;
            var rounds := NeverAwake(start, deadline);
            && Paced(rounds, start) && ContextEndsBy(rounds, deadline)
            && EndsAfter(rounds, deadline, (timeoutSecs + 2) / 3 + 1)
  {
    NeverAwakeEnds(start, start + timeoutSecs * SECOND, start + timeoutSecs * SECOND, (timeoutSecs + 2) / 3);
  }
}
