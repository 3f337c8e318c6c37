/** What napd's handlers answer, and what the reaper does when nothing comes in between. */
module NapdAnswers {
  import opened NapdProtocol
  import opened NapdRuns

  // ---- The last step of an actor ----------------------------------------------------------

  /** The actor's last step before step k was e, and it has stayed as that step left it. */
  ghost predicate LastStep(run: Run, k: nat, p: Pid, e: nat) {
    && e < k < |run.states| == |run.steps| + 1 && Acts(run.steps[e], p)
    && (forall i :: e < i < k ==> !Acts(run.steps[i], p))
    && p in run.states[e].procs && p in run.states[k].procs
    && forall i :: e < i <= k ==> p in run.states[i].procs && run.states[i].procs[p] == run.states[k].procs[p]
  }

  lemma ArrivesAtBegin(run: Run, k: nat, p: Pid)
    requires Valid(run) && k < |run.steps| && p !in run.states[k].procs && p in run.states[k + 1].procs
    ensures run.states[k + 1].procs[p].pc == Begin
  {
    assert Follows(run, k);
  }

  lemma {:induction false} HasLastStep(run: Run, k: nat, p: Pid) returns (e: nat)
    requires Valid(run) && k < |run.states| && p in run.states[k].procs
    requires run.states[k].procs[p].pc != Begin && run.states[k].procs[p].pc != Idle
    ensures LastStep(run, k, p, e)
  {
    assert k > 0;
    if p !in run.states[k - 1].procs {
      ArrivesAtBegin(run, k - 1, p);
      assert false;
    }
    OthersStay(run, k - 1, p);
    if Acts(run.steps[k - 1], p) {
      e := k - 1;
    } else {
      e := HasLastStep(run, k - 1, p);
    }
  }

  // ---- What a sleep request is answered ---------------------------------------------------

  lemma SleepEnds(s: State, step: Step, p: Pid, ok: bool)
    requires Enabled(s, step) && Acts(step, p) && p in s.procs && s.procs[p].actor == Sleep
    requires Apply(s, step).procs[p].pc == Deferred(ok)
    ensures step == DownEnd(p, ok) && s.procs[p].pc == DownRunning
    ensures Apply(s, step).procs[p] == s.procs[p].(pc := Deferred(ok))
  {
  }

  lemma SleepBegins(s: State, step: Step, p: Pid)
    requires Enabled(s, step) && Acts(step, p) && p in s.procs && s.procs[p].actor == Sleep
    requires Apply(s, step).procs[p].pc == DownRunning
    ensures step == DownBegin(p) && s.procs[p].pc == Locked
    ensures Apply(s, step).procs[p] == s.procs[p].(pc := DownRunning)
  {
  }

  predicate BeforeEnd(pc: Pc) {
    pc == Begin || pc == Blocked || pc == Locked || pc == DownRunning
  }

  lemma StaysBeforeEnd(s: State, step: Step, p: Pid)
    requires Enabled(s, step) && p in s.procs && s.procs[p].actor == Sleep
    requires p in Apply(s, step).procs && BeforeEnd(Apply(s, step).procs[p].pc)
    ensures BeforeEnd(s.procs[p].pc) && forall ok :: step != DownEnd(p, ok)
  {
  }

  /** A sleep handler whose script has not ended has not made the step that ends it. */
  lemma {:induction false} NotEndedYet(run: Run, k: nat, p: Pid)
    requires Valid(run) && k < |run.states|
    requires p in run.states[k].procs ==> run.states[k].procs[p].actor == Sleep && BeforeEnd(run.states[k].procs[p].pc)
    ensures forall i, ok :: 0 <= i < k ==> run.steps[i] != DownEnd(p, ok)
  {
    if k > 0 {
      assert Follows(run, k - 1);
      if p in run.states[k - 1].procs {
        OthersStay(run, k - 1, p);
        StaysBeforeEnd(run.states[k - 1], run.steps[k - 1], p);
      }
      NotEndedYet(run, k - 1, p);
    }
  }

  /** The actor holds its tier's mutex from state b to state k. */
  ghost predicate HeldFrom(run: Run, p: Pid, b: nat, k: nat)
    requires k < |run.states| && p in run.states[k].procs
  {
    forall i :: b <= i <= k ==>
      p in run.states[i].procs && var me := run.states[i].procs[p];
        && me.tier == run.states[k].procs[p].tier && me.tier in run.states[i].perTier
        && run.states[i].perTier[me.tier] == me.lock
        && me.lock in run.states[i].holder && run.states[i].holder[me.lock] == p
  }

  lemma HoldingHolds(run: Run, i: nat, p: Pid)
    requires Valid(run) && i < |run.states| && p in run.states[i].procs && Holds(run.states[i].procs[p])
    ensures var me := run.states[i].procs[p];
            && me.tier in run.states[i].perTier && run.states[i].perTier[me.tier] == me.lock
            && me.lock in run.states[i].holder && run.states[i].holder[me.lock] == p
  {
    InvReachable(run, i);
    assert Consistent(run.states[i], p, run.states[i].procs[p]);
  }

  /** A sleep request is answered ok if and only if its own `down` succeeded: whatever the answer, the
      handler's last two steps are the beginning of its `down` and the end of it with that result, the
      only one it ever had, and it held the tier's mutex from before the one until after the other. */
  lemma SleepAnsweredExactly(run: Run, k: nat, p: Pid) returns (b: nat, e: nat)
    requires Valid(run) && k < |run.states| && p in run.states[k].procs
    requires run.states[k].procs[p].actor == Sleep && run.states[k].procs[p].pc.Deferred?
    ensures b < e < k && run.steps[b] == DownBegin(p) && run.steps[e] == DownEnd(p, run.states[k].procs[p].pc.ok)
    ensures forall i, ok :: 0 <= i < k && run.steps[i] == DownEnd(p, ok) ==> i == e
    ensures forall i :: b < i < k && i != e ==> !Acts(run.steps[i], p)
    ensures HeldFrom(run, p, b, k)
  {
    e := HasLastStep(run, k, p);
    assert Follows(run, e);
    OthersStay(run, e, p);
    SleepEnds(run.states[e], run.steps[e], p, run.states[k].procs[p].pc.ok);
    b := HasLastStep(run, e, p);
    assert Follows(run, b);
    OthersStay(run, b, p);
    SleepBegins(run.states[b], run.steps[b], p);
    NotEndedYet(run, e, p);
    HeldThroughout(run, p, b, k);
  }

  lemma HeldThroughout(run: Run, p: Pid, b: nat, k: nat)
    requires Valid(run) && b <= k < |run.states| && p in run.states[k].procs
    requires forall i :: b <= i <= k ==> p in run.states[i].procs && Holds(run.states[i].procs[p])
    requires forall i :: b <= i <= k ==> run.states[i].procs[p].tier == run.states[k].procs[p].tier
    ensures HeldFrom(run, p, b, k)
  {
    forall i | b <= i <= k
      ensures var me := run.states[i].procs[p];
              && me.tier in run.states[i].perTier && run.states[i].perTier[me.tier] == me.lock
              && me.lock in run.states[i].holder && run.states[i].holder[me.lock] == p
    {
      HoldingHolds(run, i, p);
    }
  }

  // ---- What a wake is answered ------------------------------------------------------------

  predicate InLoop(pc: Pc) {
    pc == Polling || pc == Checking || pc == Waiting
  }

  lemma LoopMove(s: State, step: Step, p: Pid)
    requires Enabled(s, step) && Acts(step, p) && p in s.procs && s.procs[p].actor == Wake
    requires InLoop(Apply(s, step).procs[p].pc)
    ensures step == Arm(p) || InLoop(s.procs[p].pc)
    ensures Apply(s, step).procs[p].deadline
            == if step == Arm(p) then s.now + s.procs[p].timeoutSecs * 1_000_000_000 else s.procs[p].deadline
    ensures Apply(s, step).procs[p].timeoutSecs == s.procs[p].timeoutSecs
  {
  }

  /** The handler set its deadline at step a, T seconds after the time it then read. */
  ghost predicate ArmedAt(run: Run, k: nat, p: Pid, a: nat)
    requires k < |run.states| && p in run.states[k].procs
  {
    && a < k && a < |run.steps| && run.steps[a] == Arm(p)
    && run.states[k].procs[p].deadline == run.states[a].now + run.states[k].procs[p].timeoutSecs * 1_000_000_000
  }

  lemma {:induction false} LoopIsArmed(run: Run, k: nat, p: Pid) returns (a: nat)
    requires Valid(run) && k < |run.states| && p in run.states[k].procs
    requires run.states[k].procs[p].actor == Wake && InLoop(run.states[k].procs[p].pc)
    ensures ArmedAt(run, k, p, a)
    decreases k
  {
    var e := HasLastStep(run, k, p);
    assert Follows(run, e);
    OthersStay(run, e, p);
    LoopMove(run.states[e], run.steps[e], p);
    if run.steps[e] == Arm(p) {
      a := e;
    } else {
      a := LoopIsArmed(run, e, p);
    }
  }

  /** The step that decided the answer, as the handler was before it. */
  predicate Decides(s: State, step: Step, me: Proc, ok: bool) {
    match step
    case Probe(_, _) => ok && s.running * me.conf.services != {}
    case UpEnd(_, up) => !ok && !up
    case CheckDeadline(_, cancelled) => !ok && (cancelled || s.now > me.deadline)
    case Resume(_, cancelled) => !ok && cancelled
    case _ => false
  }

  lemma WakeDecides(s: State, step: Step, p: Pid, ok: bool)
    requires Enabled(s, step) && Acts(step, p) && p in s.procs && s.procs[p].actor == Wake
    requires Apply(s, step).procs[p].pc == Deferred(ok)
    ensures Decides(s, step, s.procs[p], ok) && (step.CheckDeadline? ==> InLoop(s.procs[p].pc))
    ensures Apply(s, step).procs[p] == s.procs[p].(pc := Deferred(ok))
  {
  }

  /** Why a wake handler was answered so, by its last step e before the answer: ok because a probe saw
      a service of the tier running, and otherwise because its own `up` failed, the clock was past the
      time at which it set the deadline by more than its timeout, or its context had ended. */
  ghost predicate Reason(run: Run, k: nat, p: Pid, ok: bool, e: nat, a: nat)
    requires k < |run.states| && p in run.states[k].procs
  {
    var me := run.states[k].procs[p];
    && LastStep(run, k, p, e)
    && match run.steps[e]
       case Probe(_, _) => ok && run.states[e].running * me.conf.services != {}
       case UpEnd(_, up) => !ok && !up
       case CheckDeadline(_, cancelled) =>
         && !ok && a < e && run.steps[a] == Arm(p)
         && (cancelled || run.states[e].now > run.states[a].now + me.timeoutSecs * 1_000_000_000)
       case Resume(_, cancelled) => !ok && cancelled
       case _ => false
  }

  /** So a wake is answered ok exactly when its last step is a probe, and that saw the tier running. */
  lemma WakeAnsweredExactly(run: Run, k: nat, p: Pid) returns (e: nat, a: nat)
    requires Valid(run) && k < |run.states| && p in run.states[k].procs
    requires run.states[k].procs[p].actor == Wake && run.states[k].procs[p].pc.Deferred?
    ensures Reason(run, k, p, run.states[k].procs[p].pc.ok, e, a)
  {
    e := HasLastStep(run, k, p);
    a := 0;
    assert Follows(run, e);
    OthersStay(run, e, p);
    WakeDecides(run.states[e], run.steps[e], p, run.states[k].procs[p].pc.ok);
    if run.steps[e].CheckDeadline? {
      a := LoopIsArmed(run, e, p);
    }
  }

  lemma WaitBegins(s: State, step: Step, p: Pid)
    requires Enabled(s, step) && Acts(step, p) && p in s.procs && s.procs[p].actor == Wake
    requires Apply(s, step).procs[p].pc == Waiting
    ensures step == CheckDeadline(p, false) && s.now <= s.procs[p].deadline && InLoop(s.procs[p].pc)
    ensures Apply(s, step).procs[p] == s.procs[p].(pc := Waiting, resumeAt := s.now + 3_000_000_000)
  {
  }

  /** A handler that waits has just found that its deadline has not passed, and polls again three
      seconds after that, no earlier, unless its context ends. */
  lemma WaitsThreeSeconds(run: Run, k: nat, p: Pid) returns (e: nat, a: nat)
    requires Valid(run) && k < |run.states| && At(run.states[k], p, Wake, Waiting)
    ensures LastStep(run, k, p, e) && run.steps[e] == CheckDeadline(p, false)
    ensures ArmedAt(run, k, p, a) && a < e
    ensures run.states[e].now <= run.states[a].now + run.states[k].procs[p].timeoutSecs * 1_000_000_000
    ensures Enabled(run.states[k], Resume(p, false)) <==> run.states[k].now >= run.states[e].now + 3_000_000_000
    ensures Enabled(run.states[k], Resume(p, true))
  {
    e := HasLastStep(run, k, p);
    assert Follows(run, e);
    OthersStay(run, e, p);
    WaitBegins(run.states[e], run.steps[e], p);
    a := LoopIsArmed(run, e, p);
  }

  // ---- What boot seeding writes -----------------------------------------------------------

  lemma SeederKeeps(s: State, step: Step, p: Pid)
    requires Enabled(s, step) && p in s.procs && s.procs[p].actor == Seeder && p in Apply(s, step).procs
    requires At(Apply(s, step), p, Seeder, Seeding)
    ensures if step.Snapshot? && step.p == p
            then Apply(s, step).procs[p].seen == step.seen && (step.seen == s.running || step.seen == {})
            else Apply(s, step).procs[p] == s.procs[p]
  {
  }

  /** At j the boot goroutine took its snapshot. */
  ghost predicate SnapshotAt(run: Run, k: nat, p: Pid, j: nat) {
    && j < k < |run.states| && j < |run.steps| && p in run.states[k].procs
    && run.steps[j] == Snapshot(p, run.states[k].procs[p].seen)
    && (run.states[k].procs[p].seen == run.states[j].running || run.states[k].procs[p].seen == {})
  }

  lemma {:induction false} SeederTookSnapshot(run: Run, k: nat, p: Pid) returns (j: nat)
    requires Valid(run) && k < |run.states| && At(run.states[k], p, Seeder, Seeding)
    ensures SnapshotAt(run, k, p, j)
  {
    WasSeeder(run, k, p);
    assert Follows(run, k - 1);
    SeederKeeps(run.states[k - 1], run.steps[k - 1], p);
    if run.steps[k - 1].Snapshot? && run.steps[k - 1].p == p {
      j := k - 1;
    } else {
      j := SeederTookSnapshot(run, k - 1, p);
    }
  }

  lemma WasSeeder(run: Run, k: nat, p: Pid)
    requires Valid(run) && k < |run.states| && At(run.states[k], p, Seeder, Seeding)
    ensures k > 0 && p in run.states[k - 1].procs && run.states[k - 1].procs[p].actor == Seeder
  {
    assert Follows(run, k - 1);
    if p in run.states[k - 1].procs {
      OthersStay(run, k - 1, p);
    }
  }

  /** Boot seeding marks only configured tiers with a service that ran when it looked, with the time of
      the write. */
  lemma SeedIsJustified(run: Run, k: nat, p: Pid, tier: Tier) returns (j: nat)
    requires Valid(run) && k < |run.steps| && run.steps[k] == Seed(p, tier)
    ensures j < k && run.steps[j].Snapshot? && run.steps[j].p == p
    ensures tier in run.states[k].conf && run.states[k].conf[tier].services * run.states[j].running != {}
    ensures tier in run.states[k + 1].lastWake && run.states[k + 1].lastWake[tier] == run.states[k].now
  {
    assert Follows(run, k);
    j := SeederTookSnapshot(run, k, p);
  }
}
