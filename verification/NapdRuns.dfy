/** What holds over whole runs of napd: tier scripts never overlap, the reaper only stops
    idle tiers, and a wake answered ok found its tier running. */
module NapdRuns {
  import opened NapdProtocol

  /** The step is taken by actor `p`. */
  predicate Acts(step: Step, p: Pid) {
    !(step.Tick? || step.Containers? || step.EditConf? || step.Arrive?) && step.p == p
  }

  lemma OthersStay(run: Run, k: nat, p: Pid)
    requires Valid(run) && k < |run.steps| && p in run.states[k].procs
    ensures p in run.states[k + 1].procs
    ensures run.states[k + 1].procs[p].actor == run.states[k].procs[p].actor
    ensures !Acts(run.steps[k], p) ==> run.states[k + 1].procs[p] == run.states[k].procs[p]
  {
    assert Follows(run, k);
  }

  lemma {:induction false} ClockAdvances(run: Run, i: nat, j: nat)
    requires Valid(run) && i <= j < |run.states|
    ensures run.states[i].now <= run.states[j].now
    decreases j
  {
    if i < j {
      ClockAdvances(run, i, j - 1);
      assert Follows(run, j - 1);
    }
  }

  // ---- One mutex per tier ---------------------------------------------------------------

  /** A tier name maps to one mutex for the whole run, and to no other tier's mutex. */
  lemma {:induction false} OneMutexPerTier(run: Run, i: nat, j: nat, tier: Tier)
    requires Valid(run) && i <= j < |run.states| && tier in run.states[i].perTier
    ensures tier in run.states[j].perTier && run.states[j].perTier[tier] == run.states[i].perTier[tier]
    ensures forall other :: other in run.states[j].perTier && other != tier
              ==> run.states[j].perTier[other] != run.states[i].perTier[tier]
    decreases j
  {
    InvReachable(run, j);
    if i < j {
      OneMutexPerTier(run, i, j - 1, tier);
      assert Follows(run, j - 1);
    }
  }

  /** Two actors between Lock and Unlock of the same tier are the same actor; in particular
      napd's `up` and `down` of a tier never overlap. */
  lemma ScriptsNeverOverlap(run: Run, k: nat, p: Pid, q: Pid)
    requires Valid(run) && k < |run.states|
    requires p in run.states[k].procs && q in run.states[k].procs && p != q
    requires run.states[k].procs[p].tier == run.states[k].procs[q].tier
    ensures !(Holds(run.states[k].procs[p]) && Holds(run.states[k].procs[q]))
    ensures var a, b := run.states[k].procs[p].pc, run.states[k].procs[q].pc;
            !((a == UpRunning || a == DownRunning) && (b == UpRunning || b == DownRunning))
  {
    InvReachable(run, k);
    assert Consistent(run.states[k], p, run.states[k].procs[p]);
    assert Consistent(run.states[k], q, run.states[k].procs[q]);
  }

  // ---- The reaper -----------------------------------------------------------------------

  /** At `v` the reaper picked the tier: its file says autosleep, with a positive window. */
  ghost predicate ChoseAt(run: Run, p: Pid, v: nat, proc: Proc) {
    && v < |run.steps| < |run.states| && run.steps[v] == Visit(p, proc.tier)
    && proc.tier in run.states[v].conf && run.states[v].conf[proc.tier] == proc.conf
    && proc.conf.autosleep && proc.conf.idleSecs > 0
  }

  /** At `r` it read the tier's last wake, which is set. */
  ghost predicate ReadAt(run: Run, p: Pid, r: nat, proc: Proc) {
    && r < |run.steps| < |run.states| && run.steps[r] == ReadLastWake(p)
    && LastWakeOf(run.states[r], proc.tier) == proc.lastWake != 0
  }

  /** At `c` the idle window had passed since the value read. */
  ghost predicate DueAt(run: Run, p: Pid, c: nat, proc: Proc) {
    && c < |run.steps| < |run.states| && run.steps[c] == CheckIdle(p)
    && run.states[c].now - proc.lastWake >= Window(proc.conf.idleSecs)
  }

  /** At `t` its TryLock of the tier's mutex succeeded. */
  ghost predicate LockedAt(run: Run, p: Pid, t: nat, proc: Proc) {
    && t < |run.steps| < |run.states| && run.steps[t] == TryLock(p)
    && proc.lock !in run.states[t].holder
    && proc.tier in run.states[t].perTier && run.states[t].perTier[proc.tier] == proc.lock
  }

  /** At `a` it saw a service of the tier running. */
  ghost predicate SawAwakeAt(run: Run, p: Pid, a: nat, proc: Proc) {
    && a < |run.steps| < |run.states| && run.steps[a].Probe? && run.steps[a].p == p
    && run.states[a].running * proc.conf.services != {}
  }

  ghost predicate HeldBetween(run: Run, p: Pid, t: nat, k: nat, lock: Lock) {
    forall i :: t < i <= k < |run.states| ==> lock in run.states[i].holder && run.states[i].holder[lock] == p
  }

  /** The visit that began at `v` is still the reaper's latest before step `k`. */
  ghost predicate NoVisitSince(run: Run, p: Pid, v: nat, k: nat) {
    forall i :: v < i < k <= |run.steps| ==> !(run.steps[i].Visit? && run.steps[i].p == p)
  }

  /** How far the reaper has got with the tier it visits. */
  function Stage(pc: Pc): nat {
    match pc
    case Visiting => 1
    case LastRead => 2
    case Due => 3
    case Trying => 3
    case Locked => 4
    case SeenAwake => 5
    case DownRunning => 5
    case _ => 0
  }

  /** The tier, its file and the last wake read stay the same while one visit goes on. */
  predicate SameVisit(a: Proc, b: Proc) {
    a.tier == b.tier && a.conf == b.conf && (Stage(a.pc) >= 2 ==> a.lastWake == b.lastWake)
  }

  /** What a step of the reaper that does not abandon the visit has just found out. */
  predicate Found(s: State, step: Step, me: Proc, me': Proc) {
    match step
    case Visit(_, tier) =>
      && Stage(me'.pc) == 1 && tier == me'.tier && tier in s.conf && s.conf[tier] == me'.conf
      && me'.conf.autosleep && me'.conf.idleSecs > 0
    case ReadLastWake(_) =>
      && Stage(me.pc) == 1 && Stage(me'.pc) == 2 && SameVisit(me, me')
      && LastWakeOf(s, me.tier) == me'.lastWake != 0
    case CheckIdle(_) =>
      && Stage(me.pc) == 2 && Stage(me'.pc) == 3 && SameVisit(me, me')
      && s.now - me.lastWake >= Window(me.conf.idleSecs)
    case TierLock(_, _) => Stage(me.pc) == 3 && Stage(me'.pc) == 3 && SameVisit(me, me')
    case TryLock(_) =>
      && Stage(me.pc) == 3 && Stage(me'.pc) == 4 && SameVisit(me, me')
      && me'.lock !in s.holder && me'.tier in s.perTier && s.perTier[me'.tier] == me'.lock
    case Probe(_, _) =>
      && Stage(me.pc) == 4 && Stage(me'.pc) == 5 && SameVisit(me, me') && me.lock == me'.lock
      && s.running * me.conf.services != {}
    case DownBegin(_) => Stage(me.pc) == 5 && Stage(me'.pc) == 5 && SameVisit(me, me') && me.lock == me'.lock
    case _ => false
  }

  lemma ReaperMovesOn(s: State, step: Step)
    requires Enabled(s, step) && Local(step) && s.procs[step.p].actor == Reaper
    ensures Stage(Moved(s, step).pc) == 0 || Found(s, step, s.procs[step.p], Moved(s, step))
  {
  }

  lemma ReaperLocks(s: State, step: Step)
    requires Enabled(s, step) && (step.TierLock? || step.TryLock? || step.Release?)
    requires s.procs[step.p].actor == Reaper && Consistent(s, step.p, s.procs[step.p])
    ensures step.p in Apply(s, step).procs
    ensures var me' := Apply(s, step).procs[step.p];
            Stage(me'.pc) == 0 || Found(s, step, s.procs[step.p], me')
  {
    match step
    case TierLock(p, lock) => ReaperGetsLock(s, p, lock);
    case TryLock(p) => ReaperTries(s, p);
    case Release(p) => assert Apply(s, step).procs[p].pc == Idle;
  }

  lemma ReaperGetsLock(s: State, p: Pid, lock: Lock)
    requires Enabled(s, TierLock(p, lock)) && s.procs[p].actor == Reaper
    ensures Apply(s, TierLock(p, lock)).procs == s.procs[p := s.procs[p].(lock := lock, pc := Trying)]
    ensures Found(s, TierLock(p, lock), s.procs[p], s.procs[p].(lock := lock, pc := Trying))
  {
  }

  lemma ReaperTries(s: State, p: Pid)
    requires Enabled(s, TryLock(p)) && Consistent(s, p, s.procs[p])
    ensures var me := s.procs[p]; var me' := me.(pc := if me.lock in s.holder then Idle else Locked);
            && Apply(s, TryLock(p)).procs == s.procs[p := me']
            && (Stage(me'.pc) == 0 || Found(s, TryLock(p), me, me'))
  {
  }

  lemma ReaperMove(s: State, step: Step, p: Pid)
    requires Inv(s) && Enabled(s, step) && Acts(step, p)
    requires p in s.procs && s.procs[p].actor == Reaper
    ensures p in Apply(s, step).procs
    ensures Stage(Apply(s, step).procs[p].pc) == 0 || Found(s, step, s.procs[p], Apply(s, step).procs[p])
  {
    if Local(step) {
      ReaperMovesOn(s, step);
    } else if step.TierLock? || step.TryLock? || step.Release? {
      assert Consistent(s, p, s.procs[p]);
      ReaperLocks(s, step);
    }
  }

  ghost predicate History(run: Run, k: nat, p: Pid, me: Proc, v: nat, r: nat, c: nat, t: nat, a: nat) {
    var stage := Stage(me.pc);
    && (stage >= 1 ==> v < k && ChoseAt(run, p, v, me) && NoVisitSince(run, p, v, k))
    && (stage >= 2 ==> v < r < k && ReadAt(run, p, r, me))
    && (stage >= 3 ==> r < c < k && DueAt(run, p, c, me))
    && (stage >= 4 ==> c < t < k && LockedAt(run, p, t, me) && HeldBetween(run, p, t, k, me.lock))
    && (stage >= 5 ==> t < a < k && SawAwakeAt(run, p, a, me))
  }

  /** What held of the visit before a step that is not a new visit still holds after it. */
  lemma HistoryCarries(run: Run, k: nat, p: Pid, me: Proc, me': Proc, v: nat, r: nat, c: nat, t: nat, a: nat)
    requires 0 < k < |run.states| == |run.steps| + 1 && !run.steps[k - 1].Visit?
    requires History(run, k - 1, p, me, v, r, c, t, a) && SameVisit(me, me')
    requires Stage(me.pc) >= 4 ==> me.lock == me'.lock
    ensures Stage(me.pc) >= 1 ==> v < k && ChoseAt(run, p, v, me') && NoVisitSince(run, p, v, k)
    ensures Stage(me.pc) >= 2 ==> v < r < k && ReadAt(run, p, r, me')
    ensures Stage(me.pc) >= 3 ==> r < c < k && DueAt(run, p, c, me')
    ensures Stage(me.pc) >= 4 ==> c < t < k && LockedAt(run, p, t, me') && HeldBetween(run, p, t, k - 1, me'.lock)
    ensures Stage(me.pc) >= 5 ==> t < a < k && SawAwakeAt(run, p, a, me')
  {
  }

  /** One more step of the reaper extends what it has established so far. */
  lemma HistoryGrows(run: Run, k: nat, p: Pid, me: Proc, me': Proc, v: nat, r: nat, c: nat, t: nat, a: nat)
    returns (v': nat, r': nat, c': nat, t': nat, a': nat)
    requires 0 < k < |run.states| == |run.steps| + 1
    requires History(run, k - 1, p, me, v, r, c, t, a)
    requires Acts(run.steps[k - 1], p) && Found(run.states[k - 1], run.steps[k - 1], me, me')
    requires Holds(me') ==> me'.lock in run.states[k].holder && run.states[k].holder[me'.lock] == p
    ensures History(run, k, p, me', v', r', c', t', a')
  {
    v', r', c', t', a' := v, r, c, t, a;
    if run.steps[k - 1].Visit? {
      v' := k - 1;
    } else {
      HistoryCarries(run, k, p, me, me', v, r, c, t, a);
      match run.steps[k - 1]
      case ReadLastWake(_) => r' := k - 1;
      case CheckIdle(_) => c' := k - 1;
      case TryLock(_) => t' := k - 1;
      case Probe(_, _) => a' := k - 1;
      case _ =>
    }
  }

  /** A step of another actor leaves everything standing. */
  lemma HistoryStays(run: Run, k: nat, p: Pid, me: Proc, v: nat, r: nat, c: nat, t: nat, a: nat)
    requires 0 < k < |run.states| == |run.steps| + 1
    requires History(run, k - 1, p, me, v, r, c, t, a) && !Acts(run.steps[k - 1], p)
    requires Holds(me) ==> me.lock in run.states[k].holder && run.states[k].holder[me.lock] == p
    ensures History(run, k, p, me, v, r, c, t, a)
  {
  }

  lemma {:induction false} ReaperHistory(run: Run, k: nat, p: Pid) returns (v: nat, r: nat, c: nat, t: nat, a: nat)
    requires Valid(run) && k < |run.states|
    requires p in run.states[k].procs && run.states[k].procs[p].actor == Reaper
    ensures History(run, k, p, run.states[k].procs[p], v, r, c, t, a)
  {
    v, r, c, t, a := 0, 0, 0, 0, 0;
    if k > 0 && Stage(run.states[k].procs[p].pc) > 0 {
      WasReaper(run, k - 1, p);
      v, r, c, t, a := ReaperHistory(run, k - 1, p);
      HolderRecorded(run, k, p);
      if Acts(run.steps[k - 1], p) {
        assert Follows(run, k - 1);
        InvReachable(run, k - 1);
        ReaperMove(run.states[k - 1], run.steps[k - 1], p);
        v, r, c, t, a := HistoryGrows(run, k, p, run.states[k - 1].procs[p], run.states[k].procs[p], v, r, c, t, a);
      } else {
        HistoryStays(run, k, p, run.states[k].procs[p], v, r, c, t, a);
      }
    }
  }

  lemma WasReaper(run: Run, k: nat, p: Pid)
    requires Valid(run) && k < |run.steps|
    requires p in run.states[k + 1].procs && run.states[k + 1].procs[p].actor == Reaper
    ensures p in run.states[k].procs && run.states[k].procs[p].actor == Reaper
    ensures !Acts(run.steps[k], p) ==> run.states[k + 1].procs[p] == run.states[k].procs[p]
  {
    assert Follows(run, k);
    if p in run.states[k].procs {
      OthersStay(run, k, p);
    }
  }

  lemma HolderRecorded(run: Run, k: nat, p: Pid)
    requires Valid(run) && k < |run.states| && p in run.states[k].procs
    ensures var me := run.states[k].procs[p];
            Holds(me) ==> me.lock in run.states[k].holder && run.states[k].holder[me.lock] == p
  {
    InvReachable(run, k);
    assert Consistent(run.states[k], p, run.states[k].procs[p]);
  }

  /** Everything the reaper established before it starts `down` at step `k`. */
  ghost predicate Justified(run: Run, k: nat, p: Pid, v: nat, r: nat, c: nat, t: nat, a: nat) {
    && v < r < c < t < a < k < |run.steps| < |run.states|
    && run.steps[k] == DownBegin(p) && p in run.states[k].procs
    && var me := run.states[k].procs[p];
       && ChoseAt(run, p, v, me) && NoVisitSince(run, p, v, k) && ReadAt(run, p, r, me) && DueAt(run, p, c, me)
       && LockedAt(run, p, t, me) && HeldBetween(run, p, t, k, me.lock) && SawAwakeAt(run, p, a, me)
  }

  /** In every run the reaper starts `down` only for a tier that is autosleep with a positive
      window, whose last wake as read lies a window back, and that it saw awake while it held
      the tier's mutex, without a break, up to the `down`. */
  lemma ReaperStopsOnlyIdleTiers(run: Run, k: nat, p: Pid)
    requires Valid(run) && k < |run.steps| && run.steps[k] == DownBegin(p)
    requires p in run.states[k].procs && run.states[k].procs[p].actor == Reaper
    ensures exists v, r, c, t, a :: Justified(run, k, p, v, r, c, t, a)
  {
    assert Follows(run, k);
    var v, r, c, t, a := ReaperHistory(run, k, p);
    assert Justified(run, k, p, v, r, c, t, a);
  }

  /** The step sets the tier's last wake: a wake handler marks it, or boot seeds it. */
  predicate Sets(s: State, step: Step, tier: Tier) {
    match step
    case MarkWake(q) => q in s.procs && s.procs[q].tier == tier
    case Seed(_, x) => x == tier
    case _ => false
  }

  lemma OnlySettersSet(s: State, step: Step, tier: Tier)
    requires Enabled(s, step)
    ensures LastWakeOf(Apply(s, step), tier) == if Sets(s, step, tier) then s.now else LastWakeOf(s, tier)
  {
  }

  ghost predicate Writes(run: Run, w: nat, tier: Tier) {
    w < |run.steps| < |run.states| && Sets(run.states[w], run.steps[w], tier)
  }

  lemma {:induction false} LastWakeStays(run: Run, i: nat, j: nat, tier: Tier)
    requires Valid(run) && i <= j < |run.states|
    requires forall w :: i <= w < j ==> !Writes(run, w, tier)
    ensures LastWakeOf(run.states[j], tier) == LastWakeOf(run.states[i], tier)
    decreases j
  {
    if i < j {
      LastWakeStays(run, i, j - 1, tier);
      assert Follows(run, j - 1) && !Writes(run, j - 1, tier);
      OnlySettersSet(run.states[j - 1], run.steps[j - 1], tier);
    }
  }

  /** Once the reaper holds the mutex, no wake handler marks its tier. */
  lemma LockKeepsWakesOut(run: Run, k: nat, p: Pid, v: nat, r: nat, c: nat, t: nat, a: nat, w: nat)
    requires Valid(run) && Justified(run, k, p, v, r, c, t, a) && t <= w < k
    requires run.states[k].procs[p].actor == Reaper
    requires Writes(run, w, run.states[k].procs[p].tier)
    ensures run.steps[w].Seed?
  {
    var me := run.states[k].procs[p];
    if run.steps[w].MarkWake? && w != t {
      var q := run.steps[w].p;
      MarkerHolds(run, w, q);
      OneMutexPerTier(run, t, w, me.tier);
      assert run.states[w].holder[me.lock] == p;
      StaysReaper(run, w, k, p);
    }
  }

  lemma MarkerHolds(run: Run, w: nat, q: Pid)
    requires Valid(run) && w < |run.steps| && run.steps[w] == MarkWake(q)
    ensures q in run.states[w].procs && run.states[w].procs[q].actor == Wake
    ensures var tier := run.states[w].procs[q].tier;
            && tier in run.states[w].perTier && run.states[w].perTier[tier] in run.states[w].holder
            && run.states[w].holder[run.states[w].perTier[tier]] == q
  {
    assert Follows(run, w);
    InvReachable(run, w);
    assert Consistent(run.states[w], q, run.states[w].procs[q]);
  }

  lemma {:induction false} StaysReaper(run: Run, i: nat, k: nat, p: Pid)
    requires Valid(run) && i <= k < |run.states|
    requires p in run.states[k].procs && run.states[k].procs[p].actor == Reaper
    ensures p in run.states[i].procs && run.states[i].procs[p].actor == Reaper
    decreases k
  {
    if i < k {
      WasReaper(run, k - 1, p);
      StaysReaper(run, i, k - 1, p);
    }
  }

  /** If no write falls between the reaper's read and its TryLock, and the boot goroutine does
      not seed the tier after that, the value read is the newest wake and a whole window has
      passed since: the tier is not reaped inside its window. */
  lemma NoRaceNoEarlyReap(run: Run, k: nat, p: Pid, v: nat, r: nat, c: nat, t: nat, a: nat)
    requires Valid(run) && Justified(run, k, p, v, r, c, t, a)
    requires run.states[k].procs[p].actor == Reaper
    requires forall w :: r <= w < t ==> !Writes(run, w, run.states[k].procs[p].tier)
    requires forall w :: t <= w < k && run.steps[w].Seed? ==> run.steps[w].tier != run.states[k].procs[p].tier
    ensures var me := run.states[k].procs[p];
            && LastWakeOf(run.states[k], me.tier) == me.lastWake
            && run.states[k].now - me.lastWake >= Window(me.conf.idleSecs)
            && (me.conf.idleSecs <= MAX_IDLE_SECS ==> run.states[k].now - me.lastWake >= me.conf.idleSecs * SECOND)
  {
    var me := run.states[k].procs[p];
    forall w | r <= w < k ensures !Writes(run, w, me.tier) {
      if w >= t && Writes(run, w, me.tier) {
        LockKeepsWakesOut(run, k, p, v, r, c, t, a, w);
      }
    }
    LastWakeStays(run, r, k, me.tier);
    ClockAdvances(run, c, k);
  }

  /** After a write the last wake is at least the write's time. */
  lemma {:induction false} LastWakeAtLeast(run: Run, w: nat, j: nat, tier: Tier)
    requires Valid(run) && w < j < |run.states| && Writes(run, w, tier)
    ensures LastWakeOf(run.states[j], tier) >= run.states[w].now
    decreases j
  {
    assert Follows(run, j - 1);
    OnlySettersSet(run.states[j - 1], run.steps[j - 1], tier);
    ClockAdvances(run, w, j - 1);
    if w < j - 1 {
      LastWakeAtLeast(run, w, j - 1, tier);
    }
  }

  /** A last wake that changed is the time of some write in between. */
  lemma {:induction false} LastWakeFrom(run: Run, i: nat, j: nat, tier: Tier) returns (w: nat)
    requires Valid(run) && i <= j < |run.states|
    ensures LastWakeOf(run.states[j], tier) == LastWakeOf(run.states[i], tier)
            || (i <= w < j && Writes(run, w, tier) && LastWakeOf(run.states[j], tier) == run.states[w].now)
    decreases j
  {
    w := i;
    if i < j {
      w := LastWakeFrom(run, i, j - 1, tier);
      assert Follows(run, j - 1);
      OnlySettersSet(run.states[j - 1], run.steps[j - 1], tier);
      if Writes(run, j - 1, tier) {
        w := j - 1;
      }
    }
  }

  /** At `w` a wake of the tier slipped in between the reaper's read and its TryLock, or the boot
      goroutine seeded the tier later, and less than a window before the `down` at `k`. */
  ghost predicate RacedAt(run: Run, k: nat, me: Proc, r: nat, t: nat, w: nat) {
    && r <= w < k < |run.steps| < |run.states| && Writes(run, w, me.tier)
    && (w < t || run.steps[w].Seed?)
    && run.states[k].now - run.states[w].now < Window(me.conf.idleSecs)
  }

  /** Exactly when the reaper stops a tier inside its window, that is less than a window after the
      tier's last wake: when a write of the last wake, less than a window old, fell between the
      reaper's read and its TryLock, or was a boot seeding after that. */
  lemma EarlyReapExactly(run: Run, k: nat, p: Pid, v: nat, r: nat, c: nat, t: nat, a: nat)
    requires Valid(run) && Justified(run, k, p, v, r, c, t, a)
    requires run.states[k].procs[p].actor == Reaper
    ensures var me := run.states[k].procs[p];
            run.states[k].now - LastWakeOf(run.states[k], me.tier) < Window(me.conf.idleSecs)
            <==> exists w :: RacedAt(run, k, me, r, t, w)
  {
    var me := run.states[k].procs[p];
    if w :| RacedAt(run, k, me, r, t, w) {
      LastWakeAtLeast(run, w, k, me.tier);
    }
    if run.states[k].now - LastWakeOf(run.states[k], me.tier) < Window(me.conf.idleSecs) {
      ClockAdvances(run, c, k);
      var w := LastWakeFrom(run, r, k, me.tier);
      if w >= t {
        LockKeepsWakesOut(run, k, p, v, r, c, t, a, w);
      }
      assert RacedAt(run, k, me, r, t, w);
    }
  }

  /** The window is the configured number of seconds exactly while int64 nanoseconds hold it;
      beyond that the product wraps around. */
  lemma WindowIsExact(idleSecs: int)
    requires 0 < idleSecs < TWO_63
    ensures Window(idleSecs) == idleSecs * SECOND <==> idleSecs <= MAX_IDLE_SECS
  {
  }

  /** The first window that wraps is negative, so its tier is due at once. */
  lemma WindowWraps()
    ensures Window(MAX_IDLE_SECS + 1) < 0
  {
  }

  lemma {:induction false} SleepersAdmitted(run: Run, k: nat, p: Pid)
    requires Valid(run) && k < |run.states|
    requires p in run.states[k].procs && run.states[k].procs[p].actor == Sleep
    ensures run.states[k].procs[p].conf.autosleep || run.states[k].procs[p].force
  {
    if k > 0 {
      assert Follows(run, k - 1);
      if p in run.states[k - 1].procs {
        OthersStay(run, k - 1, p);
        SleepersAdmitted(run, k - 1, p);
      }
    }
  }

  /** napd never stops a tier whose file did not opt in when it was read, unless the request
      said force=1. */
  lemma DownIsAllowed(run: Run, k: nat, p: Pid)
    requires Valid(run) && k < |run.steps| && run.steps[k] == DownBegin(p)
    ensures p in run.states[k].procs
    ensures var me := run.states[k].procs[p];
            me.conf.autosleep || (me.actor == Sleep && me.force)
  {
    assert Follows(run, k);
    if run.states[k].procs[p].actor == Sleep {
      SleepersAdmitted(run, k, p);
    } else {
      var v, r, c, t, a := ReaperHistory(run, k, p);
    }
  }

  // ---- Wake -----------------------------------------------------------------------------

  /** The wake handler's own `up` has succeeded and it still holds the mutex. */
  predicate IsUp(pc: Pc) {
    pc == Upped || pc == Marked || pc == Polling || pc == Checking || pc == Waiting
  }

  /** No `down` of the tier runs in state `i`. */
  ghost predicate NoDown(run: Run, i: nat, tier: Tier)
    requires i < |run.states|
  {
    forall q :: q in run.states[i].procs && run.states[i].procs[q].tier == tier
      ==> run.states[i].procs[q].pc != DownRunning
  }

  lemma HolderShutsOutDown(run: Run, i: nat, p: Pid)
    requires Valid(run) && i < |run.states| && p in run.states[i].procs
    requires Holds(run.states[i].procs[p]) && run.states[i].procs[p].pc != DownRunning
    ensures NoDown(run, i, run.states[i].procs[p].tier)
  {
    var tier := run.states[i].procs[p].tier;
    forall q | q in run.states[i].procs && run.states[i].procs[q].tier == tier
      ensures run.states[i].procs[q].pc != DownRunning
    {
      if q != p {
        ScriptsNeverOverlap(run, i, p, q);
      }
    }
  }

  lemma WakeMoveLocal(s: State, step: Step)
    requires Enabled(s, step) && Local(step) && IsUp(Moved(s, step).pc)
    ensures var me := s.procs[step.p]; var me' := Moved(s, step);
            && me'.tier == me.tier
            && (step == UpEnd(step.p, true) || IsUp(me.pc))
            && (step == UpEnd(step.p, true) ==> me.pc == UpRunning && me'.pc == Upped)
            && (me.pc == Upped != me'.pc ==> step == MarkWake(step.p))
  {
  }

  lemma WakeStays(s: State, step: Step, p: Pid)
    requires Enabled(s, step) && p in Apply(s, step).procs && IsUp(Apply(s, step).procs[p].pc)
    requires !(Local(step) && step.p == p)
    ensures p in s.procs && Apply(s, step).procs[p] == s.procs[p]
    ensures step != UpEnd(p, true)
  {
  }

  lemma WakeMove(s: State, step: Step, p: Pid)
    requires Enabled(s, step) && p in Apply(s, step).procs && IsUp(Apply(s, step).procs[p].pc)
    ensures p in s.procs
    ensures var me := s.procs[p]; var me' := Apply(s, step).procs[p];
            && me'.tier == me.tier
            && (step == UpEnd(p, true) || IsUp(me.pc))
            && (step == UpEnd(p, true) ==> me.pc == UpRunning && me'.pc == Upped)
            && (me.pc == Upped != me'.pc ==> step == MarkWake(p))
  {
    if Local(step) && step.p == p {
      assert Apply(s, step).procs[p] == Moved(s, step);
      WakeMoveLocal(s, step);
    } else {
      WakeStays(s, step, p);
    }
  }

  /** At `u` the wake handler's own `up` succeeded, and nothing has stopped the tier since. */
  ghost predicate UpSince(run: Run, k: nat, p: Pid, u: nat, tier: Tier) {
    && u <= k && u < |run.steps| && k < |run.states| == |run.steps| + 1
    && run.steps[u] == UpEnd(p, true)
    && forall i :: u <= i <= k ==> NoDown(run, i, tier)
  }

  lemma UpSinceGrows(run: Run, k: nat, p: Pid, u: nat, tier: Tier)
    requires 0 < k < |run.states| == |run.steps| + 1 && NoDown(run, k, tier)
    requires if u == k - 1 then run.steps[u] == UpEnd(p, true) && NoDown(run, u, tier)
             else UpSince(run, k - 1, p, u, tier)
    ensures UpSince(run, k, p, u, tier)
  {
  }

  lemma {:induction false} WakeHistory(run: Run, k: nat, p: Pid) returns (u: nat)
    requires Valid(run) && k < |run.states|
    requires p in run.states[k].procs && IsUp(run.states[k].procs[p].pc)
    ensures var me := run.states[k].procs[p];
            && UpSince(run, k, p, u, me.tier)
            && (me.pc != Upped ==> LastWakeOf(run.states[k], me.tier) >= run.states[u].now)
  {
    assert k > 0;
    assert Follows(run, k - 1);
    var tier := run.states[k].procs[p].tier;
    WakeMove(run.states[k - 1], run.steps[k - 1], p);
    HolderShutsOutDown(run, k, p);
    if run.steps[k - 1] == UpEnd(p, true) {
      u := k - 1;
      HolderShutsOutDown(run, u, p);
    } else {
      u := WakeHistory(run, k - 1, p);
      OnlySettersSet(run.states[k - 1], run.steps[k - 1], tier);
      ClockAdvances(run, u, k - 1);
    }
    UpSinceGrows(run, k, p, u, tier);
  }

  /** A wake answered ok saw a service of its tier running after its own `up` succeeded, no
      napd `down` of the tier ran from that `up` to the answer, and the tier's last wake is at
      least as new as that `up`. */
  lemma WakeAnsweredOk(run: Run, k: nat, p: Pid) returns (u: nat)
    requires Valid(run) && k < |run.steps| && At(run.states[k], p, Wake, Polling)
    requires Acts(run.steps[k], p) && At(run.states[k + 1], p, Wake, Deferred(true))
    ensures var me := run.states[k].procs[p];
            && run.states[k].running * me.conf.services != {}
            && UpSince(run, k, p, u, me.tier)
            && LastWakeOf(run.states[k], me.tier) >= run.states[u].now
  {
    assert Follows(run, k);
    u := WakeHistory(run, k, p);
  }

  // ---- How often a wake polls -------------------------------------------------------------

  predicate Polls(step: Step, p: Pid) {
    step.Probe? && step.p == p
  }

  /** The number of `docker ps` calls the actor made in the first k steps. */
  ghost function Probes(run: Run, k: nat, p: Pid): nat
    requires k <= |run.steps|
  {
    if k == 0 then 0 else Probes(run, k - 1, p) + if Polls(run.steps[k - 1], p) then 1 else 0
  }

  /** How many polls the program counter of a wake handler allows: each of them but the first comes
      three seconds after a check that was not past the deadline. */
  ghost predicate PollsOk(s: State, p: Pid, polls: nat) {
    if p !in s.procs then polls == 0
    else s.procs[p].actor == Wake ==> MayHavePolled(s.procs[p], s.now, polls)
  }

  ghost predicate MayHavePolled(me: Proc, now: Time, polls: nat) {
    var armedAt := me.deadline - me.timeoutSecs * SECOND;
    && 0 <= me.timeoutSecs
    && match me.pc
       case Polling => 3 * SECOND * polls <= now - armedAt && 3 * (polls - 1) <= me.timeoutSecs
       case Checking => 3 * SECOND * (polls - 1) <= now - armedAt && 3 * (polls - 2) <= me.timeoutSecs
       case Waiting => armedAt + 3 * SECOND * polls <= me.resumeAt && 3 * (polls - 1) <= me.timeoutSecs
       case Deferred(_) => 3 * (polls - 2) <= me.timeoutSecs
       case Done => 3 * (polls - 2) <= me.timeoutSecs
       case _ => polls == 0
  }

  lemma LaterPolls(me: Proc, now: Time, later: Time, polls: nat)
    requires MayHavePolled(me, now, polls) && now <= later
    ensures MayHavePolled(me, later, polls)
  {
  }

  lemma OwnMovePolls(s: State, step: Step, p: Pid, polls: nat)
    requires Enabled(s, step) && Local(step) && step.p == p && s.procs[p].actor == Wake
    requires MayHavePolled(s.procs[p], s.now, polls)
    ensures MayHavePolled(Moved(s, step), s.now, polls + if Polls(step, p) then 1 else 0)
  {
  }

  lemma OwnStepPolls(s: State, step: Step, t: State, p: Pid, polls: nat)
    requires Enabled(s, step) && Local(step) && step.p == p && s.procs[p].actor == Wake && t == Apply(s, step)
    requires PollsOk(s, p, polls)
    ensures PollsOk(t, p, polls + if Polls(step, p) then 1 else 0)
  {
    OwnMovePolls(s, step, p, polls);
    assert t.now == s.now && t.procs[p] == Moved(s, step);
  }

  /** A step that is not a local one of the actor leaves it polling as often. */
  lemma OtherMovePolls(s: State, step: Step, t: State, p: Pid, polls: nat)
    requires Enabled(s, step) && !(Local(step) && step.p == p) && p in s.procs && t == Apply(s, step)
    requires s.procs[p].actor == Wake && MayHavePolled(s.procs[p], s.now, polls)
    ensures !Polls(step, p) && p in t.procs && MayHavePolled(t.procs[p], s.now, polls) && s.now <= t.now
  {
    assert step.Tick? || t.now == s.now;
  }

  lemma OtherStepPolls(s: State, step: Step, t: State, p: Pid, polls: nat)
    requires Enabled(s, step) && !(Local(step) && step.p == p) && p in s.procs && t == Apply(s, step)
    requires s.procs[p].actor == Wake && PollsOk(s, p, polls)
    ensures PollsOk(t, p, polls + if Polls(step, p) then 1 else 0)
  {
    OtherMovePolls(s, step, t, p, polls);
    LaterPolls(t.procs[p], s.now, t.now, polls);
  }

  lemma FirstPolls(s: State, step: Step, t: State, p: Pid)
    requires Enabled(s, step) && p !in s.procs && t == Apply(s, step)
    ensures !Polls(step, p) && PollsOk(t, p, 0)
  {
  }

  lemma NoWakePolls(s: State, step: Step, t: State, p: Pid)
    requires Enabled(s, step) && p in s.procs && s.procs[p].actor != Wake && t == Apply(s, step)
    ensures p in t.procs && t.procs[p].actor != Wake
  {
  }

  lemma StepPolls(s: State, step: Step, t: State, p: Pid, polls: nat)
    requires Enabled(s, step) && t == Apply(s, step) && PollsOk(s, p, polls)
    ensures PollsOk(t, p, polls + if Polls(step, p) then 1 else 0)
  {
    if p !in s.procs {
      FirstPolls(s, step, t, p);
    } else if s.procs[p].actor != Wake {
      NoWakePolls(s, step, t, p);
    } else if Local(step) && step.p == p {
      OwnStepPolls(s, step, t, p, polls);
    } else {
      OtherStepPolls(s, step, t, p, polls);
    }
  }

  lemma {:induction false} PollsReachable(run: Run, k: nat, p: Pid)
    requires Valid(run) && k < |run.states|
    ensures PollsOk(run.states[k], p, Probes(run, k, p))
  {
    if k == 0 {
      NoneAtBoot(run.states[0], p);
    } else {
      PollsReachable(run, k - 1, p);
      assert Follows(run, k - 1);
      StepPolls(run.states[k - 1], run.steps[k - 1], run.states[k], p, Probes(run, k - 1, p));
    }
  }

  lemma NoneAtBoot(s: State, p: Pid)
    requires Init(s)
    ensures PollsOk(s, p, 0)
  {
  }

  /** In every interleaving a wake with a timeout of T seconds polls at most floor(T/3) + 2 times. */
  lemma PollsAreBounded(run: Run, k: nat, p: Pid)
    requires Valid(run) && k < |run.states| && p in run.states[k].procs && run.states[k].procs[p].actor == Wake
    ensures Probes(run, k, p) <= run.states[k].procs[p].timeoutSecs / 3 + 2
  {
    PollsReachable(run, k, p);
  }
}
