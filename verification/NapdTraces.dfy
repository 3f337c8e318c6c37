/** Two concrete runs that show why the reaper's idle window can be broken: the reaper reads
    the last wake before it takes the tier's mutex, and the boot goroutine takes no mutex. */
module NapdTraces {
  import opened NapdProtocol
  import opened NapdRuns

  const CACHE: Conf := Conf({"db"}, true, 10)
  const NOW: Time := 100 * SECOND

  function Newborn(actor: Actor, pc: Pc): Proc {
    Proc(actor, pc, "cache", CACHE, 0, 0, 120, false, 0, 0, {})
  }

  const REAPER: Proc := Newborn(Reaper, Due).(lastWake := SECOND)
  const SEEDER: Proc := Newborn(Seeder, Begin)

  /** The tier's mutex, which is number 7 once there is one. */
  datatype Mutex = None | Free | HeldBy(p: Pid)

  ghost predicate MutexIs(s: State, mutex: Mutex) {
    if mutex.None? then s.perTier == map[] && s.holder == map[]
    else
      && "cache" in s.perTier && s.perTier["cache"] == 7
      && (if mutex.Free? then 7 !in s.holder else 7 in s.holder && s.holder[7] == mutex.p)
  }

  ghost predicate Is(s: State, p: Pid, proc: Proc) {
    p in s.procs && s.procs[p] == proc
  }

  /** The tier was last woken at `lastWake`, and its service runs. */
  ghost predicate Scene(s: State, lastWake: Time, mutex: Mutex) {
    && s.now == NOW && s.running == {"db"}
    && "cache" in s.conf && s.conf["cache"] == CACHE
    && "cache" in s.lastWake && s.lastWake["cache"] == lastWake
    && MutexIs(s, mutex)
  }

  /** Part of a run, from `s` to `t`. */
  ghost predicate Part(run: Run, s: State, t: State) {
    && |run.states| == |run.steps| + 1 && run.states[0] == s && run.states[|run.steps|] == t
    && forall k :: 0 <= k < |run.steps| ==> Follows(run, k)
  }

  function Then(a: Run, b: Run): Run
    requires b.states != []
  {
    Run(a.states + b.states[1..], a.steps + b.steps)
  }

  lemma ThenIsPart(a: Run, b: Run, s: State, m: State, t: State)
    requires Part(a, s, m) && Part(b, m, t)
    ensures Part(Then(a, b), s, t)
  {
    var run := Then(a, b);
    forall k | 0 <= k < |run.steps| ensures Follows(run, k) {
      if k < |a.steps| {
        assert Follows(a, k);
      } else {
        assert Follows(b, k - |a.steps|);
      }
    }
  }

  lemma OneStep(s: State, step: Step, t: State) returns (run: Run)
    requires Enabled(s, step) && t == Apply(s, step)
    ensures Part(run, s, t) && run.steps == [step] && run.states == [s, t]
  {
    run := Run([s, t], [step]);
  }

  /** One local step of actor `p`, which is `me` afterwards; another actor `q` stays as it is. */
  lemma Moves(s: State, step: Step, me: Proc, lastWake: Time, mutex: Mutex, q: Pid) returns (run: Run, t: State)
    requires Scene(s, lastWake, mutex) && Enabled(s, step) && Local(step) && !step.MarkWake? && Moved(s, step) == me
    requires q != step.p && q in s.procs
    ensures Part(run, s, t) && run.steps == [step] && run.states == [s, t]
    ensures Scene(t, lastWake, mutex) && Is(t, step.p, me) && Is(t, q, s.procs[q]) && (2 in s.procs <==> 2 in t.procs)
  {
    t := Apply(s, step);
    run := OneStep(s, step, t);
  }

  /** An actor gets the tier's mutex from `tierLock`. */
  lemma GetsMutex(s: State, p: Pid, me: Proc, lastWake: Time, mutex: Mutex, q: Pid) returns (run: Run, t: State)
    requires Scene(s, lastWake, mutex) && !mutex.HeldBy? && Enabled(s, TierLock(p, 7)) && s.procs[p].tier == "cache"
    requires q != p && q in s.procs
    requires me == s.procs[p].(lock := 7, pc := if s.procs[p].actor == Reaper then Trying else Blocked)
    ensures Part(run, s, t) && run.steps == [TierLock(p, 7)]
    ensures Scene(t, lastWake, Free) && Is(t, p, me) && Is(t, q, s.procs[q])
  {
    t := Apply(s, TierLock(p, 7));
    run := OneStep(s, TierLock(p, 7), t);
  }

  /** An actor locks the free mutex. */
  lemma Locks(s: State, step: Step, lastWake: Time, q: Pid) returns (run: Run, t: State)
    requires step.Acquire? || step.TryLock?
    requires Scene(s, lastWake, Free) && Enabled(s, step) && s.procs[step.p].lock == 7 && q != step.p && q in s.procs
    ensures Part(run, s, t) && run.steps == [step]
    ensures Scene(t, lastWake, HeldBy(step.p)) && Is(t, step.p, s.procs[step.p].(pc := Locked)) && Is(t, q, s.procs[q])
  {
    t := Apply(s, step);
    run := OneStep(s, step, t);
  }

  lemma Marks(s: State, p: Pid, q: Pid) returns (run: Run, t: State)
    requires Scene(s, SECOND, HeldBy(p)) && Is(s, p, Waker(Upped)) && q != p && q in s.procs
    ensures Part(run, s, t) && run.steps == [MarkWake(p)]
    ensures Scene(t, NOW, HeldBy(p)) && Is(t, p, Waker(Marked)) && Is(t, q, s.procs[q])
  {
    t := Apply(s, MarkWake(p));
    run := OneStep(s, MarkWake(p), t);
  }

  lemma Unlocks(s: State, p: Pid, q: Pid) returns (run: Run, t: State)
    requires Scene(s, NOW, HeldBy(p)) && p in s.procs && s.procs[p].pc == Deferred(true) && s.procs[p].lock == 7
    requires q != p && q in s.procs
    ensures Part(run, s, t) && run.steps == [Release(p)] && run.states == [s, t]
    ensures Scene(t, NOW, Free) && p in t.procs && Is(t, q, s.procs[q])
  {
    t := Apply(s, Release(p));
    run := OneStep(s, Release(p), t);
  }

  lemma Arrives(s: State, p: Pid, q: Pid) returns (run: Run, t: State)
    requires Scene(s, SECOND, None) && p !in s.procs && q in s.procs
    ensures Part(run, s, t) && run.steps == [Arrive(p, Newborn(Wake, Begin))]
    ensures Scene(t, SECOND, None) && Is(t, p, Newborn(Wake, Begin)) && Is(t, q, s.procs[q])
  {
    t := Apply(s, Arrive(p, Newborn(Wake, Begin)));
    run := OneStep(s, Arrive(p, Newborn(Wake, Begin)), t);
  }

  lemma Seeds(s: State, p: Pid, q: Pid) returns (run: Run, t: State)
    requires Scene(s, SECOND, HeldBy(0)) && Is(s, p, SEEDER.(pc := Seeding, seen := {"db"})) && q in s.procs
    ensures Part(run, s, t) && run.steps == [Seed(p, "cache")]
    ensures Scene(t, NOW, HeldBy(0)) && Is(t, q, s.procs[q]) && p in t.procs
  {
    assert "db" in CACHE.services * {"db"};
    t := Apply(s, Seed(p, "cache"));
    run := OneStep(s, Seed(p, "cache"), t);
  }

  function Waker(pc: Pc): Proc {
    Newborn(Wake, pc).(lock := 7)
  }

  /** The reaper picks the tier, reads its last wake and finds it due. */
  lemma Visits(s: State) returns (run: Run, t: State)
    requires Scene(s, SECOND, None) && Is(s, 0, Newborn(Reaper, Idle)) && 1 in s.procs
    ensures Part(run, s, t) && run.steps == [Visit(0, "cache")]
    ensures Scene(t, SECOND, None) && Is(t, 0, Newborn(Reaper, Visiting)) && Is(t, 1, s.procs[1])
            && (2 in s.procs <==> 2 in t.procs)
  {
    run, t := Moves(s, Visit(0, "cache"), Newborn(Reaper, Visiting), SECOND, None, 1);
  }

  lemma Reads(s: State) returns (run: Run, t: State)
    requires Scene(s, SECOND, None) && Is(s, 0, Newborn(Reaper, Visiting)) && 1 in s.procs
    ensures Part(run, s, t) && run.steps == [ReadLastWake(0)]
    ensures Scene(t, SECOND, None) && Is(t, 0, REAPER.(pc := LastRead)) && Is(t, 1, s.procs[1])
            && (2 in s.procs <==> 2 in t.procs)
  {
    run, t := Moves(s, ReadLastWake(0), REAPER.(pc := LastRead), SECOND, None, 1);
  }

  lemma FindsDue(s: State) returns (run: Run, t: State)
    requires Scene(s, SECOND, None) && Is(s, 0, REAPER.(pc := LastRead)) && 1 in s.procs
    ensures Part(run, s, t) && run.steps == [CheckIdle(0)]
    ensures Scene(t, SECOND, None) && Is(t, 0, REAPER) && Is(t, 1, s.procs[1]) && (2 in s.procs <==> 2 in t.procs)
  {
    WindowIsExact(10);
    run, t := Moves(s, CheckIdle(0), REAPER, SECOND, None, 1);
  }

  lemma Boot() returns (s: State)
    ensures Init(s) && Scene(s, SECOND, None) && Is(s, 0, Newborn(Reaper, Idle)) && Is(s, 1, SEEDER) && 2 !in s.procs
  {
    s := State(NOW, map["cache" := CACHE], {"db"}, map["cache" := SECOND], map[], map[],
               map[0 := Newborn(Reaper, Idle), 1 := SEEDER]);
  }

  /** The reaper finds the tier due, and holds no mutex yet. */
  lemma ReaperFindsDue() returns (run: Run, s0: State, s: State)
    ensures Part(run, s0, s) && Init(s0)
    ensures run.steps == [Visit(0, "cache"), ReadLastWake(0), CheckIdle(0)]
    ensures Scene(s, SECOND, None) && Is(s, 0, REAPER) && Is(s, 1, SEEDER) && 2 !in s.procs
  {
    s0 := Boot();
    var more, t;
    run, s := Visits(s0);
    more, t := Reads(s);
    ThenIsPart(run, more, s0, s, t);
    run, s := Then(run, more), t;
    more, t := FindsDue(s);
    ThenIsPart(run, more, s0, s, t);
    run, s := Then(run, more), t;
  }

  lemma Sees(s: State, lastWake: Time, q: Pid) returns (run: Run, t: State)
    requires Scene(s, lastWake, HeldBy(0)) && Is(s, 0, REAPER.(pc := Locked, lock := 7)) && q != 0 && q in s.procs
    ensures Part(run, s, t) && run.steps == [Probe(0, {"db"})]
    ensures Scene(t, lastWake, HeldBy(0)) && Is(t, 0, REAPER.(pc := SeenAwake, lock := 7)) && Is(t, q, s.procs[q])
  {
    assert "db" in CACHE.services * {"db"};
    run, t := Moves(s, Probe(0, {"db"}), REAPER.(pc := SeenAwake, lock := 7), lastWake, HeldBy(0), q);
  }

  lemma ReaperAsks(s: State, lastWake: Time, mutex: Mutex, q: Pid) returns (run: Run, t: State)
    requires Scene(s, lastWake, mutex) && Is(s, 0, REAPER) && !mutex.HeldBy? && q != 0 && q in s.procs
    ensures Part(run, s, t) && run.steps == [TierLock(0, 7)]
    ensures Scene(t, lastWake, Free) && Is(t, 0, REAPER.(pc := Trying, lock := 7)) && Is(t, q, s.procs[q])
  {
    run, t := GetsMutex(s, 0, REAPER.(pc := Trying, lock := 7), lastWake, mutex, q);
  }

  /** The reaper takes the free mutex of the tier and sees the tier awake. */
  lemma ReaperLooks(s: State, lastWake: Time, mutex: Mutex, q: Pid) returns (run: Run, t: State)
    requires Scene(s, lastWake, mutex) && Is(s, 0, REAPER) && !mutex.HeldBy? && q != 0 && q in s.procs
    ensures Part(run, s, t) && run.steps == [TierLock(0, 7), TryLock(0), Probe(0, {"db"})]
    ensures Scene(t, lastWake, HeldBy(0)) && Is(t, 0, REAPER.(pc := SeenAwake, lock := 7)) && Is(t, q, s.procs[q])
  {
    var more, m;
    run, m := ReaperAsks(s, lastWake, mutex, q);
    more, t := Locks(m, TryLock(0), lastWake, q);
    ThenIsPart(run, more, s, m, t);
    run, m := Then(run, more), t;
    more, t := Sees(m, lastWake, q);
    ThenIsPart(run, more, s, m, t);
    run := Then(run, more);
  }

  /** A wake handler takes the mutex while the reaper is about to call `tierLock`. */
  lemma WakeLocks(s: State) returns (run: Run, t: State)
    requires Scene(s, SECOND, None) && Is(s, 0, REAPER) && 2 !in s.procs
    ensures Part(run, s, t) && run.steps == [Arrive(2, Newborn(Wake, Begin)), TierLock(2, 7), Acquire(2)]
    ensures Scene(t, SECOND, HeldBy(2)) && Is(t, 0, REAPER) && Is(t, 2, Waker(Locked))
  {
    var more, m;
    run, m := Arrives(s, 2, 0);
    more, t := GetsMutex(m, 2, Waker(Blocked), SECOND, None, 0);
    ThenIsPart(run, more, s, m, t);
    run, m := Then(run, more), t;
    more, t := Locks(m, Acquire(2), SECOND, 0);
    ThenIsPart(run, more, s, m, t);
    run := Then(run, more);
  }

  /** It starts the tier and marks it. */
  lemma WakeMarks(s: State) returns (run: Run, t: State)
    requires Scene(s, SECOND, HeldBy(2)) && Is(s, 0, REAPER) && Is(s, 2, Waker(Locked))
    ensures Part(run, s, t) && run.steps == [UpBegin(2), UpEnd(2, true), MarkWake(2)]
    ensures Scene(t, NOW, HeldBy(2)) && Is(t, 0, REAPER) && Is(t, 2, Waker(Marked))
  {
    var more, m;
    run, m := Moves(s, UpBegin(2), Waker(UpRunning), SECOND, HeldBy(2), 0);
    more, t := Moves(m, UpEnd(2, true), Waker(Upped), SECOND, HeldBy(2), 0);
    ThenIsPart(run, more, s, m, t);
    run, m := Then(run, more), t;
    more, t := Marks(m, 2, 0);
    ThenIsPart(run, more, s, m, t);
    run := Then(run, more);
  }

  /** It is answered ok and unlocks. */
  lemma WakeFinishes(s: State) returns (run: Run, t: State)
    requires Scene(s, NOW, HeldBy(2)) && Is(s, 0, REAPER) && Is(s, 2, Waker(Marked))
    ensures Part(run, s, t) && run.steps == [Arm(2), Probe(2, {"db"}), Release(2)]
    ensures Scene(t, NOW, Free) && Is(t, 0, REAPER) && 2 in t.procs && At(run.states[2], 2, Wake, Deferred(true))
  {
    var more, m;
    var polling := Waker(Polling).(deadline := NOW + 120 * SECOND);
    run, m := Moves(s, Arm(2), polling, NOW, HeldBy(2), 0);
    assert "db" in CACHE.services * {"db"};
    more, t := Moves(m, Probe(2, {"db"}), polling.(pc := Deferred(true)), NOW, HeldBy(2), 0);
    ThenIsPart(run, more, s, m, t);
    run, m := Then(run, more), t;
    more, t := Unlocks(m, 2, 0);
    ThenIsPart(run, more, s, m, t);
    run := Then(run, more);
  }

  lemma ReaperStops(s: State, lastWake: Time, q: Pid) returns (run: Run, t: State)
    requires Scene(s, lastWake, HeldBy(0)) && Is(s, 0, REAPER.(pc := SeenAwake, lock := 7)) && q != 0 && q in s.procs
    ensures Part(run, s, t) && run.steps == [DownBegin(0)]
  {
    run, t := Moves(s, DownBegin(0), REAPER.(pc := DownRunning, lock := 7), lastWake, HeldBy(0), q);
  }

  /** The boot goroutine finds the service running and seeds the tier. */
  lemma SeederSeeds(s: State) returns (run: Run, t: State)
    requires Scene(s, SECOND, HeldBy(0)) && Is(s, 1, SEEDER) && 0 in s.procs
    ensures Part(run, s, t) && run.steps == [Snapshot(1, {"db"}), Seed(1, "cache")]
    ensures Scene(t, NOW, HeldBy(0)) && Is(t, 0, s.procs[0]) && 1 in t.procs
  {
    var more, m;
    run, m := Moves(s, Snapshot(1, {"db"}), SEEDER.(pc := Seeding, seen := {"db"}), SECOND, HeldBy(0), 0);
    more, t := Seeds(m, 1, 0);
    ThenIsPart(run, more, s, m, t);
    run := Then(run, more);
  }

  /** A whole wake, from the request to the answer. */
  lemma WholeWake(s: State) returns (run: Run, t: State)
    requires Scene(s, SECOND, None) && Is(s, 0, REAPER) && 2 !in s.procs
    ensures Part(run, s, t)
    ensures run.steps == [Arrive(2, Newborn(Wake, Begin)), TierLock(2, 7), Acquire(2), UpBegin(2), UpEnd(2, true),
                          MarkWake(2), Arm(2), Probe(2, {"db"}), Release(2)]
    ensures At(run.states[8], 2, Wake, Deferred(true))
    ensures Scene(t, NOW, Free) && Is(t, 0, REAPER) && 2 in t.procs
  {
    var more, m;
    run, m := WakeLocks(s);
    more, t := WakeMarks(m);
    ThenIsPart(run, more, s, m, t);
    run, m := Then(run, more), t;
    more, t := WakeFinishes(m);
    ThenIsPart(run, more, s, m, t);
    run := Then(run, more);
  }

  /** A reaper's `down` inside the window rests on its only visit, read, check, TryLock and probe,
      and was raced by the only write. */
  lemma OneVisitRaced(run: Run, k: nat, v: nat, r: nat, c: nat, t: nat, a: nat, w: nat)
    requires Valid(run) && k < |run.steps| && run.steps[k] == DownBegin(0)
    requires 0 in run.states[k].procs && run.states[k].procs[0].actor == Reaper
    requires var me := run.states[k].procs[0];
             run.states[k].now - LastWakeOf(run.states[k], me.tier) < Window(me.conf.idleSecs)
    requires forall i :: 0 <= i < k ==>
               && (run.steps[i].Visit? && run.steps[i].p == 0 ==> i == v)
               && (run.steps[i] == ReadLastWake(0) ==> i == r)
               && (run.steps[i] == CheckIdle(0) ==> i == c)
               && (run.steps[i] == TryLock(0) ==> i == t)
               && (run.steps[i].Probe? && run.steps[i].p == 0 ==> i == a)
               && (run.steps[i].MarkWake? || run.steps[i].Seed? ==> i == w)
    ensures Justified(run, k, 0, v, r, c, t, a)
    ensures RacedAt(run, k, run.states[k].procs[0], r, t, w)
  {
    ReaperStopsOnlyIdleTiers(run, k, 0);
    var v', r', c', t', a' :| Justified(run, k, 0, v', r', c', t', a');
    assert v' == v && r' == r && c' == c && t' == t && a' == a;
    EarlyReapExactly(run, k, 0, v, r, c, t, a);
    var w' :| RacedAt(run, k, run.states[k].procs[0], r, t, w');
    assert w' == w;
  }

  /** The reaper, holding the mutex of a tier just woken, starts `down`. */
  lemma StopsAtOnce(run: Run, s0: State, s: State, q: Pid) returns (longer: Run)
    requires Part(run, s0, s) && Init(s0) && q != 0 && q in s.procs
    requires Scene(s, NOW, HeldBy(0)) && Is(s, 0, REAPER.(pc := SeenAwake, lock := 7))
    ensures Valid(longer) && longer.steps == run.steps + [DownBegin(0)]
    ensures longer.states[..|run.states|] == run.states && longer.states[|run.steps|] == s
    ensures s.now - LastWakeOf(s, "cache") == 0 < Window(REAPER.conf.idleSecs)
  {
    var more, t := ReaperStops(s, NOW, q);
    ThenIsPart(run, more, s0, s, t);
    longer := Then(run, more);
    WindowIsExact(10);
  }

  /** The reaper finds the tier due; a wake runs through; the reaper goes on. */
  lemma WakeInBetween() returns (run: Run, s0: State, s: State)
    ensures Part(run, s0, s) && Init(s0)
    ensures run.steps == [Visit(0, "cache"), ReadLastWake(0), CheckIdle(0)]
                         + [Arrive(2, Newborn(Wake, Begin)), TierLock(2, 7), Acquire(2), UpBegin(2), UpEnd(2, true),
                            MarkWake(2), Arm(2), Probe(2, {"db"}), Release(2)]
                         + [TierLock(0, 7), TryLock(0), Probe(0, {"db"})]
    ensures At(run.states[11], 2, Wake, Deferred(true))
    ensures Scene(s, NOW, HeldBy(0)) && Is(s, 0, REAPER.(pc := SeenAwake, lock := 7)) && 2 in s.procs
  {
    var more, t;
    run, s0, s := ReaperFindsDue();
    more, t := WholeWake(s);
    ThenIsPart(run, more, s0, s, t);
    run, s := Then(run, more), t;
    more, t := ReaperLooks(s, NOW, Free, 2);
    ThenIsPart(run, more, s0, s, t);
    run, s := Then(run, more), t;
  }

  /** A wake of the tier that starts and is answered ok between the reaper's read and its TryLock
      does not save the tier: `down` starts at the very instant of its last wake. */
  lemma WakeRacesReaper() returns (run: Run)
    ensures Valid(run) && |run.steps| == 16 && Is(run.states[15], 0, REAPER.(pc := SeenAwake, lock := 7))
    ensures Justified(run, 15, 0, 0, 1, 2, 13, 14) && RacedAt(run, 15, run.states[15].procs[0], 1, 13, 8)
    ensures run.steps[8] == MarkWake(2) && At(run.states[11], 2, Wake, Deferred(true))
    ensures run.states[15].now - LastWakeOf(run.states[15], "cache") == 0 < Window(REAPER.conf.idleSecs)
  {
    var s0, s;
    run, s0, s := WakeInBetween();
    assert At(run.states[11], 2, Wake, Deferred(true));
    run := StopsAtOnce(run, s0, s, 2);
    OneVisitRaced(run, 15, 0, 1, 2, 13, 14, 8);
  }

  /** The reaper locks the mutex of a tier that is due; then boot seeding writes its last wake. */
  lemma SeedInBetween() returns (run: Run, s0: State, s: State)
    ensures Part(run, s0, s) && Init(s0)
    ensures run.steps == [Visit(0, "cache"), ReadLastWake(0), CheckIdle(0)]
                         + [TierLock(0, 7), TryLock(0), Probe(0, {"db"})] + [Snapshot(1, {"db"}), Seed(1, "cache")]
    ensures Scene(s, NOW, HeldBy(0)) && Is(s, 0, REAPER.(pc := SeenAwake, lock := 7)) && 1 in s.procs
  {
    var more, t;
    run, s0, s := ReaperFindsDue();
    more, t := ReaperLooks(s, SECOND, None, 1);
    ThenIsPart(run, more, s0, s, t);
    run, s := Then(run, more), t;
    more, t := SeederSeeds(s);
    ThenIsPart(run, more, s0, s, t);
    run, s := Then(run, more), t;
  }

  /** Neither does boot seeding: it writes the last wake while the reaper holds the mutex. */
  lemma SeedRacesReaper() returns (run: Run)
    ensures Valid(run) && |run.steps| == 9 && Is(run.states[8], 0, REAPER.(pc := SeenAwake, lock := 7))
    ensures Justified(run, 8, 0, 0, 1, 2, 4, 5) && RacedAt(run, 8, run.states[8].procs[0], 1, 4, 7)
    ensures run.steps[7] == Seed(1, "cache")
    ensures run.states[8].now - LastWakeOf(run.states[8], "cache") == 0 < Window(REAPER.conf.idleSecs)
  {
    var s0, s;
    run, s0, s := SeedInBetween();
    run := StopsAtOnce(run, s0, s, 1);
    OneVisitRaced(run, 8, 0, 1, 2, 4, 5, 7);
  }
}
