/** What one actor of napd does when nothing comes in between: exactly when the reaper stops a tier,
    and what a sleep and a wake request lead to. */
module NapdVisits {
  import opened NapdProtocol

  /** The run makes exactly these steps from state `s`. */
  ghost predicate Path(run: Run, s: State, steps: seq<Step>) {
    && run.steps == steps && |run.states| == |steps| + 1 && run.states[0] == s
    && forall k :: 0 <= k < |run.steps| ==> Follows(run, k)
  }

  ghost predicate Possible(s: State, steps: seq<Step>) {
    exists run :: Path(run, s, steps)
  }

  lemma Stay(s: State) returns (run: Run)
    ensures Path(run, s, []) && run.states == [s]
  {
    run := Run([s], []);
  }

  lemma GoOn(run: Run, s: State, steps: seq<Step>, step: Step, t: State) returns (longer: Run)
    requires Path(run, s, steps) && Enabled(run.states[|steps|], step) && Apply(run.states[|steps|], step) == t
    ensures Path(longer, s, steps + [step]) && longer.states == run.states + [t]
  {
    longer := Run(run.states + [t], run.steps + [step]);
    forall k | 0 <= k < |longer.steps| ensures Follows(longer, k) {
      if k < |steps| {
        assert Follows(run, k);
      }
    }
  }

  /** The mutex that `tierLock` returns is free. */
  predicate Free(s: State, tier: Tier, lock: Lock) {
    lock !in s.holder && MutexOf(s, tier, lock)
  }

  predicate MutexOf(s: State, tier: Tier, lock: Lock) {
    if tier in s.perTier then lock == s.perTier[tier] else lock !in s.perTier.Values
  }

  /** The state in which only the actor has changed. */
  function With(s: State, p: Pid, me: Proc): State {
    s.(procs := s.procs[p := me])
  }

  predicate Moves(s: State, step: Step, t: State) {
    Enabled(s, step) && Apply(s, step) == t
  }

  // ---- The reaper -------------------------------------------------------------------------

  lemma Chooses(s: State, p: Pid, tier: Tier)
    requires At(s, p, Reaper, Idle)
    ensures Enabled(s, Visit(p, tier)) <==> tier in s.conf && s.conf[tier].autosleep && s.conf[tier].idleSecs > 0
    ensures Enabled(s, Visit(p, tier)) ==>
              Apply(s, Visit(p, tier)) == With(s, p, s.procs[p].(pc := Visiting, tier := tier, conf := s.conf[tier]))
  {
  }

  lemma Reads(s: State, p: Pid)
    requires At(s, p, Reaper, Visiting)
    ensures var value := LastWakeOf(s, s.procs[p].tier);
            Moves(s, ReadLastWake(p), With(s, p, if value == 0 then s.procs[p].(pc := Idle)
                                                 else s.procs[p].(pc := LastRead, lastWake := value)))
  {
  }

  lemma Checks(s: State, p: Pid)
    requires At(s, p, Reaper, LastRead)
    ensures Moves(s, CheckIdle(p),
                  With(s, p, s.procs[p].(pc := if s.now - s.procs[p].lastWake < Window(s.procs[p].conf.idleSecs)
                                               then Idle else Due)))
  {
  }

  lemma Asks(s: State, p: Pid, lock: Lock)
    requires p in s.procs && s.procs[p].actor == Reaper
    ensures Enabled(s, TierLock(p, lock)) <==> s.procs[p].pc == Due && MutexOf(s, s.procs[p].tier, lock)
    ensures Enabled(s, TierLock(p, lock)) ==>
              Apply(s, TierLock(p, lock))
              == With(s, p, s.procs[p].(pc := Trying, lock := lock)).(perTier := s.perTier[s.procs[p].tier := lock])
  {
  }

  lemma Tries(s: State, p: Pid)
    requires At(s, p, Reaper, Trying)
    ensures Moves(s, TryLock(p),
                  if s.procs[p].lock in s.holder then With(s, p, s.procs[p].(pc := Idle))
                  else With(s, p, s.procs[p].(pc := Locked)).(holder := s.holder[s.procs[p].lock := p]))
  {
  }

  lemma Looks(s: State, p: Pid, seen: set<string>)
    requires p in s.procs && s.procs[p].actor == Reaper && seen == s.running
    ensures Enabled(s, Probe(p, seen)) <==> s.procs[p].pc == Locked
    ensures Enabled(s, Probe(p, seen)) ==>
              Apply(s, Probe(p, seen))
              == With(s, p, s.procs[p].(pc := if s.procs[p].conf.services * s.running != {} then SeenAwake
                                              else Deferred(false)))
  {
  }

  lemma Stops(s: State, p: Pid)
    requires p in s.procs && s.procs[p].actor == Reaper
    ensures Enabled(s, DownBegin(p)) <==> s.procs[p].pc == SeenAwake
    ensures Enabled(s, DownBegin(p)) ==> Apply(s, DownBegin(p)) == With(s, p, s.procs[p].(pc := DownRunning))
  {
  }

  /** What the k-th step of a run of these steps did. */
  lemma Made(run: Run, s: State, steps: seq<Step>, k: nat, step: Step)
    requires Path(run, s, steps) && k < |steps| && steps[k] == step
    ensures Moves(run.states[k], step, run.states[k + 1])
  {
    assert Follows(run, k);
  }

  lemma WithTwice(s: State, p: Pid, a: Proc, b: Proc)
    ensures With(With(s, p, a), p, b) == With(s, p, b)
  {
  }

  lemma Chose(run: Run, s: State, steps: seq<Step>, p: Pid, tier: Tier)
    requires Path(run, s, steps) && 0 < |steps| && steps[0] == Visit(p, tier) && At(s, p, Reaper, Idle)
    ensures tier in s.conf && s.conf[tier].autosleep && s.conf[tier].idleSecs > 0
    ensures run.states[1] == With(s, p, s.procs[p].(pc := Visiting, tier := tier, conf := s.conf[tier]))
  {
    Made(run, s, steps, 0, Visit(p, tier));
    Chooses(s, p, tier);
  }

  lemma Read(run: Run, s: State, steps: seq<Step>, k: nat, p: Pid, me: Proc)
    requires Path(run, s, steps) && k + 1 < |steps| && steps[k] == ReadLastWake(p) && steps[k + 1] == CheckIdle(p)
    requires run.states[k] == With(s, p, me) && me.actor == Reaper && me.pc == Visiting
    ensures var value := LastWakeOf(s, me.tier);
            value != 0 && run.states[k + 1] == With(s, p, me.(pc := LastRead, lastWake := value))
  {
    Made(run, s, steps, k, ReadLastWake(p));
    Made(run, s, steps, k + 1, CheckIdle(p));
    Reads(run.states[k], p);
    WithTwice(s, p, me, run.states[k + 1].procs[p]);
  }

  lemma Checked(run: Run, s: State, steps: seq<Step>, k: nat, p: Pid, lock: Lock, me: Proc)
    requires Path(run, s, steps) && k + 1 < |steps| && steps[k] == CheckIdle(p) && steps[k + 1] == TierLock(p, lock)
    requires run.states[k] == With(s, p, me) && me.actor == Reaper && me.pc == LastRead
    ensures s.now - me.lastWake >= Window(me.conf.idleSecs) && run.states[k + 1] == With(s, p, me.(pc := Due))
  {
    Made(run, s, steps, k, CheckIdle(p));
    Made(run, s, steps, k + 1, TierLock(p, lock));
    Checks(run.states[k], p);
    Asks(run.states[k + 1], p, lock);
    WithTwice(s, p, me, me.(pc := Due));
  }

  lemma Asked(run: Run, s: State, steps: seq<Step>, k: nat, p: Pid, lock: Lock, me: Proc)
    requires Path(run, s, steps) && k < |steps| && steps[k] == TierLock(p, lock)
    requires run.states[k] == With(s, p, me) && me.actor == Reaper && me.pc == Due
    ensures MutexOf(s, me.tier, lock)
    ensures run.states[k + 1]
            == With(s, p, me.(pc := Trying, lock := lock)).(perTier := s.perTier[me.tier := lock])
  {
    Made(run, s, steps, k, TierLock(p, lock));
    Asks(run.states[k], p, lock);
    WithTwice(s, p, me, me.(pc := Trying, lock := lock));
  }

  /** From there on `s` is the state with the mutex in the map. */
  lemma Tried(run: Run, s: State, steps: seq<Step>, x: State, k: nat, p: Pid, me: Proc, running: set<string>)
    requires Path(run, s, steps) && k + 1 < |steps| && steps[k] == TryLock(p) && steps[k + 1] == Probe(p, running)
    requires run.states[k] == With(x, p, me) && me.actor == Reaper && me.pc == Trying && running == x.running
    ensures me.lock !in x.holder
    ensures run.states[k + 1] == With(x, p, me.(pc := Locked)).(holder := x.holder[me.lock := p])
  {
    Made(run, s, steps, k, TryLock(p));
    Made(run, s, steps, k + 1, Probe(p, running));
    Tries(run.states[k], p);
    WithTwice(x, p, me, me.(pc := Idle));
    WithTwice(x, p, me, me.(pc := Locked));
    Looks(run.states[k + 1], p, running);
  }

  lemma LookedAndStopped(run: Run, s: State, steps: seq<Step>, x: State, k: nat, p: Pid, me: Proc, running: set<string>)
    requires Path(run, s, steps) && k + 1 < |steps| && steps[k] == Probe(p, running) && steps[k + 1] == DownBegin(p)
    requires run.states[k] == With(x, p, me) && me.actor == Reaper && me.pc == Locked && running == x.running
    ensures me.conf.services * x.running != {}
    ensures run.states[k + 2] == With(x, p, me.(pc := DownRunning))
  {
    Made(run, s, steps, k, Probe(p, running));
    Made(run, s, steps, k + 1, DownBegin(p));
    Looks(run.states[k], p, running);
    WithTwice(x, p, me, run.states[k + 1].procs[p]);
    Stops(run.states[k + 1], p);
    WithTwice(x, p, me.(pc := SeenAwake), me.(pc := DownRunning));
  }

  lemma Finishes(s: State, p: Pid, ok: bool)
    requires p in s.procs && s.procs[p].pc == DownRunning && (s.procs[p].actor == Reaper || s.procs[p].actor == Sleep)
    ensures Moves(s, DownEnd(p, ok), With(s, p, s.procs[p].(pc := Deferred(ok))))
  {
  }

  lemma Unlocks(s: State, p: Pid)
    requires p in s.procs && s.procs[p].pc.Deferred?
    ensures Moves(s, Release(p), With(s, p, s.procs[p].(pc := if s.procs[p].actor == Reaper then Idle else Done))
                                   .(holder := s.holder - {s.procs[p].lock}))
  {
  }

  /** The steps of a visit that stops the tier, whether the script then succeeds or not. */
  function StoppingVisit(p: Pid, tier: Tier, lock: Lock, running: set<string>, ok: bool): seq<Step> {
    [Visit(p, tier), ReadLastWake(p), CheckIdle(p), TierLock(p, lock), TryLock(p), Probe(p, running), DownBegin(p),
     DownEnd(p, ok), Release(p)]
  }

  /** The tier may be stopped: its file opts in, its last wake is set and lies a window back, and one
      of its services runs. */
  predicate Stoppable(s: State, tier: Tier) {
    && tier in s.conf && s.conf[tier].autosleep && s.conf[tier].idleSecs > 0
    && tier in s.lastWake && s.lastWake[tier] != 0 && s.now - s.lastWake[tier] >= Window(s.conf[tier].idleSecs)
    && s.conf[tier].services * s.running != {}
  }

  /** The reaper on its visit to the tier. */
  function Visitor(s: State, p: Pid, tier: Tier, pc: Pc): Proc
    requires p in s.procs && tier in s.conf
  {
    s.procs[p].(pc := pc, tier := tier, conf := s.conf[tier], lastWake := LastWakeOf(s, tier))
  }

  lemma FirstHalf(run: Run, s: State, steps: seq<Step>, p: Pid, tier: Tier, lock: Lock, ok: bool)
    requires At(s, p, Reaper, Idle) && Path(run, s, steps) && steps == StoppingVisit(p, tier, lock, s.running, ok)
    ensures tier in s.conf && s.conf[tier].autosleep && s.conf[tier].idleSecs > 0
    ensures LastWakeOf(s, tier) != 0 && s.now - LastWakeOf(s, tier) >= Window(s.conf[tier].idleSecs)
    ensures run.states[3] == With(s, p, Visitor(s, p, tier, Due))
  {
    Chose(run, s, steps, p, tier);
    var me := s.procs[p].(pc := Visiting, tier := tier, conf := s.conf[tier]);
    Read(run, s, steps, 1, p, me);
    Checked(run, s, steps, 2, p, lock, me.(pc := LastRead, lastWake := LastWakeOf(s, tier)));
  }

  lemma SecondHalf(run: Run, s: State, steps: seq<Step>, p: Pid, tier: Tier, lock: Lock, me: Proc, ok: bool)
    requires Path(run, s, steps) && steps == StoppingVisit(p, tier, lock, s.running, ok)
    requires run.states[3] == With(s, p, me) && me.actor == Reaper && me.pc == Due && me.tier == tier
    ensures Free(s, tier, lock) && me.conf.services * s.running != {}
  {
    var x, you := s.(perTier := s.perTier[tier := lock]), me.(pc := Trying, lock := lock);
    Asked(run, s, steps, 3, p, lock, me);
    TriedAndLooked(run, s, steps, x, p, you, s.running);
  }

  lemma TriedAndLooked(run: Run, s: State, steps: seq<Step>, x: State, p: Pid, me: Proc, running: set<string>)
    requires Path(run, s, steps) && 7 <= |steps| && steps[4] == TryLock(p) && steps[5] == Probe(p, running)
    requires steps[6] == DownBegin(p) && running == x.running
    requires run.states[4] == With(x, p, me) && me.actor == Reaper && me.pc == Trying
    ensures me.lock !in x.holder && me.conf.services * running != {}
  {
    Tried(run, s, steps, x, 4, p, me, running);
    LookedAndStopped(run, s, steps, x.(holder := x.holder[me.lock := p]), 5, p, me.(pc := Locked), running);
  }

  lemma ReachesDue(s: State, p: Pid, tier: Tier) returns (run: Run)
    requires At(s, p, Reaper, Idle) && Stoppable(s, tier)
    ensures Path(run, s, [Visit(p, tier), ReadLastWake(p), CheckIdle(p)])
    ensures run.states[3] == With(s, p, Visitor(s, p, tier, Due))
  {
    var start := Stay(s);
    var me := s.procs[p].(pc := Visiting, tier := tier, conf := s.conf[tier]);
    Chooses(s, p, tier);
    run := GoOn(start, s, [], Visit(p, tier), With(s, p, me));
    Reads(With(s, p, me), p);
    WithTwice(s, p, me, Visitor(s, p, tier, LastRead));
    run := GoOn(run, s, [Visit(p, tier)], ReadLastWake(p), With(s, p, Visitor(s, p, tier, LastRead)));
    Checks(With(s, p, Visitor(s, p, tier, LastRead)), p);
    WithTwice(s, p, Visitor(s, p, tier, LastRead), Visitor(s, p, tier, Due));
    run := GoOn(run, s, [Visit(p, tier), ReadLastWake(p)], CheckIdle(p), With(s, p, Visitor(s, p, tier, Due)));
  }

  /** The actor holds the mutex of its tier. */
  function Holding(s: State, p: Pid, me: Proc): State {
    s.(procs := s.procs[p := me], perTier := s.perTier[me.tier := me.lock], holder := s.holder[me.lock := p])
  }

  lemma HoldingTwice(s: State, p: Pid, a: Proc, b: Proc)
    requires a.tier == b.tier && a.lock == b.lock
    ensures With(Holding(s, p, a), p, b) == Holding(s, p, b)
  {
  }

  lemma GetsLocked(run: Run, s: State, steps: seq<Step>, p: Pid, me: Proc, lock: Lock) returns (longer: Run)
    requires Path(run, s, steps) && run.states[|steps|] == With(s, p, me) && me.actor == Reaper && me.pc == Due
    requires Free(s, me.tier, lock)
    ensures Path(longer, s, steps + [TierLock(p, lock)] + [TryLock(p)])
    ensures longer.states[|steps| + 2] == Holding(s, p, me.(pc := Locked, lock := lock))
  {
    var x, you := s.(perTier := s.perTier[me.tier := lock]), me.(pc := Trying, lock := lock);
    Asks(With(s, p, me), p, lock);
    WithTwice(s, p, me, you);
    longer := GoOn(run, s, steps, TierLock(p, lock), With(x, p, you));
    Tries(With(x, p, you), p);
    WithTwice(x, p, you, you.(pc := Locked));
    longer := GoOn(longer, s, steps + [TierLock(p, lock)], TryLock(p), Holding(s, p, you.(pc := Locked)));
  }

  lemma GetsStopped(run: Run, s: State, steps: seq<Step>, p: Pid, me: Proc) returns (longer: Run)
    requires Path(run, s, steps) && run.states[|steps|] == Holding(s, p, me) && me.actor == Reaper && me.pc == Locked
    requires me.conf.services * s.running != {}
    ensures Path(longer, s, steps + [Probe(p, s.running)] + [DownBegin(p)])
    ensures longer.states[|steps| + 2] == Holding(s, p, me.(pc := DownRunning))
  {
    Looks(Holding(s, p, me), p, s.running);
    HoldingTwice(s, p, me, me.(pc := SeenAwake));
    longer := GoOn(run, s, steps, Probe(p, s.running), Holding(s, p, me.(pc := SeenAwake)));
    Stops(Holding(s, p, me.(pc := SeenAwake)), p);
    HoldingTwice(s, p, me.(pc := SeenAwake), me.(pc := DownRunning));
    longer := GoOn(longer, s, steps + [Probe(p, s.running)], DownBegin(p), Holding(s, p, me.(pc := DownRunning)));
  }

  lemma GetsReleased(run: Run, s: State, steps: seq<Step>, x: State, p: Pid, me: Proc) returns (longer: Run)
    requires Path(run, s, steps) && run.states[|steps|] == Holding(x, p, me) && me.pc.Deferred?
    requires me.lock !in x.holder
    ensures Path(longer, s, steps + [Release(p)]) && longer.states[|steps|] == Holding(x, p, me)
    ensures longer.states[|steps| + 1] == Released(x, p, me)
  {
    Unlocks(Holding(x, p, me), p);
    HoldingTwice(x, p, me, me.(pc := if me.actor == Reaper then Idle else Done));
    assert x.holder[me.lock := p] - {me.lock} == x.holder;
    longer := GoOn(run, s, steps, Release(p), Released(x, p, me));
  }

  /** The actor has unlocked the mutex, which is as free as before. */
  function Released(s: State, p: Pid, me: Proc): State {
    With(s, p, me.(pc := if me.actor == Reaper then Idle else Done)).(perTier := s.perTier[me.tier := me.lock])
  }

  /** The script ends, and the mutex is free as before. */
  lemma GetsDone(run: Run, s: State, steps: seq<Step>, p: Pid, me: Proc, ok: bool) returns (longer: Run)
    requires Path(run, s, steps) && run.states[|steps|] == Holding(s, p, me) && me.pc == DownRunning
    requires (me.actor == Reaper || me.actor == Sleep) && me.lock !in s.holder
    ensures Path(longer, s, steps + [DownEnd(p, ok)] + [Release(p)])
    ensures longer.states[|steps| + 1] == Holding(s, p, me.(pc := Deferred(ok)))
    ensures longer.states[|steps| + 2] == Released(s, p, me.(pc := Deferred(ok)))
  {
    var over := me.(pc := Deferred(ok));
    Finishes(Holding(s, p, me), p, ok);
    HoldingTwice(s, p, me, over);
    longer := GoOn(run, s, steps, DownEnd(p, ok), Holding(s, p, over));
    longer := GetsReleased(longer, s, steps + [DownEnd(p, ok)], s, p, over);
  }

  lemma StopsIt(s: State, p: Pid, tier: Tier, lock: Lock, ok: bool) returns (run: Run)
    requires At(s, p, Reaper, Idle) && Stoppable(s, tier) && Free(s, tier, lock)
    ensures Path(run, s, StoppingVisit(p, tier, lock, s.running, ok))
    ensures run.states[9] == With(s, p, Visitor(s, p, tier, Idle).(lock := lock)).(perTier := s.perTier[tier := lock])
  {
    run := ReachesDue(s, p, tier);
    var steps, me := [Visit(p, tier), ReadLastWake(p), CheckIdle(p)], Visitor(s, p, tier, Due);
    run := GetsLocked(run, s, steps, p, me, lock);
    steps, me := steps + [TierLock(p, lock)] + [TryLock(p)], me.(pc := Locked, lock := lock);
    run := GetsStopped(run, s, steps, p, me);
    steps, me := steps + [Probe(p, s.running)] + [DownBegin(p)], me.(pc := DownRunning);
    run := GetsDone(run, s, steps, p, me, ok);
    assert steps + [DownEnd(p, ok)] + [Release(p)] == StoppingVisit(p, tier, lock, s.running, ok);
  }

  /** Undisturbed, an idle reaper stops a tier on its visit if and only if the file opts in with a
      positive window, the last wake is set and lies a window back, a service of the tier runs, and the
      tier's mutex is free. */
  lemma ReaperStopsExactly(s: State, p: Pid, tier: Tier, lock: Lock, ok: bool)
    requires At(s, p, Reaper, Idle)
    ensures Possible(s, StoppingVisit(p, tier, lock, s.running, ok)) <==> Stoppable(s, tier) && Free(s, tier, lock)
  {
    var steps := StoppingVisit(p, tier, lock, s.running, ok);
    if run :| Path(run, s, steps) {
      FirstHalf(run, s, steps, p, tier, lock, ok);
      SecondHalf(run, s, steps, p, tier, lock, Visitor(s, p, tier, Due), ok);
    }
    if Stoppable(s, tier) && Free(s, tier, lock) {
      var run := StopsIt(s, p, tier, lock, ok);
    }
  }

  // ---- Sleep and wake requests ------------------------------------------------------------

  lemma Admits(s: State, p: Pid, request: Proc)
    requires p !in s.procs && LetThrough(s, request)
    ensures Moves(s, Arrive(p, request), With(s, p, request))
  {
  }

  /** A request reaches the tier's mutex exactly if the tier is configured and, to sleep, opted in or
      forced, or, to wake, has a timeout of 10 to 600 seconds. */
  lemma AdmittedExactly(s: State, p: Pid, request: Proc)
    ensures Enabled(s, Arrive(p, request)) <==> p !in s.procs && LetThrough(s, request)
  {
  }

  lemma AsksFirst(s: State, p: Pid, lock: Lock)
    requires p in s.procs && s.procs[p].pc == Begin && (s.procs[p].actor == Sleep || s.procs[p].actor == Wake)
    requires MutexOf(s, s.procs[p].tier, lock)
    ensures Moves(s, TierLock(p, lock),
                  With(s, p, s.procs[p].(pc := Blocked, lock := lock)).(perTier := s.perTier[s.procs[p].tier := lock]))
  {
  }

  lemma Acquires(s: State, p: Pid)
    requires p in s.procs && s.procs[p].pc == Blocked && (s.procs[p].actor == Sleep || s.procs[p].actor == Wake)
    requires s.procs[p].lock !in s.holder
    ensures Moves(s, Acquire(p), With(s, p, s.procs[p].(pc := Locked)).(holder := s.holder[s.procs[p].lock := p]))
  {
  }

  /** The request is one that the handlers let through to the tier's mutex. */
  predicate LetThrough(s: State, request: Proc) {
    && request.pc == Begin && request.tier in s.conf && request.conf == s.conf[request.tier]
    && if request.actor == Sleep then request.conf.autosleep || request.force
       else request.actor == Wake && 10 <= request.timeoutSecs <= 600
  }

  lemma GetsBlocked(s: State, p: Pid, request: Proc, lock: Lock) returns (run: Run)
    requires p !in s.procs && LetThrough(s, request) && MutexOf(s, request.tier, lock)
    ensures Path(run, s, [Arrive(p, request)] + [TierLock(p, lock)])
    ensures run.states[2]
            == With(s, p, request.(pc := Blocked, lock := lock)).(perTier := s.perTier[request.tier := lock])
  {
    var start := Stay(s);
    Admits(s, p, request);
    run := GoOn(start, s, [], Arrive(p, request), With(s, p, request));
    assert [] + [Arrive(p, request)] == [Arrive(p, request)];
    AsksFirst(With(s, p, request), p, lock);
    WithTwice(s, p, request, request.(pc := Blocked, lock := lock));
    run := GoOn(run, s, [Arrive(p, request)], TierLock(p, lock),
                With(s, p, request.(pc := Blocked, lock := lock)).(perTier := s.perTier[request.tier := lock]));
  }

  /** It gets the mutex when that is free. */
  lemma GetsIn(s: State, p: Pid, request: Proc, lock: Lock) returns (run: Run)
    requires p !in s.procs && LetThrough(s, request) && Free(s, request.tier, lock)
    ensures Path(run, s, [Arrive(p, request), TierLock(p, lock), Acquire(p)])
    ensures run.states[3] == Holding(s, p, request.(pc := Locked, lock := lock))
  {
    var x, you := s.(perTier := s.perTier[request.tier := lock]), request.(pc := Blocked, lock := lock);
    run := GetsBlocked(s, p, request, lock);
    Acquires(With(x, p, you), p);
    WithTwice(x, p, you, you.(pc := Locked));
    run := GoOn(run, s, [Arrive(p, request)] + [TierLock(p, lock)], Acquire(p), Holding(s, p, you.(pc := Locked)));
    assert [Arrive(p, request)] + [TierLock(p, lock)] + [Acquire(p)]
        == [Arrive(p, request), TierLock(p, lock), Acquire(p)];
  }

  lemma SleepStops(s: State, p: Pid)
    requires At(s, p, Sleep, Locked)
    ensures Moves(s, DownBegin(p), With(s, p, s.procs[p].(pc := DownRunning)))
  {
  }

  /** Undisturbed, a sleep request for a tier that opted in, or that is forced, runs the tier's `down`
      under its mutex and is answered as that ends. */
  lemma SleepRuns(s: State, p: Pid, request: Proc, lock: Lock, ok: bool) returns (run: Run)
    requires p !in s.procs && request.actor == Sleep && LetThrough(s, request)
    requires Free(s, request.tier, lock)
    ensures Path(run, s, [Arrive(p, request), TierLock(p, lock), Acquire(p), DownBegin(p), DownEnd(p, ok), Release(p)])
    ensures At(run.states[5], p, Sleep, Deferred(ok))
    ensures run.states[6] == Released(s, p, request.(pc := Deferred(ok), lock := lock))
  {
    var start := [Arrive(p, request), TierLock(p, lock), Acquire(p)];
    var me := request.(pc := Locked, lock := lock);
    run := GetsIn(s, p, request, lock);
    SleepStops(Holding(s, p, me), p);
    HoldingTwice(s, p, me, me.(pc := DownRunning));
    run := GoOn(run, s, start, DownBegin(p), Holding(s, p, me.(pc := DownRunning)));
    run := GetsDone(run, s, start + [DownBegin(p)], p, me.(pc := DownRunning), ok);
    assert start + [DownBegin(p)] + [DownEnd(p, ok)] + [Release(p)]
        == [Arrive(p, request), TierLock(p, lock), Acquire(p), DownBegin(p), DownEnd(p, ok), Release(p)];
  }

  lemma WakeGoesUp(s: State, p: Pid)
    requires p in s.procs && s.procs[p].actor == Wake
    ensures s.procs[p].pc == Locked ==> Moves(s, UpBegin(p), With(s, p, s.procs[p].(pc := UpRunning)))
    ensures s.procs[p].pc == UpRunning ==> Moves(s, UpEnd(p, true), With(s, p, s.procs[p].(pc := Upped)))
  {
  }

  lemma WakeMarks(s: State, p: Pid)
    requires p in s.procs && s.procs[p].actor == Wake
    ensures s.procs[p].pc == Upped ==>
              Moves(s, MarkWake(p), With(s, p, s.procs[p].(pc := Marked))
                                      .(lastWake := s.lastWake[s.procs[p].tier := s.now]))
    ensures s.procs[p].pc == Marked ==>
              Moves(s, Arm(p), With(s, p, s.procs[p].(pc := Polling,
                                                      deadline := s.now + s.procs[p].timeoutSecs * 1_000_000_000)))
  {
  }

  lemma WakeSees(s: State, p: Pid)
    requires At(s, p, Wake, Polling) && s.procs[p].conf.services * s.running != {}
    ensures Moves(s, Probe(p, s.running), With(s, p, s.procs[p].(pc := Deferred(true))))
  {
  }

  /** The first four steps of a wake that holds the mutex. */
  lemma GetsUp(run: Run, s: State, steps: seq<Step>, p: Pid, me: Proc) returns (longer: Run)
    requires Path(run, s, steps) && run.states[|steps|] == Holding(s, p, me) && me.actor == Wake && me.pc == Locked
    ensures Path(longer, s, steps + [UpBegin(p)] + [UpEnd(p, true)])
    ensures longer.states[|steps| + 2] == Holding(s, p, me.(pc := Upped))
  {
    WakeGoesUp(Holding(s, p, me), p);
    HoldingTwice(s, p, me, me.(pc := UpRunning));
    longer := GoOn(run, s, steps, UpBegin(p), Holding(s, p, me.(pc := UpRunning)));
    WakeGoesUp(Holding(s, p, me.(pc := UpRunning)), p);
    HoldingTwice(s, p, me.(pc := UpRunning), me.(pc := Upped));
    longer := GoOn(longer, s, steps + [UpBegin(p)], UpEnd(p, true), Holding(s, p, me.(pc := Upped)));
  }

  lemma GetsMarked(run: Run, s: State, steps: seq<Step>, p: Pid, me: Proc) returns (longer: Run)
    requires Path(run, s, steps) && run.states[|steps|] == Holding(s, p, me) && me.actor == Wake && me.pc == Upped
    ensures Path(longer, s, steps + [MarkWake(p)] + [Arm(p)])
    ensures longer.states[|steps| + 2]
            == Holding(s.(lastWake := s.lastWake[me.tier := s.now]), p,
                       me.(pc := Polling, deadline := s.now + me.timeoutSecs * 1_000_000_000))
  {
    var x, armed := s.(lastWake := s.lastWake[me.tier := s.now]),
                    me.(pc := Polling, deadline := s.now + me.timeoutSecs * 1_000_000_000);
    WakeMarks(Holding(s, p, me), p);
    HoldingTwice(s, p, me, me.(pc := Marked));
    longer := GoOn(run, s, steps, MarkWake(p), Holding(x, p, me.(pc := Marked)));
    WakeMarks(Holding(x, p, me.(pc := Marked)), p);
    HoldingTwice(x, p, me.(pc := Marked), armed);
    longer := GoOn(longer, s, steps + [MarkWake(p)], Arm(p), Holding(x, p, armed));
  }

  lemma GetsAnswered(run: Run, s: State, steps: seq<Step>, x: State, p: Pid, me: Proc) returns (longer: Run)
    requires Path(run, s, steps) && run.states[|steps|] == Holding(x, p, me) && me.actor == Wake && me.pc == Polling
    requires me.conf.services * x.running != {} && me.lock !in x.holder
    ensures Path(longer, s, steps + [Probe(p, x.running)] + [Release(p)])
    ensures At(longer.states[|steps| + 1], p, Wake, Deferred(true))
    ensures longer.states[|steps| + 2] == Released(x, p, me.(pc := Deferred(true)))
  {
    var over := me.(pc := Deferred(true));
    WakeSees(Holding(x, p, me), p);
    HoldingTwice(x, p, me, over);
    longer := GoOn(run, s, steps, Probe(p, x.running), Holding(x, p, over));
    longer := GetsReleased(longer, s, steps + [Probe(p, x.running)], x, p, over);
  }

  function Armed(s: State, request: Proc, lock: Lock): Proc {
    request.(pc := Polling, lock := lock, deadline := s.now + request.timeoutSecs * 1_000_000_000)
  }

  lemma GetsArmed(s: State, p: Pid, request: Proc, lock: Lock) returns (run: Run)
    requires p !in s.procs && request.actor == Wake && LetThrough(s, request) && Free(s, request.tier, lock)
    ensures Path(run, s, [Arrive(p, request), TierLock(p, lock), Acquire(p)] + [UpBegin(p)] + [UpEnd(p, true)]
                         + [MarkWake(p)] + [Arm(p)])
    ensures run.states[7]
            == Holding(s.(lastWake := s.lastWake[request.tier := s.now]), p, Armed(s, request, lock))
  {
    var steps := [Arrive(p, request), TierLock(p, lock), Acquire(p)];
    var me := request.(pc := Locked, lock := lock);
    run := GetsIn(s, p, request, lock);
    run := GetsUp(run, s, steps, p, me);
    run := GetsMarked(run, s, steps + [UpBegin(p)] + [UpEnd(p, true)], p, me.(pc := Upped));
  }

  /** Undisturbed, a wake of a configured tier one of whose services then runs is answered ok at its
      first poll, and its time is the tier's last wake. */
  lemma WakeRuns(s: State, p: Pid, request: Proc, lock: Lock) returns (run: Run)
    requires p !in s.procs && request.actor == Wake && LetThrough(s, request)
    requires Free(s, request.tier, lock) && request.conf.services * s.running != {}
    ensures Path(run, s, [Arrive(p, request), TierLock(p, lock), Acquire(p), UpBegin(p), UpEnd(p, true), MarkWake(p),
                          Arm(p), Probe(p, s.running), Release(p)])
    ensures At(run.states[8], p, Wake, Deferred(true)) && run.states[9].lastWake == s.lastWake[request.tier := s.now]
    ensures run.states[9].holder == s.holder && run.states[9].perTier == s.perTier[request.tier := lock]
  {
    var steps := [Arrive(p, request), TierLock(p, lock), Acquire(p)] + [UpBegin(p)] + [UpEnd(p, true)]
                 + [MarkWake(p)] + [Arm(p)];
    run := GetsArmed(s, p, request, lock);
    run := GetsAnswered(run, s, steps, s.(lastWake := s.lastWake[request.tier := s.now]), p, Armed(s, request, lock));
    assert steps + [Probe(p, s.running)] + [Release(p)]
        == [Arrive(p, request), TierLock(p, lock), Acquire(p), UpBegin(p), UpEnd(p, true), MarkWake(p), Arm(p),
            Probe(p, s.running), Release(p)];
  }
}
