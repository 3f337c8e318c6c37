/** `get_sentinel` on any number of threads and processes: double-checked locking, with a reset
    of the cached instance in the child of a fork. */
module SentinelSingleton {
  import opened Wrappers

  type Pid = nat
  type Tid = nat

  /** The identity of a Sentinel object. */
  type Instance = nat

  /** Where a thread is in `get_sentinel`. */
  datatype Pc =
    | Idle
    | SawOne                            // the first check found an instance
    | Waiting                           // the first check found none; the lock comes next
    | Locked                            // holds the lock, before the second check
    | SawTwo                            // the second check found an instance
    | Building                          // the second check found none
    | Built                             // has assigned the global
    | Leaving(result: Option<Instance>) // has read the value to return; still holds the lock
    | Failing                           // the constructor raised; still holds the lock

  /** A process: the module's global, its lock, and its threads. */
  datatype Process = Process(instance: Option<Instance>, holder: Option<Tid>, threads: map<Tid, Pc>)

  /** An instance was built in a process; a call returned a value; a call raised. */
  datatype Event =
    | Builds(pid: Pid, instance: Instance)
    | Returns(pid: Pid, tid: Tid, result: Option<Instance>)
    | Raises(pid: Pid, tid: Tid)

  datatype State = State(processes: map<Pid, Process>, history: seq<Event>, nextId: Instance)

  datatype Step =
    | Spawn(pid: Pid, tid: Tid)
    | FirstCheck(pid: Pid, tid: Tid)
    | ReturnFirst(pid: Pid, tid: Tid)
    | Acquire(pid: Pid, tid: Tid)
    | SecondCheck(pid: Pid, tid: Tid)
    | ReadAgain(pid: Pid, tid: Tid)
    | Build(pid: Pid, tid: Tid, fails: bool)
    | Release(pid: Pid, tid: Tid)
    | Fork(pid: Pid, tid: Tid, child: Pid)

  /** Between Acquire and Release. */
  predicate InLock(pc: Pc) {
    pc == Locked || pc == SawTwo || pc == Building || pc == Built || pc.Leaving? || pc == Failing
  }

  predicate Enabled(s: State, step: Step) {
    && step.pid in s.processes
    && var process := s.processes[step.pid];
       if step.Spawn? then step.tid !in process.threads
       else
         && step.tid in process.threads
         && var pc := process.threads[step.tid];
            match step
            case FirstCheck(_, _) => pc == Idle
            case ReturnFirst(_, _) => pc == SawOne
            case Acquire(_, _) => pc == Waiting && process.holder == None
            case SecondCheck(_, _) => pc == Locked
            case ReadAgain(_, _) => pc == SawTwo || pc == Built
            case Build(_, _, _) => pc == Building
            case Release(_, _) => pc.Leaving? || pc == Failing
            case Fork(_, _, child) => pc == Idle && child !in s.processes
  }

  /** The step's thread moves on inside its process. */
  function Move(s: State, process: Process, step: Step): Process
    requires step.pid in s.processes && process == s.processes[step.pid] && Enabled(s, step) && !step.Fork?
  {
    var p := process;
    var tid := step.tid;
    match step
    case Spawn(_, _) => p.(threads := p.threads[tid := Idle])
    case FirstCheck(_, _) => p.(threads := p.threads[tid := if p.instance.Some? then SawOne else Waiting])
    case ReturnFirst(_, _) => p.(threads := p.threads[tid := Idle])
    case Acquire(_, _) => p.(holder := Some(tid), threads := p.threads[tid := Locked])
    case SecondCheck(_, _) => p.(threads := p.threads[tid := if p.instance.Some? then SawTwo else Building])
    case ReadAgain(_, _) => p.(threads := p.threads[tid := Leaving(p.instance)])
    case Build(_, _, fails) =>
      if fails then p.(threads := p.threads[tid := Failing])
      else p.(instance := Some(s.nextId), threads := p.threads[tid := Built])
    case Release(_, _) => p.(holder := None, threads := p.threads[tid := Idle])
  }

  /** What the step adds to the history. */
  function Record(s: State, step: Step): seq<Event>
    requires Enabled(s, step)
  {
    var p := s.processes[step.pid];
    match step
    case ReturnFirst(pid, tid) => [Returns(pid, tid, p.instance)]
    case Build(pid, _, fails) => if fails then [] else [Builds(pid, s.nextId)]
    case Release(pid, tid) =>
      if p.threads[tid] == Failing then [Raises(pid, tid)] else [Returns(pid, tid, p.threads[tid].result)]
    case _ => []
  }

  /** The child of a fork has the forking thread alone, a copy of the lock, and no instance. */
  function Apply(s: State, step: Step): State
    requires Enabled(s, step)
  {
    var p := s.processes[step.pid];
    if step.Fork? then
      s.(processes := s.processes[step.child := Process(None, p.holder, map[step.tid := Idle])])
    else
      State(s.processes[step.pid := Move(s, p, step)], s.history + Record(s, step),
            if step.Build? && !step.fails then s.nextId + 1 else s.nextId)
  }

  /** One process, with no instance and a free lock, whose threads have called nothing. */
  ghost predicate Init(s: State) {
    && s.history == []
    && forall pid :: pid in s.processes ==>
         && s.processes[pid].instance == None && s.processes[pid].holder == None
         && forall tid :: tid in s.processes[pid].threads ==> s.processes[pid].threads[tid] == Idle
  }

  datatype Run = Run(states: seq<State>, steps: seq<Step>)

  ghost predicate Follows(run: Run, k: nat)
    requires k < |run.steps| && |run.states| == |run.steps| + 1
  {
    Enabled(run.states[k], run.steps[k]) && run.states[k + 1] == Apply(run.states[k], run.steps[k])
  }

  ghost predicate Valid(run: Run) {
    && |run.states| == |run.steps| + 1 && Init(run.states[0])
    && forall k :: 0 <= k < |run.steps| ==> Follows(run, k)
  }

  // ---- The invariant ----------------------------------------------------------------------

  /** A thread's position agrees with the global and the lock of its process. */
  ghost predicate ThreadOk(p: Process, tid: Tid, pc: Pc) {
    && (InLock(pc) ==> p.holder == Some(tid))
    && (pc == SawOne || pc == SawTwo || pc == Built ==> p.instance.Some?)
    && (pc == Building ==> p.instance.None?)
    && (pc.Leaving? ==> p.instance.Some? && pc.result == p.instance)
  }

  ghost predicate ProcessOk(p: Process) {
    forall tid :: tid in p.threads ==> ThreadOk(p, tid, p.threads[tid])
  }

  /** Everything built or returned in a process is the process's one instance. */
  ghost predicate EventOk(s: State, event: Event) {
    && event.pid in s.processes
    && (event.Builds? ==> s.processes[event.pid].instance == Some(event.instance))
    && (event.Returns? ==> event.result.Some? && s.processes[event.pid].instance == event.result)
  }

  ghost predicate Inv(s: State) {
    && (forall pid :: pid in s.processes ==> ProcessOk(s.processes[pid]) && InstanceOk(s, pid))
    && (forall i :: 0 <= i < |s.history| ==> EventOk(s, s.history[i]))
    && (forall i, j :: 0 <= i < j < |s.history| && s.history[i].Builds? && s.history[j].Builds?
          ==> s.history[i].instance != s.history[j].instance)
  }

  /** A process's instance was built in it, and its number is taken. */
  ghost predicate InstanceOk(s: State, pid: Pid)
    requires pid in s.processes
  {
    var instance := s.processes[pid].instance;
    instance.Some? ==> instance.value < s.nextId && Builds(pid, instance.value) in s.history
  }

  lemma MoveKeepsProcess(s: State, step: Step)
    requires Enabled(s, step) && !step.Fork? && ProcessOk(s.processes[step.pid])
    ensures ProcessOk(Move(s, s.processes[step.pid], step))
    ensures Move(s, s.processes[step.pid], step).instance
            == if step.Build? && !step.fails then Some(s.nextId) else s.processes[step.pid].instance
    ensures step.Build? ==> s.processes[step.pid].instance == None
  {
    var p := s.processes[step.pid];
    var q := Move(s, p, step);
    forall tid | tid in q.threads ensures ThreadOk(q, tid, q.threads[tid]) {
      if tid in p.threads {
        assert ThreadOk(p, tid, p.threads[tid]);
      }
      if step.tid in p.threads {
        assert ThreadOk(p, step.tid, p.threads[step.tid]);
      }
    }
  }

  lemma InvStep(s: State, step: Step)
    requires Inv(s) && Enabled(s, step)
    ensures Inv(Apply(s, step))
  {
    var t := Apply(s, step);
    if step.Fork? {
      ForkKeeps(s, step);
    } else {
      MoveKeepsProcess(s, step);
      RecordIsOk(s, step);
      forall pid | pid in t.processes ensures ProcessOk(t.processes[pid]) && InstanceOk(t, pid) {
        if pid in s.processes {
          assert InstanceOk(s, pid);
        }
      }
      forall i | 0 <= i < |t.history| ensures EventOk(t, t.history[i]) {
        if i < |s.history| {
          assert EventOk(s, s.history[i]);
        }
      }
    }
  }

  lemma ForkKeeps(s: State, step: Step)
    requires Inv(s) && Enabled(s, step) && step.Fork?
    ensures Inv(Apply(s, step))
  {
  }

  lemma RecordIsOk(s: State, step: Step)
    requires Inv(s) && Enabled(s, step) && !step.Fork?
    ensures forall event :: event in Record(s, step) ==> EventOk(Apply(s, step), event)
    ensures forall i, event :: 0 <= i < |s.history| && s.history[i].Builds? && event in Record(s, step) && event.Builds?
              ==> s.history[i].instance != event.instance
    ensures |Record(s, step)| <= 1
  {
    var p := s.processes[step.pid];
    assert ProcessOk(p);
    if step.tid in p.threads {
      assert ThreadOk(p, step.tid, p.threads[step.tid]);
    }
    forall i | 0 <= i < |s.history| && s.history[i].Builds? ensures s.history[i].instance < s.nextId {
      assert EventOk(s, s.history[i]);
      assert InstanceOk(s, s.history[i].pid);
    }
  }

  lemma {:induction false} InvReachable(run: Run, k: nat)
    requires Valid(run) && k < |run.states|
    ensures Inv(run.states[k])
  {
    if k > 0 {
      InvReachable(run, k - 1);
      assert Follows(run, k - 1);
      InvStep(run.states[k - 1], run.steps[k - 1]);
    }
  }

  // ---- Results ----------------------------------------------------------------------------

  /** In every run, with any number of threads and processes, at most one instance is built in
      each process. */
  lemma AtMostOneBuild(run: Run, k: nat, i: nat, j: nat)
    requires Valid(run) && k < |run.states| && i < j < |run.states[k].history|
    requires run.states[k].history[i].Builds? && run.states[k].history[j].Builds?
    ensures run.states[k].history[i].pid != run.states[k].history[j].pid
  {
    InvReachable(run, k);
    assert EventOk(run.states[k], run.states[k].history[i]);
    assert EventOk(run.states[k], run.states[k].history[j]);
  }

  /** Every call that returns in a process returns the instance built in that process; all such
      calls get the same one, and no other process's calls do. */
  lemma CallersShareTheInstance(run: Run, k: nat, i: nat, j: nat)
    requires Valid(run) && k < |run.states| && i < |run.states[k].history| && j < |run.states[k].history|
    requires run.states[k].history[i].Returns? && run.states[k].history[j].Returns?
    ensures var a, b := run.states[k].history[i], run.states[k].history[j];
            && a.result.Some? && Builds(a.pid, a.result.value) in run.states[k].history
            && (a.pid == b.pid <==> a.result == b.result)
  {
    InvReachable(run, k);
    var s := run.states[k];
    var a, b := s.history[i], s.history[j];
    assert EventOk(s, a) && EventOk(s, b);
    assert InstanceOk(s, a.pid) && InstanceOk(s, b.pid);
    if a.result == b.result {
      var x :| 0 <= x < |s.history| && s.history[x] == Builds(a.pid, a.result.value);
      var y :| 0 <= y < |s.history| && s.history[y] == Builds(b.pid, b.result.value);
      assert x == y;
    }
  }

  /** The process was not forked while another thread was inside the lock. */
  ghost predicate CleanStart(run: Run, k: nat, pid: Pid) {
    forall i :: 0 <= i < k && i < |run.steps| < |run.states| ==> ForksFree(run.states[i], run.steps[i], pid)
  }

  /** If the step forks the process, the lock is free. */
  ghost predicate ForksFree(s: State, step: Step, pid: Pid) {
    step.Fork? && step.child == pid && step.pid in s.processes ==> s.processes[step.pid].holder == None
  }

  /** In such a process the lock is held by exactly the thread that is inside it, so that it is free
      again whenever that call has returned or raised. */
  lemma {:induction false} HeldByInsider(run: Run, k: nat, pid: Pid, tid: Tid)
    requires Valid(run) && k < |run.states| && pid in run.states[k].processes && CleanStart(run, k, pid)
    ensures var p := run.states[k].processes[pid];
            p.holder == Some(tid) <==> tid in p.threads && InLock(p.threads[tid])
    decreases k
  {
    if k > 0 {
      var s, step := run.states[k - 1], run.steps[k - 1];
      assert Follows(run, k - 1);
      InvReachable(run, k - 1);
      if pid in s.processes {
        HeldByInsider(run, k - 1, pid, tid);
        HolderMoves(s, step, pid, tid);
      } else {
        assert ForksFree(s, step, pid);
      }
    }
  }

  lemma HolderMoves(s: State, step: Step, pid: Pid, tid: Tid)
    requires Inv(s) && Enabled(s, step) && pid in s.processes
    requires var p := s.processes[pid]; p.holder == Some(tid) <==> tid in p.threads && InLock(p.threads[tid])
    ensures var p := Apply(s, step).processes[pid];
            p.holder == Some(tid) <==> tid in p.threads && InLock(p.threads[tid])
  {
    assert ProcessOk(s.processes[step.pid]);
    if step.tid in s.processes[step.pid].threads {
      assert ThreadOk(s.processes[step.pid], step.tid, s.processes[step.pid].threads[step.tid]);
    }
  }

  /** A call whose constructor raised leaves the lock free and everything else as it was. */
  lemma RaisingFreesLock(run: Run, k: nat, pid: Pid, tid: Tid)
    requires Valid(run) && k < |run.steps| && run.steps[k] == Release(pid, tid)
    requires Follows(run, k) && run.states[k].processes[pid].threads[tid] == Failing
    ensures var p := run.states[k + 1].processes[pid];
            p.holder == None && p.threads[tid] == Idle && p.instance == run.states[k].processes[pid].instance
    ensures run.states[k + 1].history == run.states[k].history + [Raises(pid, tid)]
  {
  }

  /** Once there is an instance a call returns it without the lock, whoever holds that. */
  lemma BuiltNeedsNoLock(s: State, pid: Pid, tid: Tid) returns (s1: State, s2: State)
    requires pid in s.processes && s.processes[pid].instance.Some?
    requires tid in s.processes[pid].threads && s.processes[pid].threads[tid] == Idle
    ensures Leads(s, FirstCheck(pid, tid), s1) && Leads(s1, ReturnFirst(pid, tid), s2)
    ensures s2.history == s.history + [Returns(pid, tid, s.processes[pid].instance)]
    ensures s2.processes[pid].holder == s.processes[pid].holder
  {
    s1 := Apply(s, FirstCheck(pid, tid));
    s2 := Apply(s1, ReturnFirst(pid, tid));
  }

  /** The lock is held, but by no thread of the process, and there is no instance. */
  ghost predicate Orphaned(p: Process) {
    p.holder.Some? && p.instance == None
    && forall tid :: tid in p.threads ==> p.threads[tid] == Idle || p.threads[tid] == Waiting
  }

  /** A fork copies the lock as it is: a child forked while another thread of the parent is inside
      the lock starts with a lock that nobody will release. */
  lemma ForkInLockOrphans(s: State, step: Step)
    requires Enabled(s, step) && step.Fork?
    ensures Orphaned(Apply(s, step).processes[step.child]) <==> s.processes[step.pid].holder.Some?
  {
  }

  lemma OrphanStepStays(s: State, step: Step, pid: Pid)
    requires Enabled(s, step) && pid in s.processes && Orphaned(s.processes[pid])
    ensures pid in Apply(s, step).processes && Orphaned(Apply(s, step).processes[pid])
    ensures step.Fork? || forall event :: event in Record(s, step) ==> event.pid != pid
  {
  }

  /** Such a child never builds an instance, and no call in it ever returns or raises. */
  lemma {:induction false} OrphanNeverGetsAnInstance(run: Run, i: nat, k: nat, pid: Pid)
    requires Valid(run) && i <= k < |run.states|
    requires pid in run.states[i].processes && Orphaned(run.states[i].processes[pid])
    ensures pid in run.states[k].processes && Orphaned(run.states[k].processes[pid])
    ensures run.states[i].history <= run.states[k].history
    ensures forall e :: |run.states[i].history| <= e < |run.states[k].history| ==> run.states[k].history[e].pid != pid
    decreases k
  {
    if i < k {
      OrphanNeverGetsAnInstance(run, i, k - 1, pid);
      assert Follows(run, k - 1);
      OrphanStepStays(run.states[k - 1], run.steps[k - 1], pid);
    }
  }

  /** The process is alone with one thread at `pc`. */
  predicate Solo(s: State, pid: Pid, instance: Option<Instance>, holder: Option<Tid>, tid: Tid, pc: Pc) {
    pid in s.processes && s.processes[pid] == Process(instance, holder, map[tid := pc])
  }

  /** One step of a solo process. */
  lemma SoloStep(s: State, step: Step, pid: Pid, tid: Tid, instance: Option<Instance>, holder: Option<Tid>, pc: Pc)
    requires Solo(s, pid, instance, holder, tid, pc) && Enabled(s, step) && !step.Fork? && step.pid == pid
             && step.tid == tid
    ensures Solo(Apply(s, step), pid, Move(s, s.processes[pid], step).instance, Move(s, s.processes[pid], step).holder,
                 tid, Move(s, s.processes[pid], step).threads[tid])
    ensures Apply(s, step).history == s.history + Record(s, step)
  {
  }

  ghost predicate Leads(s: State, step: Step, t: State) {
    Enabled(s, step) && t == Apply(s, step)
  }

  lemma ReachesBuilding(s0: State, pid: Pid, tid: Tid) returns (s1: State, s2: State, s3: State)
    requires Solo(s0, pid, None, None, tid, Idle)
    ensures Leads(s0, FirstCheck(pid, tid), s1) && Leads(s1, Acquire(pid, tid), s2)
            && Leads(s2, SecondCheck(pid, tid), s3)
    ensures Solo(s3, pid, None, Some(tid), tid, Building) && s3.history == s0.history && s3.nextId == s0.nextId
  {
    s1 := Apply(s0, FirstCheck(pid, tid));
    SoloStep(s0, FirstCheck(pid, tid), pid, tid, None, None, Idle);
    s2 := Apply(s1, Acquire(pid, tid));
    SoloStep(s1, Acquire(pid, tid), pid, tid, None, None, Waiting);
    s3 := Apply(s2, SecondCheck(pid, tid));
    SoloStep(s2, SecondCheck(pid, tid), pid, tid, None, Some(tid), Locked);
  }

  lemma BuildsAndReturns(s3: State, pid: Pid, tid: Tid) returns (s4: State, s5: State, s6: State)
    requires Solo(s3, pid, None, Some(tid), tid, Building)
    ensures Leads(s3, Build(pid, tid, false), s4) && Leads(s4, ReadAgain(pid, tid), s5)
            && Leads(s5, Release(pid, tid), s6)
    ensures s6.history == s3.history + [Builds(pid, s3.nextId), Returns(pid, tid, Some(s3.nextId))]
  {
    s4 := Apply(s3, Build(pid, tid, false));
    SoloStep(s3, Build(pid, tid, false), pid, tid, None, Some(tid), Building);
    s5 := Apply(s4, ReadAgain(pid, tid));
    SoloStep(s4, ReadAgain(pid, tid), pid, tid, Some(s3.nextId), Some(tid), Built);
    s6 := Apply(s5, Release(pid, tid));
  }

  lemma NextIdIsNew(s: State)
    requires Inv(s)
    ensures forall pid :: pid in s.processes ==> s.processes[pid].instance != Some(s.nextId)
  {
  }

  /** A child forked while the lock was free can build its own: its first call runs through and
      returns a new instance, which no process had before. */
  lemma FreeChildBuildsItsOwn(s: State, pid: Pid, tid: Tid, child: Pid)
    returns (s0: State, s1: State, s2: State, s3: State, s4: State, s5: State, s6: State)
    requires Inv(s) && Enabled(s, Fork(pid, tid, child)) && s.processes[pid].holder == None
    ensures Leads(s, Fork(pid, tid, child), s0)
    ensures Leads(s0, FirstCheck(child, tid), s1) && Leads(s1, Acquire(child, tid), s2)
    ensures Leads(s2, SecondCheck(child, tid), s3) && Leads(s3, Build(child, tid, false), s4)
    ensures Leads(s4, ReadAgain(child, tid), s5) && Leads(s5, Release(child, tid), s6)
    ensures s6.history == s.history + [Builds(child, s.nextId), Returns(child, tid, Some(s.nextId))]
    ensures forall p :: p in s.processes ==> s.processes[p].instance != Some(s.nextId)
  {
    NextIdIsNew(s);
    s0 := Apply(s, Fork(pid, tid, child));
    s1, s2, s3 := ReachesBuilding(s0, child, tid);
    s4, s5, s6 := BuildsAndReturns(s3, child, tid);
  }
}
