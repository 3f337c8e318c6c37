/** The interleavings of napd, the tier sleep/wake daemon.

    Wake and sleep handlers, the reaper and the boot-seeding goroutine are actors with a
    program counter. They share the `lastWake` and `perTier` maps and one mutex per tier.
    A step is one atomic action of one actor, or of the environment: the clock, Docker,
    the tiers.d files, an arriving request. A run is any sequence of enabled steps. */
module NapdProtocol {

  type Tier = string
  type Pid = nat

  /** Nanoseconds since Go's zero time, so that the zero time is 0. */
  type Time = int

  /** The identity of a `*sync.Mutex`. */
  type Lock = nat

  const SECOND: int := 1_000_000_000
  const TWO_63: int := 0x8000_0000_0000_0000
  const TWO_64: int := 0x1_0000_0000_0000_0000

  /** The largest idle window, in whole seconds, that an int64 count of nanoseconds holds. */
  const MAX_IDLE_SECS: int := 9_223_372_036

  /** What `parseTierConf` reads from one tiers.d file. */
  datatype Conf = Conf(services: set<string>, autosleep: bool, idleSecs: int)

  datatype Actor = Wake | Sleep | Reaper | Seeder

  datatype Pc =
    | Begin | Blocked | Locked                            // on the way to the tier's mutex
    | UpRunning | Upped | Marked                          // wakeHandler: script, markWake
    | Polling | Checking | Waiting                        // wakeHandler: wait loop
    | DownRunning                                         // sleepHandler and reap: script
    | Deferred(ok: bool)                                  // outcome known, deferred Unlock pending
    | Done
    | Idle | Visiting | LastRead | Due | Trying | SeenAwake // reap
    | Seeding                                             // boot goroutine

  datatype Proc = Proc(actor: Actor, pc: Pc, tier: Tier, conf: Conf, lock: Lock, lastWake: Time,
                       timeoutSecs: int, force: bool, deadline: Time, resumeAt: Time, seen: set<string>)

  datatype State = State(now: Time, conf: map<Tier, Conf>, running: set<string>,
                         lastWake: map<Tier, Time>, perTier: map<Tier, Lock>,
                         holder: map<Lock, Pid>, procs: map<Pid, Proc>)

  datatype Step =
    | Tick(to: Time)
    | Containers(running: set<string>)
    | EditConf(conf: map<Tier, Conf>)
    | Arrive(p: Pid, request: Proc)
    | TierLock(p: Pid, lock: Lock)
    | Acquire(p: Pid)
    | TryLock(p: Pid)
    | Release(p: Pid)
    | UpBegin(p: Pid)
    | UpEnd(p: Pid, ok: bool)
    | MarkWake(p: Pid)
    | Arm(p: Pid)
    | Probe(p: Pid, seen: set<string>)
    | CheckDeadline(p: Pid, cancelled: bool)
    | Resume(p: Pid, cancelled: bool)
    | DownBegin(p: Pid)
    | DownEnd(p: Pid, ok: bool)
    | Visit(p: Pid, tier: Tier)
    | ReadLastWake(p: Pid)
    | CheckIdle(p: Pid)
    | Snapshot(p: Pid, seen: set<string>)
    | Seed(p: Pid, tier: Tier)
    | SeedDone(p: Pid)

  /** Go's int64 arithmetic wraps around. */
  function WrapInt64(n: int): int {
    (n + TWO_63) % TWO_64 - TWO_63
  }

  /** `time.Duration(tc.idleSecs) * time.Second`. */
  function Window(idleSecs: int): int {
    WrapInt64(idleSecs * SECOND)
  }

  /** `lastWake[tier]`; a missing entry reads as the zero time. */
  function LastWakeOf(s: State, tier: Tier): Time {
    if tier in s.lastWake then s.lastWake[tier] else 0
  }

  predicate At(s: State, p: Pid, actor: Actor, pc: Pc) {
    p in s.procs && s.procs[p].actor == actor && s.procs[p].pc == pc
  }

  /** A request that `wakeHandler` or `sleepHandler` lets through to the tier lock. */
  predicate Admitted(s: State, request: Proc) {
    && request.pc == Begin
    && (request.actor == Wake || request.actor == Sleep)
    && request.tier in s.conf
    && request.conf == s.conf[request.tier]
    && (request.actor == Wake ==> 10 <= request.timeoutSecs <= 600)
    && (request.actor == Sleep ==> request.conf.autosleep || request.force)
  }

  predicate Enabled(s: State, step: Step) {
    match step
    case Tick(to) => s.now <= to
    case Containers(_) => true
    case EditConf(_) => true
    case Arrive(p, request) => p !in s.procs && Admitted(s, request)
    case TierLock(p, lock) =>
      && (At(s, p, Wake, Begin) || At(s, p, Sleep, Begin) || At(s, p, Reaper, Due))
      && var tier := s.procs[p].tier;
         if tier in s.perTier then lock == s.perTier[tier] else lock !in s.perTier.Values
    case Acquire(p) =>
      && (At(s, p, Wake, Blocked) || At(s, p, Sleep, Blocked))
      && s.procs[p].lock !in s.holder
    case TryLock(p) => At(s, p, Reaper, Trying)
    case Release(p) => p in s.procs && s.procs[p].pc.Deferred?
    case UpBegin(p) => At(s, p, Wake, Locked)
    case UpEnd(p, _) => At(s, p, Wake, UpRunning)
    case MarkWake(p) => At(s, p, Wake, Upped)
    case Arm(p) => At(s, p, Wake, Marked)
    case Probe(p, seen) =>
      // `docker ps` reports the running services, or nothing when it fails
      && (At(s, p, Wake, Polling) || At(s, p, Reaper, Locked))
      && (seen == s.running || seen == {})
    case CheckDeadline(p, _) => At(s, p, Wake, Checking)
    case Resume(p, cancelled) => At(s, p, Wake, Waiting) && (cancelled || s.procs[p].resumeAt <= s.now)
    case DownBegin(p) => At(s, p, Sleep, Locked) || At(s, p, Reaper, SeenAwake)
    case DownEnd(p, _) => (At(s, p, Sleep, DownRunning) || At(s, p, Reaper, DownRunning))
    case Visit(p, tier) =>
      && At(s, p, Reaper, Idle)
      && tier in s.conf && s.conf[tier].autosleep && s.conf[tier].idleSecs > 0
    case ReadLastWake(p) => At(s, p, Reaper, Visiting)
    case CheckIdle(p) => At(s, p, Reaper, LastRead)
    case Snapshot(p, seen) => At(s, p, Seeder, Begin) && (seen == s.running || seen == {})
    case Seed(p, tier) =>
      && At(s, p, Seeder, Seeding)
      && tier in s.conf && s.conf[tier].services * s.procs[p].seen != {}
    case SeedDone(p) => At(s, p, Seeder, Seeding)
  }

  /** The steps that touch neither a mutex nor the map of mutexes: they move one actor on. */
  predicate Local(step: Step) {
    || step.UpBegin? || step.UpEnd? || step.MarkWake? || step.Arm? || step.Probe? || step.CheckDeadline?
    || step.Resume? || step.DownBegin? || step.DownEnd? || step.Visit? || step.ReadLastWake?
    || step.CheckIdle? || step.Snapshot? || step.SeedDone?
  }

  /** The actor after its local step. */
  function Moved(s: State, step: Step): Proc
    requires Enabled(s, step) && Local(step)
  {
    var me := s.procs[step.p];
    match step
    case UpBegin(_) => me.(pc := UpRunning)
    case UpEnd(_, ok) => me.(pc := if ok then Upped else Deferred(false))
    case MarkWake(_) => me.(pc := Marked)
    case Arm(_) => me.(pc := Polling, deadline := s.now + me.timeoutSecs * SECOND)
    case Probe(_, seen) =>
      var awake := me.conf.services * seen != {};
      me.(pc := if me.actor == Wake then if awake then Deferred(true) else Checking
                else if awake then SeenAwake else Deferred(false))
    case CheckDeadline(_, cancelled) =>
      if s.now > me.deadline || cancelled then me.(pc := Deferred(false))
      else me.(pc := Waiting, resumeAt := s.now + 3 * SECOND)
    case Resume(_, cancelled) => me.(pc := if cancelled then Deferred(false) else Polling)
    case DownBegin(_) => me.(pc := DownRunning)
    case DownEnd(_, ok) => me.(pc := Deferred(ok))
    case Visit(_, tier) => me.(pc := Visiting, tier := tier, conf := s.conf[tier])
    case ReadLastWake(_) =>
      var lastWake := LastWakeOf(s, me.tier);
      if lastWake == 0 then me.(pc := Idle) else me.(pc := LastRead, lastWake := lastWake)
    case CheckIdle(_) => me.(pc := if s.now - me.lastWake < Window(me.conf.idleSecs) then Idle else Due)
    case Snapshot(_, seen) => me.(pc := Seeding, seen := seen)
    case SeedDone(_) => me.(pc := Done)
  }

  function Apply(s: State, step: Step): State
    requires Enabled(s, step)
  {
    if Local(step) then
      var lastWake := if step.MarkWake? then s.lastWake[s.procs[step.p].tier := s.now] else s.lastWake;
      s.(lastWake := lastWake, procs := s.procs[step.p := Moved(s, step)])
    else
      match step
      case Tick(to) => s.(now := to)
      case Containers(running) => s.(running := running)
      case EditConf(conf) => s.(conf := conf)
      case Seed(p, tier) => s.(lastWake := s.lastWake[tier := s.now])
      case Arrive(p, request) => s.(procs := s.procs[p := request])
      case TierLock(p, lock) =>
        var me := s.procs[p];
        var pc := if me.actor == Reaper then Trying else Blocked;
        s.(perTier := s.perTier[me.tier := lock], procs := s.procs[p := me.(lock := lock, pc := pc)])
      case Acquire(p) => Taken(s, p)
      case TryLock(p) =>
        if s.procs[p].lock in s.holder then s.(procs := s.procs[p := s.procs[p].(pc := Idle)]) else Taken(s, p)
      case Release(p) =>
        var me := s.procs[p];
        var pc := if me.actor == Reaper then Idle else Done;
        s.(holder := s.holder - {me.lock}, procs := s.procs[p := me.(pc := pc)])
  }

  /** The actor has locked its mutex. */
  function Taken(s: State, p: Pid): State
    requires p in s.procs
  {
    s.(holder := s.holder[s.procs[p].lock := p], procs := s.procs[p := s.procs[p].(pc := Locked)])
  }

  /** At boot the reaper and the seeder exist, no mutex does, and `lastWake` is whatever
      `loadState` found. */
  ghost predicate Init(s: State) {
    && s.perTier == map[]
    && s.holder == map[]
    && forall p :: p in s.procs ==>
         || (s.procs[p].actor == Reaper && s.procs[p].pc == Idle)
         || (s.procs[p].actor == Seeder && s.procs[p].pc == Begin)
  }

  datatype Run = Run(states: seq<State>, steps: seq<Step>)

  ghost predicate Valid(run: Run) {
    && |run.states| == |run.steps| + 1
    && Init(run.states[0])
    && forall k :: 0 <= k < |run.steps| ==> Follows(run, k)
  }

  ghost predicate Follows(run: Run, k: nat)
    requires k < |run.steps| && |run.states| == |run.steps| + 1
  {
    Enabled(run.states[k], run.steps[k]) && run.states[k + 1] == Apply(run.states[k], run.steps[k])
  }

  /** The actor has called `tierLock` and still uses the mutex it got. */
  predicate HasLock(proc: Proc) {
    Holds(proc) || proc.pc == Blocked || proc.pc == Trying
  }

  /** The actor is between Lock (or a successful TryLock) and Unlock. */
  predicate Holds(proc: Proc) {
    || proc.pc == Locked || proc.pc == UpRunning || proc.pc == Upped || proc.pc == Marked
    || proc.pc == Polling || proc.pc == Checking || proc.pc == Waiting || proc.pc == DownRunning
    || proc.pc == SeenAwake || proc.pc.Deferred?
  }

  /** Different tiers have different mutexes. */
  ghost predicate LocksDistinct(s: State) {
    forall x, y :: x in s.perTier && y in s.perTier && s.perTier[x] == s.perTier[y] ==> x == y
  }

  /** An actor's mutex is still the one its tier maps to, and is locked while it holds it. */
  ghost predicate Consistent(s: State, p: Pid, proc: Proc) {
    && (HasLock(proc) ==> proc.tier in s.perTier && s.perTier[proc.tier] == proc.lock)
    && (Holds(proc) ==> proc.lock in s.holder && s.holder[proc.lock] == p)
  }

  /** A locked mutex is held by the actor recorded for it. */
  ghost predicate Owned(s: State, lock: Lock, p: Pid) {
    p in s.procs && Holds(s.procs[p]) && s.procs[p].lock == lock
  }

  ghost predicate Inv(s: State) {
    && LocksDistinct(s)
    && (forall p :: p in s.procs ==> Consistent(s, p, s.procs[p]))
    && (forall lock :: lock in s.holder ==> Owned(s, lock, s.holder[lock]))
  }

  /** Moving one actor keeps the invariant while its claim on its mutex stays the same. */
  lemma InvLocal(s: State, t: State, p: Pid, me: Proc)
    requires Inv(s) && p in s.procs && t.procs == s.procs[p := me]
    requires t.perTier == s.perTier && t.holder == s.holder
    requires Holds(me) == Holds(s.procs[p]) && (HasLock(me) ==> HasLock(s.procs[p]))
    requires HasLock(me) ==> me.tier == s.procs[p].tier && me.lock == s.procs[p].lock
    ensures Inv(t)
  {
  }

  /** A mutex made for a tier without one differs from all others. */
  lemma LockIsNew(s: State, t: State, tier: Tier, lock: Lock)
    requires LocksDistinct(s) && t.perTier == s.perTier[tier := lock]
    requires if tier in s.perTier then lock == s.perTier[tier] else lock !in s.perTier.Values
    ensures LocksDistinct(t)
  {
  }

  lemma InvTierLock(s: State, t: State, p: Pid, lock: Lock, me: Proc)
    requires Inv(s) && p in s.procs && me.tier == s.procs[p].tier && me.lock == lock
    requires me.pc == Blocked || me.pc == Trying
    requires !Holds(s.procs[p])
    requires if me.tier in s.perTier then lock == s.perTier[me.tier] else lock !in s.perTier.Values
    requires t.perTier == s.perTier[me.tier := lock] && t.holder == s.holder && t.procs == s.procs[p := me]
    ensures Inv(t)
  {
    LockIsNew(s, t, me.tier, lock);
    forall q | q in t.procs ensures Consistent(t, q, t.procs[q]) {
      assert Consistent(s, q, s.procs[q]);
    }
    forall l | l in t.holder ensures Owned(t, l, t.holder[l]) {
      assert Owned(s, l, s.holder[l]);
    }
  }

  lemma InvTake(s: State, t: State, p: Pid)
    requires Inv(s) && p in s.procs && s.procs[p].lock !in s.holder
    requires s.procs[p].pc == Blocked || s.procs[p].pc == Trying
    requires t == Taken(s, p)
    ensures Inv(t)
  {
    forall q | q in t.procs ensures Consistent(t, q, t.procs[q]) {
      assert Consistent(s, q, s.procs[q]);
    }
    forall l | l in t.holder ensures Owned(t, l, t.holder[l]) {
      assert l in s.holder ==> Owned(s, l, s.holder[l]);
    }
  }

  lemma InvRelease(s: State, t: State, p: Pid, me: Proc)
    requires Inv(s) && p in s.procs && Holds(s.procs[p]) && (me.pc == Idle || me.pc == Done)
    requires t.perTier == s.perTier && t.holder == s.holder - {s.procs[p].lock} && t.procs == s.procs[p := me]
    ensures Inv(t)
  {
    assert Consistent(s, p, s.procs[p]);
    forall q | q in t.procs ensures Consistent(t, q, t.procs[q]) {
      assert Consistent(s, q, s.procs[q]);
    }
    forall l | l in t.holder ensures Owned(t, l, t.holder[l]) {
      assert Owned(s, l, s.holder[l]);
    }
  }

  lemma InvFrame(s: State, t: State)
    requires Inv(s) && t.procs == s.procs && t.perTier == s.perTier && t.holder == s.holder
    ensures Inv(t)
  {
  }

  lemma InvArrive(s: State, t: State, p: Pid, request: Proc)
    requires Inv(s) && p !in s.procs && request.pc == Begin
    requires t.perTier == s.perTier && t.holder == s.holder && t.procs == s.procs[p := request]
    ensures Inv(t)
  {
  }

  lemma MovedKeepsClaim(s: State, step: Step)
    requires Enabled(s, step) && Local(step)
    ensures Holds(Moved(s, step)) == Holds(s.procs[step.p])
    ensures HasLock(Moved(s, step)) ==> HasLock(s.procs[step.p])
    ensures HasLock(Moved(s, step)) ==> Moved(s, step).tier == s.procs[step.p].tier
    ensures Moved(s, step).lock == s.procs[step.p].lock
  {
  }

  lemma InvTierLockStep(s: State, p: Pid, lock: Lock)
    requires Inv(s) && Enabled(s, TierLock(p, lock))
    ensures Inv(Apply(s, TierLock(p, lock)))
  {
    var me := s.procs[p];
    var next := me.(lock := lock, pc := if me.actor == Reaper then Trying else Blocked);
    var t := Apply(s, TierLock(p, lock));
    assert t == s.(perTier := s.perTier[me.tier := lock], procs := s.procs[p := next]);
    assert !Holds(me);
    InvTierLock(s, t, p, lock, next);
  }

  lemma TryLockFails(s: State, p: Pid)
    requires Enabled(s, TryLock(p)) && s.procs[p].lock in s.holder
    ensures Apply(s, TryLock(p)) == s.(procs := s.procs[p := s.procs[p].(pc := Idle)])
  {
  }

  lemma InvGivesUp(s: State, p: Pid)
    requires Inv(s) && At(s, p, Reaper, Trying)
    ensures Inv(s.(procs := s.procs[p := s.procs[p].(pc := Idle)]))
  {
    InvLocal(s, s.(procs := s.procs[p := s.procs[p].(pc := Idle)]), p, s.procs[p].(pc := Idle));
  }

  lemma InvTryLockFails(s: State, p: Pid)
    requires Inv(s) && Enabled(s, TryLock(p)) && s.procs[p].lock in s.holder
    ensures Inv(Apply(s, TryLock(p)))
  {
    TryLockFails(s, p);
    InvGivesUp(s, p);
  }

  lemma InvTryLockTakes(s: State, p: Pid)
    requires Inv(s) && Enabled(s, TryLock(p)) && s.procs[p].lock !in s.holder
    ensures Inv(Apply(s, TryLock(p)))
  {
    InvTake(s, Apply(s, TryLock(p)), p);
  }

  lemma InvReleaseStep(s: State, p: Pid)
    requires Inv(s) && Enabled(s, Release(p))
    ensures Inv(Apply(s, Release(p)))
  {
    InvRelease(s, Apply(s, Release(p)), p, s.procs[p].(pc := if s.procs[p].actor == Reaper then Idle else Done));
  }

  /** The steps on the mutexes. */
  lemma InvLockStep(s: State, step: Step)
    requires step.TierLock? || step.Acquire? || step.TryLock? || step.Release?
    requires Inv(s) && Enabled(s, step)
    ensures Inv(Apply(s, step))
  {
    match step
    case TierLock(p, lock) => InvTierLockStep(s, p, lock);
    case Acquire(p) => InvTake(s, Apply(s, step), p);
    case Release(p) => InvReleaseStep(s, p);
    case TryLock(p) =>
      if s.procs[p].lock in s.holder {
        InvTryLockFails(s, p);
      } else {
        InvTryLockTakes(s, p);
      }
  }

  lemma InvStep(s: State, step: Step)
    requires Inv(s) && Enabled(s, step)
    ensures Inv(Apply(s, step))
  {
    if Local(step) {
      MovedKeepsClaim(s, step);
      InvLocal(s, Apply(s, step), step.p, Moved(s, step));
    } else if step.Arrive? {
      InvArrive(s, Apply(s, step), step.p, step.request);
    } else if step.Tick? || step.Containers? || step.EditConf? || step.Seed? {
      InvFrame(s, Apply(s, step));
    } else {
      InvLockStep(s, step);
    }
  }

  lemma {:induction false} InvReachable(run: Run, k: nat)
    requires Valid(run) && k < |run.states|
    ensures Inv(run.states[k])
  {
    if k > 0 {
      InvReachable(run, k - 1);
      assert Follows(run, k - 1);
      InvStep(run.states[k - 1], run.steps[k - 1]);
    }
  }
}
