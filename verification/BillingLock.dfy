/** Concurrent activations of one account. Each transaction locks the row, works on the copy it
    then reads, and writes it back when it commits; the database may abort it at any time. */
module BillingLock {
  import opened Wrappers
  import opened Billing

  type Tx = nat

  /** What the caller passes: the plan's text, whether periods stack, and the configured period. */
  datatype Order = Order(plan: string, extend: bool, days: int)

  datatype Phase =
    | Waiting(order: Order)
    | Locked(order: Order, copy: Account)
    | Checked(order: Order, copy: Account, checkedAt: int)
    | Written(request: Request, copy: Account)
    | Committed
    | Aborted

  datatype Entry = Entry(tx: Tx, request: Request)

  /** `log` records the committed activations. */
  datatype State = State(now: int, row: Account, holder: Option<Tx>, txs: map<Tx, Phase>, log: seq<Entry>)

  datatype Step =
    | Tick(to: int)
    | Begin(tx: Tx, order: Order)
    | Lock(tx: Tx)
    | CheckClock(tx: Tx)
    | Write(tx: Tx)
    | Commit(tx: Tx)
    | Abort(tx: Tx)

  predicate InLock(phase: Phase) {
    phase.Locked? || phase.Checked? || phase.Written?
  }

  predicate Enabled(s: State, step: Step) {
    match step
    case Tick(to) => s.now <= to
    case Begin(tx, order) => tx !in s.txs && ParsePlan(order.plan).Some?
    case Lock(tx) => tx in s.txs && s.txs[tx].Waiting? && s.holder == None
    case CheckClock(tx) => tx in s.txs && s.txs[tx].Locked?
    case Write(tx) => tx in s.txs && s.txs[tx].Checked?
    case Commit(tx) => tx in s.txs && s.txs[tx].Written?
    case Abort(tx) => tx in s.txs && !s.txs[tx].Committed?
  }

  function Apply(s: State, step: Step): State
    requires Enabled(s, step)
  {
    match step
    case Tick(to) => s.(now := to)
    case Begin(tx, order) => s.(txs := s.txs[tx := Waiting(order)])
    case Lock(tx) => s.(holder := Some(tx), txs := s.txs[tx := Locked(s.txs[tx].order, s.row)])
    case CheckClock(tx) => s.(txs := s.txs[tx := Checked(s.txs[tx].order, s.txs[tx].copy, s.now)])
    case Write(tx) =>
      var phase := s.txs[tx];
      var request := Request(phase.order.plan, phase.order.extend, phase.order.days, phase.checkedAt, s.now);
      s.(txs := s.txs[tx := Written(request, Activated(phase.copy, request))])
    case Commit(tx) =>
      s.(row := s.txs[tx].copy, holder := None, txs := s.txs[tx := Committed],
         log := s.log + [Entry(tx, s.txs[tx].request)])
    case Abort(tx) =>
      s.(holder := if InLock(s.txs[tx]) then None else s.holder, txs := s.txs[tx := Aborted])
  }

  datatype Run = Run(states: seq<State>, steps: seq<Step>)

  ghost predicate Init(s: State) {
    s.holder == None && s.txs == map[] && s.log == []
  }

  ghost predicate Follows(run: Run, k: nat)
    requires k < |run.steps| && |run.states| == |run.steps| + 1
  {
    Enabled(run.states[k], run.steps[k]) && run.states[k + 1] == Apply(run.states[k], run.steps[k])
  }

  ghost predicate Valid(run: Run) {
    && |run.states| == |run.steps| + 1 && Init(run.states[0])
    && forall k :: 0 <= k < |run.steps| ==> Follows(run, k)
  }

  function Requests(log: seq<Entry>): (requests: seq<Request>)
    ensures |requests| == |log|
    ensures forall i :: 0 <= i < |log| ==> requests[i] == log[i].request
  {
    seq(|log|, i requires 0 <= i < |log| => log[i].request)
  }

  /** Each committed activation read the clock while it alone held the row. */
  ghost predicate InOrder(log: seq<Entry>, now: int) {
    && (forall i :: 0 <= i < |log| ==> log[i].request.checkedAt <= log[i].request.baseAt <= now)
    && (forall i, j :: 0 <= i < j < |log| ==> log[i].request.baseAt <= log[j].request.checkedAt)
  }

  ghost predicate LoggedOnce(s: State) {
    && (forall i :: 0 <= i < |s.log| ==> s.log[i].tx in s.txs && s.txs[s.log[i].tx].Committed?)
    && (forall i, j :: 0 <= i < j < |s.log| ==> s.log[i].tx != s.log[j].tx)
    && (forall tx :: tx in s.txs && s.txs[tx].Committed? ==> exists i :: 0 <= i < |s.log| && s.log[i].tx == tx)
  }

  /** The copy a transaction works on is the row, or the row activated once. */
  ghost predicate PhaseOk(s: State, tx: Tx, phase: Phase) {
    && (InLock(phase) ==> s.holder == Some(tx))
    && (phase.Locked? || phase.Checked? ==> phase.copy == s.row)
    && (phase.Checked? ==> phase.checkedAt <= s.now && After(s.log, phase.checkedAt))
    && (phase.Written? ==>
          && phase.copy == Activated(s.row, phase.request)
          && phase.request.checkedAt <= phase.request.baseAt <= s.now
          && After(s.log, phase.request.checkedAt))
  }

  /** All logged clock readings are at most t. */
  ghost predicate After(log: seq<Entry>, t: int) {
    forall i :: 0 <= i < |log| ==> log[i].request.baseAt <= t
  }

  /** The row is locked by exactly the transaction that is inside the lock. */
  ghost predicate HeldByInsider(s: State) {
    forall tx :: s.holder == Some(tx) <==> tx in s.txs && InLock(s.txs[tx])
  }

  ghost predicate Inv(start: Account, s: State) {
    && HeldByInsider(s) && s.row == Serial(start, Requests(s.log))
    && InOrder(s.log, s.now) && LoggedOnce(s)
    && forall tx :: tx in s.txs ==> PhaseOk(s, tx, s.txs[tx])
  }

  lemma CommitKeeps(start: Account, s: State, tx: Tx)
    requires Inv(start, s) && Enabled(s, Commit(tx))
    ensures Inv(start, Apply(s, Commit(tx)))
  {
    var t := Apply(s, Commit(tx));
    assert PhaseOk(s, tx, s.txs[tx]);
    HolderMoves(s, Commit(tx));
    assert Requests(t.log)[..|s.log|] == Requests(s.log);
    assert Requests(t.log)[|s.log|] == s.txs[tx].request;
    forall other | other in t.txs ensures PhaseOk(t, other, t.txs[other]) {
      assert PhaseOk(s, other, s.txs[other]);
    }
    CommitIsLogged(s, t, tx);
  }

  lemma CommitIsLogged(s: State, t: State, tx: Tx)
    requires LoggedOnce(s) && Enabled(s, Commit(tx)) && t == Apply(s, Commit(tx))
    ensures LoggedOnce(t)
  {
    forall other | other in t.txs && t.txs[other].Committed?
      ensures exists i :: 0 <= i < |t.log| && t.log[i].tx == other
    {
      if other == tx {
        assert t.log[|s.log|].tx == tx;
      } else {
        var i :| 0 <= i < |s.log| && s.log[i].tx == other;
        assert t.log[i].tx == other;
      }
    }
  }

  lemma PhasesKeep(s: State, step: Step, tx: Tx)
    requires Enabled(s, step) && !step.Commit? && tx in Apply(s, step).txs
    requires forall other :: other in s.txs ==> PhaseOk(s, other, s.txs[other])
    requires After(s.log, s.now)
    ensures PhaseOk(Apply(s, step), tx, Apply(s, step).txs[tx])
  {
  }

  lemma HolderMoves(s: State, step: Step)
    requires HeldByInsider(s) && Enabled(s, step) && forall tx :: tx in s.txs ==> PhaseOk(s, tx, s.txs[tx])
    ensures HeldByInsider(Apply(s, step))
  {
  }

  lemma LogKeeps(s: State, step: Step)
    requires LoggedOnce(s) && Enabled(s, step) && !step.Commit?
    ensures LoggedOnce(Apply(s, step))
  {
  }

  lemma OtherStepKeeps(start: Account, s: State, step: Step)
    requires Inv(start, s) && Enabled(s, step) && !step.Commit?
    ensures Inv(start, Apply(s, step))
  {
    var t := Apply(s, step);
    assert t.log == s.log && t.row == s.row && s.now <= t.now;
    HolderMoves(s, step);
    forall tx | tx in t.txs ensures PhaseOk(t, tx, t.txs[tx]) {
      PhasesKeep(s, step, tx);
    }
    LogKeeps(s, step);
  }

  lemma {:induction false} InvReachable(run: Run, k: nat)
    requires Valid(run) && k < |run.states|
    ensures Inv(run.states[0].row, run.states[k])
  {
    if k > 0 {
      InvReachable(run, k - 1);
      assert Follows(run, k - 1);
      if run.steps[k - 1].Commit? {
        CommitKeeps(run.states[0].row, run.states[k - 1], run.steps[k - 1].tx);
      } else {
        OtherStepKeeps(run.states[0].row, run.states[k - 1], run.steps[k - 1]);
      }
    }
  }

  // ---- Where the logged requests come from ------------------------------------------------

  /** The transaction was begun with the order before step k. */
  ghost predicate Begun(run: Run, k: nat, tx: Tx, order: Order) {
    exists j :: 0 <= j < k && j < |run.steps| && run.steps[j] == Begin(tx, order)
  }

  function OrderOf(request: Request): Order {
    Order(request.plan, request.extend, request.days)
  }

  /** The order that a phase still carries. */
  function Carried(phase: Phase): Option<Order> {
    match phase
    case Waiting(order) => Some(order)
    case Locked(order, _) => Some(order)
    case Checked(order, _, _) => Some(order)
    case Written(request, _) => Some(OrderOf(request))
    case _ => None
  }

  /** What transactions carry and what is logged are the orders they were begun with. */
  ghost predicate AllBegun(run: Run, k: nat, s: State) {
    && (forall tx :: tx in s.txs && Carried(s.txs[tx]).Some? ==> Begun(run, k, tx, Carried(s.txs[tx]).value))
    && (forall i :: 0 <= i < |s.log| ==> Begun(run, k, s.log[i].tx, OrderOf(s.log[i].request)))
  }

  lemma CarriedStays(s: State, step: Step, tx: Tx)
    requires Enabled(s, step) && tx in Apply(s, step).txs && Carried(Apply(s, step).txs[tx]).Some?
    ensures step == Begin(tx, Carried(Apply(s, step).txs[tx]).value)
            || (tx in s.txs && Carried(s.txs[tx]) == Carried(Apply(s, step).txs[tx]))
  {
  }

  lemma {:induction false} BegunReachable(run: Run, k: nat)
    requires Valid(run) && k < |run.states|
    ensures AllBegun(run, k, run.states[k])
  {
    if k > 0 {
      BegunReachable(run, k - 1);
      assert Follows(run, k - 1);
      var s, step := run.states[k - 1], run.steps[k - 1];
      forall tx, order | Begun(run, k - 1, tx, order) ensures Begun(run, k, tx, order) {
        var j :| 0 <= j < k - 1 && run.steps[j] == Begin(tx, order);
      }
      forall tx | tx in run.states[k].txs && Carried(run.states[k].txs[tx]).Some?
        ensures Begun(run, k, tx, Carried(run.states[k].txs[tx]).value)
      {
        CarriedStays(s, step, tx);
      }
    }
  }

  /** In every interleaving the account is what the committed activations give one after the
      other, each exactly once, in the order of their clock readings; aborted ones leave no trace, and the
      row is locked by nobody but a transaction that has read it and not ended.
      Each is logged with the order that its transaction was begun with. */
  lemma EveryInterleavingIsSerial(run: Run, k: nat)
    requires Valid(run) && k < |run.states|
    ensures var s := run.states[k];
            && s.row == Serial(run.states[0].row, Requests(s.log))
            && InOrder(s.log, s.now) && LoggedOnce(s) && HeldByInsider(s)
            && forall i :: 0 <= i < |s.log| ==> Begun(run, k, s.log[i].tx, OrderOf(s.log[i].request))
  {
    InvReachable(run, k);
    BegunReachable(run, k);
  }
}
