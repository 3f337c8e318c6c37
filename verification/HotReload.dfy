/** Hot reload of a file by mtime polling, as the edge sidecar does for its allow-list and for
    its JWT secret. The stat and the read are separate steps; writers may come in between. */
module HotReload {
  import opened Wrappers

  /** What the sidecar holds in memory: the decoded content, and the mtime it is filed under. */
  datatype Cell<V> = Cell(value: V, mtime: int)

  /** One call of `reloadIfChanged`, given what stat and the read (if it comes to that) return. */
  function Reload<Raw, V>(cell: Cell<V>, stat: Option<int>, raw: Option<Raw>, decode: Raw -> Option<V>): Cell<V> {
    if stat.Some? && stat.value > cell.mtime && raw.Some? && decode(raw.value).Some?
    then Cell(decode(raw.value).value, stat.value)
    else cell
  }

  datatype File<Raw> = Absent | Present(mtime: int, raw: Raw)

  datatype Poller<Raw> = Idle | Statted(mtime: int) | HasRead(mtime: int, raw: Raw)

  /** `newest` is the largest mtime the file has ever had. */
  datatype State<Raw, V> = State(file: File<Raw>, newest: int, cell: Cell<V>, poller: Poller<Raw>)

  datatype Step<Raw> =
    | Write(mtime: int, raw: Raw)
    | Remove
    | Stat
    | Read(fails: bool)
    | Store

  predicate Enabled<Raw, V>(s: State<Raw, V>, step: Step<Raw>) {
    match step
    case Write(mtime, _) => mtime > s.newest
    case Remove => true
    case Stat => s.poller.Idle?
    case Read(_) => s.poller.Statted?
    case Store => s.poller.HasRead?
  }

  function Apply<Raw, V>(s: State<Raw, V>, step: Step<Raw>, decode: Raw -> Option<V>): State<Raw, V>
    requires Enabled(s, step)
  {
    match step
    case Write(mtime, raw) => s.(file := Present(mtime, raw), newest := mtime)
    case Remove => s.(file := Absent)
    case Stat =>
      if s.file.Present? && s.file.mtime > s.cell.mtime then s.(poller := Statted(s.file.mtime)) else s
    case Read(fails) =>
      if fails || s.file.Absent? then s.(poller := Idle)
      else s.(poller := HasRead(s.poller.mtime, s.file.raw))
    case Store =>
      s.(cell := Reload(s.cell, Some(s.poller.mtime), Some(s.poller.raw), decode), poller := Idle)
  }

  /** At the start the cell is filed under the zero time, before every file mtime. */
  ghost predicate Init<Raw, V>(s: State<Raw, V>) {
    && s.cell.mtime == 0 <= s.newest && s.poller.Idle?
    && (s.file.Present? ==> 0 < s.file.mtime == s.newest)
  }

  datatype Run<Raw, V> = Run(states: seq<State<Raw, V>>, steps: seq<Step<Raw>>)

  ghost predicate Follows<Raw, V>(run: Run<Raw, V>, decode: Raw -> Option<V>, k: nat)
    requires k < |run.steps| && |run.states| == |run.steps| + 1
  {
    && Enabled(run.states[k], run.steps[k])
    && run.states[k + 1] == Apply(run.states[k], run.steps[k], decode)
  }

  ghost predicate Valid<Raw, V>(run: Run<Raw, V>, decode: Raw -> Option<V>) {
    && |run.states| == |run.steps| + 1
    && Init(run.states[0])
    && forall k :: 0 <= k < |run.steps| ==> Follows(run, decode, k)
  }

  /** Whenever the cell is filed under the file's mtime, it holds the file's content. */
  ghost predicate Coherent<Raw, V>(s: State<Raw, V>, decode: Raw -> Option<V>) {
    s.file.Present? && s.file.mtime == s.cell.mtime ==> decode(s.file.raw) == Some(s.cell.value)
  }

  ghost predicate Inv<Raw, V>(s: State<Raw, V>, decode: Raw -> Option<V>) {
    && Coherent(s, decode)
    && s.cell.mtime <= s.newest
    && (s.file.Present? ==> s.file.mtime == s.newest)
    && (!s.poller.Idle? ==> s.cell.mtime < s.poller.mtime <= s.newest)
    && (s.poller.HasRead? && s.file.Present? && s.file.mtime == s.poller.mtime ==> s.poller.raw == s.file.raw)
  }

  lemma {:induction false} InvReachable<Raw, V>(run: Run<Raw, V>, decode: Raw -> Option<V>, k: nat)
    requires Valid(run, decode) && k < |run.states|
    ensures Inv(run.states[k], decode)
  {
    if k > 0 {
      InvReachable(run, decode, k - 1);
      assert Follows(run, decode, k - 1);
    }
  }

  /** In every run the cell's content is the file's content whenever the mtimes agree, even
      though a writer may replace the file between the stat and the read. */
  lemma CellMatchesFile<Raw, V>(run: Run<Raw, V>, decode: Raw -> Option<V>, k: nat)
    requires Valid(run, decode) && k < |run.states|
    ensures Coherent(run.states[k], decode)
  {
    InvReachable(run, decode, k);
  }

  lemma {:induction false} MtimeNeverDecreases<Raw, V>(run: Run<Raw, V>, decode: Raw -> Option<V>, i: nat, j: nat)
    requires Valid(run, decode) && i <= j < |run.states|
    ensures run.states[i].cell.mtime <= run.states[j].cell.mtime
    ensures run.states[i].cell.mtime == run.states[j].cell.mtime ==> run.states[i].cell == run.states[j].cell
    decreases j
  {
    if i < j {
      MtimeNeverDecreases(run, decode, i, j - 1);
      InvReachable(run, decode, j - 1);
      assert Follows(run, decode, j - 1);
    }
  }

  /** The cell's content is the initial one, or the decoding of something that was the file's
      content at some time. */
  lemma {:induction false} CellWasWritten<Raw, V>(run: Run<Raw, V>, decode: Raw -> Option<V>, k: nat)
    requires Valid(run, decode) && k < |run.states|
    ensures run.states[k].cell == run.states[0].cell
            || exists raw :: WasFile(run, k, raw) && decode(raw) == Some(run.states[k].cell.value)
    ensures run.states[k].poller.HasRead? ==> WasFile(run, k, run.states[k].poller.raw)
  {
    if k > 0 {
      CellWasWritten(run, decode, k - 1);
      assert Follows(run, decode, k - 1);
      var before := run.states[k - 1];
      if before.cell != run.states[0].cell {
        var raw :| WasFile(run, k - 1, raw) && decode(raw) == Some(before.cell.value);
        assert WasFile(run, k, raw);
      }
      if before.poller.HasRead? {
        assert WasFile(run, k, before.poller.raw);
      }
      if run.steps[k - 1].Read? && before.file.Present? {
        assert WasFile(run, k, before.file.raw);
      }
    }
  }

  ghost predicate WasFile<Raw, V>(run: Run<Raw, V>, k: nat, raw: Raw) {
    exists i :: 0 <= i <= k < |run.states| && run.states[i].file.Present? && run.states[i].file.raw == raw
  }

  /** A value that no content decodes to is never cached once it is gone; for the secret this is
      the empty string. */
  lemma {:induction false} NeverDecodedNeverReturns<Raw, V>(run: Run<Raw, V>, decode: Raw -> Option<V>, v: V, i: nat,
                                                            j: nat)
    requires Valid(run, decode) && i <= j < |run.states|
    requires forall raw :: decode(raw) != Some(v)
    ensures run.states[i].cell.value != v ==> run.states[j].cell.value != v
    decreases j
  {
    if i < j {
      NeverDecodedNeverReturns(run, decode, v, i, j - 1);
      assert Follows(run, decode, j - 1);
    }
  }

  /** One whole poll with no writer in between. */
  function Poll<Raw, V>(s: State<Raw, V>, decode: Raw -> Option<V>): State<Raw, V>
    requires s.poller.Idle?
  {
    var s1 := Apply(s, Stat, decode);
    if s1.poller.Idle? then s1
    else
      var s2 := Apply(s1, Read(false), decode);
      if s2.poller.Idle? then s2 else Apply(s2, Store, decode)
  }

  /** Once writes have stopped, one poll files a well-formed file's content under its mtime; a
      malformed or missing file leaves the cell as it was. */
  lemma OnePollSettles<Raw, V>(run: Run<Raw, V>, decode: Raw -> Option<V>, k: nat)
    requires Valid(run, decode) && k < |run.states| && run.states[k].poller.Idle?
    ensures var s := run.states[k]; var t := Poll(s, decode);
            && t.file == s.file && t.poller.Idle?
            && (s.file.Present? && decode(s.file.raw).Some?
                ==> t.cell == Cell(decode(s.file.raw).value, s.file.mtime))
            && (s.file.Absent? || decode(s.file.raw).None? ==> t.cell == s.cell)
  {
    InvReachable(run, decode, k);
  }
}
