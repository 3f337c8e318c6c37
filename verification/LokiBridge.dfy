/** The Loki-to-file bridge: one cursor shared by two jobs that are polled in turn. */
module LokiBridge {
  import opened Decimal

  const LIMIT: nat := 5000

  datatype Job = Caddy | Traefik

  /** A log line as stored in Loki. The timestamp is a string of digits, in nanoseconds. */
  datatype Line = Line(id: nat, job: Job, node: string, ts: string, text: string)

  // ---- The cursor -------------------------------------------------------------------------

  ghost predicate AllNumeric(lines: seq<Line>) {
    forall i :: 0 <= i < |lines| ==> AllDigits(lines[i].ts)
  }

  function Newer(a: string, b: string): string {
    if Less(a, b) then b else a
  }

  /** Python's `max` over the timestamp strings: the first string that none exceeds. */
  function MaxStamp(lines: seq<Line>): (ts: string)
    requires lines != []
    ensures exists i :: 0 <= i < |lines| && lines[i].ts == ts
  {
    var last := lines[|lines| - 1];
    if |lines| == 1 then last.ts else Newer(MaxStamp(lines[..|lines| - 1]), last.ts)
  }

  /** It is the greatest in Python's order. */
  lemma {:induction false} NoneExceedsMaxStamp(lines: seq<Line>, i: nat)
    requires i < |lines|
    ensures !Less(MaxStamp(lines), lines[i].ts)
  {
    var n := |lines| - 1;
    NotLessThanItself(lines[n].ts);
    if n > 0 {
      var best := MaxStamp(lines[..n]);
      if i < n {
        NoneExceedsMaxStamp(lines[..n], i);
        if Less(best, lines[n].ts) && Less(lines[n].ts, lines[i].ts) {
          LessIsTransitive(best, lines[n].ts, lines[i].ts);
        }
      }
    }
  }

  lemma {:induction false} NotLessThanItself(s: string)
    ensures !Less(s, s)
  {
    if s != "" {
      NotLessThanItself(s[1..]);
    }
  }

  /** The string maximum is the latest time. */
  ghost predicate Latest(lines: seq<Line>)
    requires AllNumeric(lines)
  {
    lines != [] ==> forall i :: 0 <= i < |lines| ==> Value(lines[i].ts) <= Value(MaxStamp(lines))
  }

  lemma MaxIsDigits(lines: seq<Line>)
    requires lines != [] && AllNumeric(lines)
    ensures AllDigits(MaxStamp(lines))
  {
  }

  ghost predicate AllCanonical(lines: seq<Line>) {
    forall i :: 0 <= i < |lines| ==> Canonical(lines[i].ts)
  }

  /** No timestamp has more digits than the string maximum. */
  ghost predicate NoneLonger(lines: seq<Line>) {
    lines != [] ==> forall i :: 0 <= i < |lines| ==> |lines[i].ts| <= |MaxStamp(lines)|
  }

  /** Of timestamps without leading zeros the string maximum is the latest time if and only if none
      has more digits than it; in particular when all have the same number, as nanosecond
      timestamps have from 2001 to 2286. */
  lemma LatestExactly(lines: seq<Line>)
    requires AllCanonical(lines)
    ensures AllNumeric(lines) && (Latest(lines) <==> NoneLonger(lines))
  {
    if lines != [] {
      var best := MaxStamp(lines);
      forall i | 0 <= i < |lines| ensures Value(lines[i].ts) <= Value(best) <==> |lines[i].ts| <= |best| {
        assert Canonical(lines[i].ts) && Canonical(best);
        NoneExceedsMaxStamp(lines, i);
        if |lines[i].ts| < |best| {
          LongerIsGreater(lines[i].ts, best);
        } else if |lines[i].ts| > |best| {
          LongerIsGreater(best, lines[i].ts);
        } else {
          OrderOfNumerals(best, lines[i].ts);
        }
      }
    }
  }

  /** Leading zeros do no harm either if all timestamps have the same number of digits. */
  lemma OneWidthIsLatest(lines: seq<Line>, width: nat)
    requires AllNumeric(lines) && forall i :: 0 <= i < |lines| ==> |lines[i].ts| == width
    ensures Latest(lines)
  {
    if lines != [] {
      forall i | 0 <= i < |lines| ensures Value(lines[i].ts) <= Value(MaxStamp(lines)) {
        NoneExceedsMaxStamp(lines, i);
        OrderOfNumerals(MaxStamp(lines), lines[i].ts);
      }
    }
  }

  /** The cursor after a query returned these lines. */
  function Advance(cursor: int, lines: seq<Line>): int
    requires AllNumeric(lines)
  {
    if lines == [] then cursor
    else
      MaxIsDigits(lines);
      var next := Value(MaxStamp(lines)) + 1;
      if next > cursor then next else cursor
  }

  /** The cursor becomes the nanosecond after the string maximum, but never an earlier one. */
  lemma AdvanceMeaning(cursor: int, lines: seq<Line>, i: nat)
    requires AllNumeric(lines) && i < |lines| && lines[i].ts == MaxStamp(lines)
    ensures Advance(cursor, lines) == if Value(lines[i].ts) >= cursor then Value(lines[i].ts) + 1 else cursor
    ensures Advance(cursor, []) == cursor
  {
  }

  // ---- What Loki answers ------------------------------------------------------------------

  ghost predicate NumericStore(store: set<Line>) {
    forall line :: line in store ==> AllDigits(line.ts)
  }

  ghost function InRange(store: set<Line>, job: Job, start: int, end: int): set<Line>
    requires NumericStore(store)
  {
    set line | line in store && line.job == job && start <= Value(line.ts) < end
  }

  ghost predicate NoRepeats(lines: seq<Line>) {
    forall i, j :: 0 <= i < j < |lines| ==> lines[i] != lines[j]
  }

  /** A range query over the stored lines: nothing when the request fails; else each line of the
      range once, oldest first when they are more than the limit. */
  ghost predicate Answers(store: set<Line>, fails: bool, job: Job, start: int, end: int, lines: seq<Line>)
    requires NumericStore(store)
  {
    var range := InRange(store, job, start, end);
    if fails then lines == []
    else
      && NoRepeats(lines)
      && (forall line :: line in lines ==> line in range)
      && |lines| == (if |range| < LIMIT then |range| else LIMIT)
      && (forall line, left :: line in lines && left in range && left !in lines ==> Value(line.ts) <= Value(left.ts))
  }

  /** One query of the loop: the job, the end of the range, the lines Loki stores by then,
      whether the request fails, and what comes back. */
  datatype Query = Query(job: Job, now: int, store: set<Line>, fails: bool, lines: seq<Line>)

  /** The queries of a run, given the cursor each starts from. */
  ghost predicate Run(cursors: seq<int>, queries: seq<Query>) {
    && |cursors| == |queries| + 1
    && forall i :: 0 <= i < |queries| ==> RunStep(cursors[i], queries[i], cursors[i + 1])
  }

  ghost predicate RunStep(cursor: int, query: Query, next: int) {
    && NumericStore(query.store) && AllNumeric(query.lines)
    && Answers(query.store, query.fails, query.job, cursor, query.now, query.lines)
    && next == Advance(cursor, query.lines)
  }

  /** Rounds poll Caddy and then Traefik, with one clock reading for both; the clock does not
      run backwards, and the start is not in the future. */
  ghost predicate Rounds(queries: seq<Query>, start: int) {
    && |queries| % 2 == 0
    && (|queries| > 0 ==> start <= queries[0].now)
    && (forall r :: 0 <= r < |queries| / 2 ==> IsRound(queries, r))
    && (forall i, j :: 0 <= i < j < |queries| ==> queries[i].now <= queries[j].now)
  }

  ghost predicate IsRound(queries: seq<Query>, r: int)
    requires 0 <= r < |queries| / 2
  {
    && queries[2 * r].job == Caddy && queries[2 * r + 1].job == Traefik
    && queries[2 * r].now == queries[2 * r + 1].now
  }

  lemma LinesAreInRange(cursor: int, query: Query, next: int)
    requires RunStep(cursor, query, next)
    ensures forall line :: line in query.lines ==>
              line in query.store && line.job == query.job && AllDigits(line.ts) && cursor <= Value(line.ts) < query.now
    ensures cursor <= next && (next == cursor || next <= query.now)
  {
    if query.lines != [] {
      var i :| 0 <= i < |query.lines| && query.lines[i].ts == MaxStamp(query.lines);
      assert query.lines[i] in query.lines;
    }
  }

  /** No answer has more than 5000 lines, and one with fewer, unless the query failed, is complete. */
  lemma AnswerIsLimited(cursor: int, query: Query, next: int)
    requires RunStep(cursor, query, next)
    ensures |query.lines| <= 5000
    ensures |query.lines| < 5000 && !query.fails ==>
              forall line :: line in InRange(query.store, query.job, cursor, query.now) ==> line in query.lines
  {
    if !query.fails {
      DistinctFill(query.lines, InRange(query.store, query.job, cursor, query.now));
    }
  }

  /** The cursor passes every line of the answer exactly when the string maximum is the latest. */
  lemma CursorPasses(cursor: int, query: Query, next: int)
    requires RunStep(cursor, query, next)
    ensures Latest(query.lines) <==> forall line :: line in query.lines ==> Value(line.ts) < next
  {
    LinesAreInRange(cursor, query, next);
    if query.lines != [] {
      var i :| 0 <= i < |query.lines| && query.lines[i].ts == MaxStamp(query.lines);
      assert query.lines[i] in query.lines && next == Value(MaxStamp(query.lines)) + 1;
      if forall line :: line in query.lines ==> Value(line.ts) < next {
        assert forall k :: 0 <= k < |query.lines| ==> query.lines[k] in query.lines;
      }
    }
  }

  lemma {:induction false} CursorNeverGoesBack(cursors: seq<int>, queries: seq<Query>, i: nat, j: nat)
    requires Run(cursors, queries) && i <= j < |cursors|
    ensures cursors[i] <= cursors[j]
    decreases j
  {
    if i < j {
      CursorNeverGoesBack(cursors, queries, i, j - 1);
      assert RunStep(cursors[j - 1], queries[j - 1], cursors[j]);
      LinesAreInRange(cursors[j - 1], queries[j - 1], cursors[j]);
    }
  }

  /** A line fetched with an answer whose string maximum is its latest time is never fetched again,
      by either job, whatever fails, arrives late or is cut off by the limit. */
  lemma NoLineTwice(cursors: seq<int>, queries: seq<Query>, i: nat, j: nat, line: Line)
    requires Run(cursors, queries) && i < j < |queries|
    requires RunStep(cursors[i], queries[i], cursors[i + 1]) && Latest(queries[i].lines)
    ensures !(line in queries[i].lines && line in queries[j].lines)
    ensures NoRepeats(queries[i].lines)
  {
    CursorPasses(cursors[i], queries[i], cursors[i + 1]);
    LinesAreInRange(cursors[j], queries[j], cursors[j + 1]);
    CursorNeverGoesBack(cursors, queries, i + 1, j);
  }

  /** The lines of the answer that the cursor has not passed. */
  function From(lines: seq<Line>, cursor: int): seq<Line>
    requires AllNumeric(lines)
  {
    if lines == [] then []
    else
      var n := |lines| - 1;
      From(lines[..n], cursor) + if Value(lines[n].ts) >= cursor then [lines[n]] else []
  }

  lemma {:induction false} FromMeaning(lines: seq<Line>, cursor: int)
    requires AllNumeric(lines)
    ensures forall line ::
              line in From(lines, cursor) <==> line in lines && AllDigits(line.ts) && Value(line.ts) >= cursor
    ensures |From(lines, cursor)| <= |lines| && (NoRepeats(lines) ==> NoRepeats(From(lines, cursor)))
  {
    if lines != [] {
      var n := |lines| - 1;
      FromMeaning(lines[..n], cursor);
      var sub := From(lines[..n], cursor);
      assert lines == lines[..n] + [lines[n]];
      if NoRepeats(lines) {
        assert lines[n] !in lines[..n];
        assert forall i :: 0 <= i < |sub| ==> sub[i] in sub;
      }
    }
  }

  lemma {:induction false} DistinctFill(lines: seq<Line>, range: set<Line>)
    requires NoRepeats(lines)
    requires forall line :: line in lines ==> line in range
    ensures |lines| <= |range|
    ensures |lines| == |range| ==> forall line :: line in range ==> line in lines
  {
    if lines == [] {
    } else {
      var last := lines[|lines| - 1];
      assert last in lines;
      DistinctFill(lines[..|lines| - 1], range - {last});
      assert lines == lines[..|lines| - 1] + [last];
    }
  }

  /** A listing without repetition of a set is as long as the set is large. */
  lemma SameElements(lines: seq<Line>, range: set<Line>)
    requires NoRepeats(lines)
    requires forall line :: line in lines <==> line in range
    ensures |lines| == |range|
  {
    DistinctFill(lines, range);
    if |lines| < |range| {
      ListedAll(lines, range);
    }
  }

  lemma {:induction false} ListedAll(lines: seq<Line>, range: set<Line>)
    requires forall line :: line in range ==> line in lines
    ensures |range| <= |lines|
  {
    if lines == [] {
      assert range == {};
    } else {
      var n := |lines| - 1;
      assert lines == lines[..n] + [lines[n]];
      ListedAll(lines[..n], range - {lines[n]});
    }
  }

  /** n lines of the set, or all if they are fewer, none of them later than one left out. */
  ghost predicate Oldest(lines: seq<Line>, range: set<Line>, n: nat)
    requires NumericStore(range)
  {
    && NoRepeats(lines) && (forall line :: line in lines ==> line in range)
    && |lines| == (if |range| < n then |range| else n)
    && (forall line, left :: line in lines && left in range && left !in lines ==> Value(line.ts) <= Value(left.ts))
  }

  lemma {:induction false} EarliestLine(range: set<Line>) returns (first: Line)
    requires NumericStore(range) && range != {}
    ensures first in range && forall line :: line in range ==> Value(first.ts) <= Value(line.ts)
  {
    first :| first in range;
    var any, rest := first, range - {first};
    assert forall line :: line in range ==> line == any || line in rest;
    if rest != {} {
      var other := EarliestLine(rest);
      first := if Value(other.ts) < Value(any.ts) then other else any;
    }
  }

  lemma {:induction false} OldestLines(range: set<Line>, n: nat) returns (lines: seq<Line>)
    requires NumericStore(range)
    ensures Oldest(lines, range, n)
    decreases n
  {
    lines := [];
    if n > 0 && range != {} {
      var first := EarliestLine(range);
      var rest := range - {first};
      var later := OldestLines(rest, n - 1);
      lines := [first] + later;
      assert forall line :: line in lines <==> line == first || line in later;
      assert forall i :: 0 <= i < |later| ==> later[i] in later;
    }
  }

  /** Lines no later than the rest are completed by the oldest lines of the rest. */
  lemma OldestComplete(kept: seq<Line>, range: set<Line>, n: nat) returns (lines: seq<Line>)
    requires NumericStore(range) && NoRepeats(kept) && |kept| <= n
    requires forall line :: line in kept ==> line in range
    requires forall line, left ::
               line in kept && left in range && left !in kept ==> Value(line.ts) <= Value(left.ts)
    ensures Oldest(lines, range, n) && forall line :: line in kept ==> line in lines
  {
    var listed := set line | line in kept;
    SameElements(kept, listed);
    var rest := OldestLines(range - listed, n - |kept|);
    lines := kept + rest;
    assert |range - listed| == |range| - |listed|;
    assert forall line :: line in lines <==> line in kept || line in rest;
    forall i, j | 0 <= i < j < |lines| ensures lines[i] != lines[j] {
      assert i < |kept| ==> lines[i] in kept;
      assert j >= |kept| ==> lines[j] in rest;
    }
  }

  /** Whatever was cut off, the lines that the cursor has not passed can head the answer to a query
      from it on, at any later time. */
  lemma AnswerAgain(cursor: int, query: Query, next: int, later: int) returns (again: Query)
    requires RunStep(cursor, query, next) && !query.fails && query.now <= later
    ensures again == Query(query.job, later, query.store, false, again.lines)
    ensures AllNumeric(again.lines) && RunStep(next, again, Advance(next, again.lines))
    ensures forall line :: line in From(query.lines, next) ==> line in again.lines
  {
    var kept, range := From(query.lines, next), InRange(query.store, query.job, next, later);
    FromMeaning(query.lines, next);
    LinesAreInRange(cursor, query, next);
    assert |query.lines| <= LIMIT;
    forall line, left | line in kept && left in range && left !in kept ensures Value(line.ts) <= Value(left.ts) {
      if Value(left.ts) < query.now {
        assert left in InRange(query.store, query.job, cursor, query.now);
      }
    }
    var lines := OldestComplete(kept, range, LIMIT);
    again := Query(query.job, later, query.store, false, lines);
    assert forall i :: 0 <= i < |lines| ==> lines[i] in lines;
  }

  /** A query whose request fails. */
  function Refused(job: Job, now: int): Query {
    Query(job, now, {}, true, [])
  }

  lemma RefusedIsStep(cursor: int, job: Job, now: int)
    ensures RunStep(cursor, Refused(job, now), cursor)
  {
  }

  lemma FourSteps(cursors: seq<int>, queries: seq<Query>)
    requires |cursors| == 5 && |queries| == 4
    requires RunStep(cursors[0], queries[0], cursors[1]) && RunStep(cursors[1], queries[1], cursors[2])
    requires RunStep(cursors[2], queries[2], cursors[3]) && RunStep(cursors[3], queries[3], cursors[4])
    ensures Run(cursors, queries)
  {
    forall i | 0 <= i < 4 ensures RunStep(cursors[i], queries[i], cursors[i + 1]) {
      if i == 0 {
        assert RunStep(cursors[0], queries[0], cursors[1]);
      } else if i == 1 {
        assert RunStep(cursors[1], queries[1], cursors[2]);
      } else if i == 2 {
        assert RunStep(cursors[2], queries[2], cursors[3]);
      } else {
        assert RunStep(cursors[3], queries[3], cursors[4]);
      }
    }
  }

  lemma TwoRounds(queries: seq<Query>, start: int)
    requires |queries| == 4 && queries[0].job == queries[2].job == Caddy && queries[1].job == queries[3].job == Traefik
    requires start <= queries[0].now == queries[1].now <= queries[2].now == queries[3].now
    ensures Rounds(queries, start)
  {
    assert IsRound(queries, 0) && IsRound(queries, 1);
  }

  lemma FourQueries(a: int, q0: Query, b: int, q1: Query, c: int, q2: Query, d: int, q3: Query, e: int)
    returns (cursors: seq<int>, queries: seq<Query>)
    requires RunStep(a, q0, b) && RunStep(b, q1, c) && RunStep(c, q2, d) && RunStep(d, q3, e)
    requires q0.job == q2.job == Caddy && q1.job == q3.job == Traefik
    requires a <= q0.now == q1.now <= q2.now == q3.now
    ensures Run(cursors, queries) && Rounds(queries, cursors[0]) && |queries| == 4
    ensures queries[0] == q0 && queries[1] == q1 && queries[2] == q2 && queries[3] == q3
    ensures cursors[0] == a && cursors[1] == b
  {
    cursors, queries := [a, b, c, d, e], [q0, q1, q2, q3];
    FourSteps(cursors, queries);
    TwoRounds(queries, a);
  }

  /** Two queries of a job can be those of two successive rounds. */
  lemma InSuccessiveRounds(cursor: int, query: Query, next: int, again: Query, last: int)
    returns (cursors: seq<int>, queries: seq<Query>, i: nat)
    requires RunStep(cursor, query, next) && RunStep(next, again, last) && query.job == again.job
    requires cursor <= query.now <= again.now
    ensures Run(cursors, queries) && Rounds(queries, cursors[0])
    ensures i + 2 < |queries| && cursors[i] == cursor && queries[i] == query && queries[i + 2] == again
  {
    var other := if query.job == Caddy then Traefik else Caddy;
    var first, second := Refused(other, query.now), Refused(other, again.now);
    if query.job == Caddy {
      RefusedIsStep(next, other, query.now);
      RefusedIsStep(last, other, again.now);
      cursors, queries := FourQueries(cursor, query, next, first, next, again, last, second, last);
      i := 0;
    } else {
      RefusedIsStep(cursor, other, query.now);
      RefusedIsStep(next, other, again.now);
      cursors, queries := FourQueries(cursor, first, cursor, query, next, second, next, again, last);
      i := 1;
    }
  }

  /** The lines of the answer that the cursor has not passed can come again in the next round,
      at any time, if the other job's requests fail. */
  lemma NextRoundFetches(cursor: int, query: Query, next: int, later: int)
    returns (cursors: seq<int>, queries: seq<Query>, i: nat)
    requires RunStep(cursor, query, next) && !query.fails && cursor <= query.now <= later
    ensures Run(cursors, queries) && Rounds(queries, cursors[0])
    ensures i + 2 < |queries| && cursors[i] == cursor && queries[i] == query && queries[i + 2].now == later
    ensures forall line :: line in From(query.lines, next) ==> line in queries[i + 2].lines
  {
    var again := AnswerAgain(cursor, query, next, later);
    cursors, queries, i := InSuccessiveRounds(cursor, query, next, again, Advance(next, again.lines));
  }

  /** The i-th query of these rounds is the given one, and the j-th fetches a line of its answer. */
  ghost predicate FetchesAgain(cursors: seq<int>, queries: seq<Query>, cursor: int, query: Query, i: int, j: int) {
    && Run(cursors, queries) && Rounds(queries, cursors[0]) && 0 <= i < j < |queries|
    && cursors[i] == cursor && queries[i] == query && exists line :: line in query.lines && line in queries[j].lines
  }

  ghost predicate CanFetchAgain(cursor: int, query: Query) {
    exists cursors: seq<int>, queries: seq<Query>, i: int, j: int :: FetchesAgain(cursors, queries, cursor, query, i, j)
  }

  lemma LeftForNextRound(cursor: int, query: Query, next: int)
    requires RunStep(cursor, query, next) && !Latest(query.lines)
    ensures !query.fails && cursor <= query.now && From(query.lines, next) != []
  {
    var line :| line in query.lines && !(AllDigits(line.ts) && Value(line.ts) < next) by {
      CursorPasses(cursor, query, next);
    }
    LinesAreInRange(cursor, query, next);
    FromMeaning(query.lines, next);
    assert line in From(query.lines, next);
  }

  /** That the maximum is the latest is exactly what it takes: rounds with this query can fetch a
      line of its answer a second time if and only if the string maximum is not the latest. */
  lemma FetchedAgainExactly(cursor: int, query: Query, next: int)
    requires RunStep(cursor, query, next)
    ensures CanFetchAgain(cursor, query) <==> !Latest(query.lines)
  {
    if cursors: seq<int>, queries: seq<Query>, i: int, j: int :| FetchesAgain(cursors, queries, cursor, query, i, j) {
      var line :| line in query.lines && line in queries[j].lines;
      assert RunStep(cursors[i], queries[i], cursors[i + 1]);
      if Latest(query.lines) {
        NoLineTwice(cursors, queries, i, j, line);
      }
    }
    if !Latest(query.lines) {
      LeftForNextRound(cursor, query, next);
      var cursors, queries, i := NextRoundFetches(cursor, query, next, query.now);
      FromMeaning(query.lines, next);
      var line := From(query.lines, next)[0];
      assert line in From(query.lines, next);
      assert line in query.lines && line in queries[i + 2].lines;
      assert FetchesAgain(cursors, queries, cursor, query, i, i + 2);
    }
  }

  /** An answer with an 18-digit timestamp that starts with a 9 and a 19-digit one. */
  lemma ShortHidesLong(short: Line, long: Line, query: Query, next: int)
    requires short.job == long.job == Caddy && Canonical(short.ts) && Canonical(long.ts)
    requires |short.ts| == 18 && |long.ts| == 19 && short.ts[0] == '9' && long.ts[0] == '1'
    requires query == Query(Caddy, Value(long.ts) + 1, {short, long}, false, [short, long])
    requires next == Value(short.ts) + 1
    ensures RunStep(0, query, next)
    ensures long in From(query.lines, next)
  {
    var lines := query.lines;
    assert lines[0] == short && lines[1] == long && lines[..1] == [short];
    LongerIsGreater(short.ts, long.ts);
    assert MaxStamp([short]) == short.ts && MaxStamp(lines) == short.ts;
    assert InRange(query.store, Caddy, 0, query.now) == query.store;
    FromMeaning(lines, next);
    assert long in lines;
  }

  lemma FetchedTwice(short: Line, long: Line, pause: nat) returns (cursors: seq<int>, queries: seq<Query>, i: nat)
    requires short.job == long.job == Caddy && Canonical(short.ts) && Canonical(long.ts)
    requires |short.ts| == 18 && |long.ts| == 19 && short.ts[0] == '9' && long.ts[0] == '1'
    ensures Run(cursors, queries) && Rounds(queries, cursors[0]) && i + 2 < |queries|
    ensures short in queries[i].lines && long in queries[i].lines && long in queries[i + 2].lines
    ensures queries[i + 2].now == queries[i].now + pause
  {
    var query := Query(Caddy, Value(long.ts) + 1, {short, long}, false, [short, long]);
    var next := Value(short.ts) + 1;
    ShortHidesLong(short, long, query, next);
    cursors, queries, i := NextRoundFetches(0, query, next, query.now + pause);
    assert query.lines[0] == short && query.lines[1] == long;
  }

  /** Rounds of the loop, with any time between them, that fetch a line twice: its timestamp has 19
      digits, that of another line 18. */
  lemma WidthsMatter(pause: nat) returns (cursors: seq<int>, queries: seq<Query>, i: nat, short: Line, long: Line)
    ensures Run(cursors, queries) && Rounds(queries, cursors[0]) && i + 2 < |queries|
    ensures queries[i + 2].now == queries[i].now + pause
    ensures long in queries[i].lines && long in queries[i + 2].lines
    ensures short in queries[i].lines && |short.ts| == 18 && |long.ts| == 19
  {
    short := Line(0, Caddy, "", "999999999999999999", "");
    long := Line(1, Caddy, "", "1000000000000000000", "");
    cursors, queries, i := FetchedTwice(short, long, pause);
  }

  // ---- What each job delivers -------------------------------------------------------------

  /** Nothing goes wrong with the query: it does not fail, no line that will ever carry a
      timestamp before its end is still to arrive, and the limit does not cut it. */
  ghost predicate Clean(all: set<Line>, cursor: int, query: Query)
    requires NumericStore(query.store)
    requires NumericStore(all)
  {
    && !query.fails && query.store <= all
    && (forall line :: line in all && line.job == query.job && Value(line.ts) < query.now ==> line in query.store)
    && |InRange(query.store, query.job, cursor, query.now)| <= LIMIT
  }

  /** A clean query returns exactly the job's lines of its range. */
  lemma CleanIsExact(all: set<Line>, cursor: int, query: Query, next: int)
    requires NumericStore(all)
    requires RunStep(cursor, query, next) && Clean(all, cursor, query)
    ensures forall line :: line in query.lines <==>
              line in all && line.job == query.job && cursor <= Value(line.ts) < query.now
  {
    var range := InRange(query.store, query.job, cursor, query.now);
    DistinctFill(query.lines, range);
    forall line | line in all && line.job == query.job && cursor <= Value(line.ts) < query.now
      ensures line in query.lines
    {
      assert line in range;
    }
  }

  ghost predicate CleanRun(all: set<Line>, cursors: seq<int>, queries: seq<Query>) {
    && NumericStore(all) && Run(cursors, queries) && Rounds(queries, cursors[0])
    && forall i :: 0 <= i < |queries| ==> NumericStore(queries[i].store) && Clean(all, cursors[i], queries[i])
  }

  /** The cursor never passes the clock of the round that moved it. */
  lemma {:induction false} CursorBehindClock(cursors: seq<int>, queries: seq<Query>, i: nat)
    requires Run(cursors, queries) && Rounds(queries, cursors[0]) && i < |queries|
    ensures cursors[i + 1] <= queries[i].now
  {
    LinesAreInRange(cursors[i], queries[i], cursors[i + 1]);
    if i > 0 {
      CursorBehindClock(cursors, queries, i - 1);
    }
  }

  /** The first round whose clock is past the time. */
  ghost predicate FirstRound(queries: seq<Query>, time: int, r: int) {
    && 0 <= r < |queries| / 2 && time < queries[2 * r].now
    && (r > 0 ==> queries[2 * r - 1].now <= time)
  }

  lemma RoundStartsBehind(cursors: seq<int>, queries: seq<Query>, time: int, r: int)
    requires Run(cursors, queries) && Rounds(queries, cursors[0])
    requires FirstRound(queries, time, r) && cursors[0] <= time
    ensures cursors[2 * r] <= time
  {
    if r > 0 {
      CursorBehindClock(cursors, queries, 2 * r - 1);
    }
  }

  /** The job polled first misses nothing from the start time on: each of its lines is fetched
      in the first round whose clock is past the line. */
  lemma FirstJobMissesNothing(all: set<Line>, cursors: seq<int>, queries: seq<Query>, line: Line, r: int)
    requires CleanRun(all, cursors, queries)
    requires line in all && line.job == Caddy && cursors[0] <= Value(line.ts)
    requires FirstRound(queries, Value(line.ts), r)
    ensures line in queries[2 * r].lines
  {
    RoundStartsBehind(cursors, queries, Value(line.ts), r);
    assert IsRound(queries, r);
    CleanIsExact(all, cursors[2 * r], queries[2 * r], cursors[2 * r + 1]);
  }

  /** The line is delivered by some query of the run. */
  ghost predicate Delivered(queries: seq<Query>, line: Line) {
    exists i :: 0 <= i < |queries| && line in queries[i].lines
  }

  /** The string maximum of the answer, if there is one, is before the time. */
  ghost predicate MaxBefore(lines: seq<Line>, time: int)
    requires AllNumeric(lines)
  {
    lines != [] ==> AllDigits(MaxStamp(lines)) && Value(MaxStamp(lines)) < time
  }

  /** Every line of the answer is before the time. */
  ghost predicate AllBefore(lines: seq<Line>, time: int)
    requires AllNumeric(lines)
  {
    forall i :: 0 <= i < |lines| ==> Value(lines[i].ts) < time
  }

  lemma CursorAgainstTime(cursor: int, query: Query, next: int, time: int)
    requires RunStep(cursor, query, next) && cursor <= time
    ensures next <= time <==> MaxBefore(query.lines, time)
    ensures Latest(query.lines) ==> (MaxBefore(query.lines, time) <==> AllBefore(query.lines, time))
  {
    if query.lines != [] {
      MaxIsDigits(query.lines);
      var i :| 0 <= i < |query.lines| && query.lines[i].ts == MaxStamp(query.lines);
      LinesAreInRange(cursor, query, next);
    }
  }

  lemma CleanQuery(all: set<Line>, cursors: seq<int>, queries: seq<Query>, i: nat, line: Line)
    requires CleanRun(all, cursors, queries) && i < |queries| && line in all && line.job == queries[i].job
    ensures RunStep(cursors[i], queries[i], cursors[i + 1]) && AllDigits(line.ts)
    ensures line in queries[i].lines <==> cursors[i] <= Value(line.ts) < queries[i].now
  {
    CleanIsExact(all, cursors[i], queries[i], cursors[i + 1]);
  }

  lemma RoundIsClean(all: set<Line>, cursors: seq<int>, queries: seq<Query>, line: Line, r: int)
    requires CleanRun(all, cursors, queries)
    requires line in all && line.job == Traefik && cursors[0] <= Value(line.ts)
    requires FirstRound(queries, Value(line.ts), r)
    ensures line in queries[2 * r + 1].lines <==> cursors[2 * r + 1] <= Value(line.ts)
    ensures RunStep(cursors[2 * r], queries[2 * r], cursors[2 * r + 1]) && cursors[2 * r] <= Value(line.ts)
  {
    RoundStartsBehind(cursors, queries, Value(line.ts), r);
    assert IsRound(queries, r);
    CleanQuery(all, cursors, queries, 2 * r + 1, line);
  }

  /** The job polled second misses exactly its lines at or below the maximum of what the first job
      fetched in the first round whose clock is past the line: at or below the first job's newest
      line, if the string maximum is the latest time. */
  lemma SecondJobMissesExactly(all: set<Line>, cursors: seq<int>, queries: seq<Query>, line: Line, r: int)
    requires CleanRun(all, cursors, queries)
    requires line in all && line.job == Traefik && cursors[0] <= Value(line.ts)
    requires FirstRound(queries, Value(line.ts), r)
    ensures AllNumeric(queries[2 * r].lines)
    ensures Delivered(queries, line) <==> MaxBefore(queries[2 * r].lines, Value(line.ts))
    ensures Latest(queries[2 * r].lines)
            ==> (Delivered(queries, line) <==> AllBefore(queries[2 * r].lines, Value(line.ts)))
  {
    RoundIsClean(all, cursors, queries, line, r);
    CursorAgainstTime(cursors[2 * r], queries[2 * r], cursors[2 * r + 1], Value(line.ts));
    if cursors[2 * r + 1] <= Value(line.ts) {
      assert 0 <= 2 * r + 1 < |queries| && line in queries[2 * r + 1].lines;
    } else {
      forall i | 0 <= i < |queries| ensures line !in queries[i].lines {
        MissedElsewhere(cursors, queries, line, r, i);
      }
    }
  }

  lemma MissedElsewhere(cursors: seq<int>, queries: seq<Query>, line: Line, r: int, i: nat)
    requires Run(cursors, queries) && Rounds(queries, cursors[0]) && i < |queries|
    requires line.job == Traefik && AllDigits(line.ts)
    requires FirstRound(queries, Value(line.ts), r) && cursors[2 * r + 1] > Value(line.ts)
    ensures line !in queries[i].lines
  {
    LinesAreInRange(cursors[i], queries[i], cursors[i + 1]);
    assert IsRound(queries, r);
    if i > 2 * r {
      CursorNeverGoesBack(cursors, queries, 2 * r + 1, i);
    } else if i < 2 * r {
      assert queries[i].now <= queries[2 * r - 1].now;
    }
  }
}
