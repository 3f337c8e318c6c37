/** The loop of the Loki bridge: what its rounds ask, and what ends up in the files. */
module LokiLoop {
  import opened Strings
  import opened Decimal
  import opened LokiBridge

  function Prefix(job: Job): string {
    match job
    case Caddy => "node_"
    case Traefik => "agent_traefik_"
  }

  /** A node's file: characters other than letters, digits, "-" and "_" become "_". */
  function FileName(prefix: string, node: string, alnum: char -> bool): string {
    prefix + Map(node, c => if alnum(c) || c == '-' || c == '_' then c else '_') + ".log"
  }

  /** The files of the two jobs never coincide, and the pattern "node_*" picks Caddy's alone. */
  lemma JobsKeepApart(a: string, b: string, alnum: char -> bool)
    ensures FileName(Prefix(Caddy), a, alnum) != FileName(Prefix(Traefik), b, alnum)
    ensures "node_" <= FileName(Prefix(Caddy), a, alnum)
    ensures !("node_" <= FileName(Prefix(Traefik), b, alnum))
  {
    assert FileName(Prefix(Caddy), a, alnum)[0] == 'n';
    assert FileName(Prefix(Traefik), b, alnum)[0] == 'a';
  }

  /** A character that goes into the file name as it is. */
  ghost predicate Safe(alnum: char -> bool, c: char) {
    alnum(c) || c == '-' || c == '_'
  }

  /** The file's name is the job's prefix, one character for each of the node's, and ".log". */
  lemma FileNameMeaning(job: Job, node: string, alnum: char -> bool, i: nat)
    requires i < |node|
    ensures var prefix := if job == Caddy then "node_" else "agent_traefik_";
            var name := FileName(Prefix(job), node, alnum);
            && |name| == |prefix| + |node| + 4 && prefix <= name && name[|name| - 4..] == ".log"
            && name[|prefix| + i] == if Safe(alnum, node[i]) then node[i] else '_'
  {
    var prefix, name := Prefix(job), FileName(Prefix(job), node, alnum);
    assert name[|name| - 4..] == ".log";
    assert name[..|prefix|] == prefix;
  }

  /** Two nodes share a file exactly if they agree on all characters but those that become "_". */
  lemma SharedFileExactly(job: Job, a: string, b: string, alnum: char -> bool)
    ensures FileName(Prefix(job), a, alnum) == FileName(Prefix(job), b, alnum)
            <==> |a| == |b| && forall i :: 0 <= i < |a| ==>
                   a[i] == b[i] || ((a[i] == '_' || !Safe(alnum, a[i])) && (b[i] == '_' || !Safe(alnum, b[i])))
  {
    var p, x, y := Prefix(job), FileName(Prefix(job), a, alnum), FileName(Prefix(job), b, alnum);
    var change := c => if alnum(c) || c == '-' || c == '_' then c else '_';
    assert x == p + Map(a, change) + ".log" && y == p + Map(b, change) + ".log";
    if |a| == |b| {
      assert x == y <==> Map(a, change) == Map(b, change) by {
        assert x[|p|..|p| + |a|] == Map(a, change) && y[|p|..|p| + |b|] == Map(b, change);
      }
    }
  }

  /** What the lines add to file `f`, if the writes that `writes` says succeed do: their texts,
      in order, each ended by a line break. */
  function Routed(lines: seq<Line>, prefix: string, alnum: char -> bool, writes: nat -> bool, f: string): seq<string> {
    if lines == [] then []
    else
      var n := |lines| - 1;
      Routed(lines[..n], prefix, alnum, writes, f) + Addition(lines[n], prefix, alnum, writes(n), f)
  }

  /** What one line adds to file `f`. */
  function Addition(line: Line, prefix: string, alnum: char -> bool, written: bool, f: string): seq<string> {
    if FileName(prefix, line.node, alnum) == f && written then [line.text + "\n"] else []
  }

  lemma RoutedNext(lines: seq<Line>, i: nat, prefix: string, alnum: char -> bool, writes: nat -> bool, f: string)
    requires i < |lines|
    ensures Routed(lines[..i + 1], prefix, alnum, writes, f)
            == Routed(lines[..i], prefix, alnum, writes, f)
               + Addition(lines[i], prefix, alnum, writes(i), f)
  {
    assert lines[..i + 1][..i] == lines[..i];
  }

  function Content(files: map<string, seq<string>>, f: string): seq<string> {
    if f in files then files[f] else []
  }

  /** Each file has grown by the texts routed to it, and by nothing else. */
  ghost predicate Wrote(before: map<string, seq<string>>, after: map<string, seq<string>>, lines: seq<Line>,
                        prefix: string, alnum: char -> bool, writes: nat -> bool) {
    forall f :: Content(after, f) == Content(before, f) + Routed(lines, prefix, alnum, writes, f)
  }

  lemma WroteNext(start: map<string, seq<string>>, before: map<string, seq<string>>, after: map<string, seq<string>>,
                  lines: seq<Line>, i: nat, prefix: string, alnum: char -> bool, writes: nat -> bool)
    requires i < |lines| && Wrote(start, before, lines[..i], prefix, alnum, writes)
    requires var name := FileName(prefix, lines[i].node, alnum);
             after == if writes(i) then before[name := Content(before, name) + [lines[i].text + "\n"]] else before
    ensures Wrote(start, after, lines[..i + 1], prefix, alnum, writes)
  {
    forall f ensures Content(after, f) == Content(start, f) + Routed(lines[..i + 1], prefix, alnum, writes, f) {
      var routed, more := Routed(lines[..i], prefix, alnum, writes, f), Addition(lines[i], prefix, alnum, writes(i), f);
      assert Content(after, f) == Content(before, f) + more;
      RoutedNext(lines, i, prefix, alnum, writes, f);
      Reassociate(Content(start, f), routed, more);
    }
  }

  lemma Reassociate<T>(a: seq<T>, b: seq<T>, c: seq<T>)
    ensures (a + b) + c == a + (b + c)
  {
  }

  /** The clock, Loki and the disk, as one round meets them. */
  datatype Round = Round(now: int, loki: (Job, int, int) -> seq<Line>, alnum: char -> bool, writes: Job -> nat -> bool)

  ghost predicate Digits(round: Round) {
    forall job, start, end :: AllNumeric(round.loki(job, start, end))
  }

  lemma AnswerIsNumeric(round: Round, job: Job, start: int, end: int)
    requires Digits(round)
    ensures AllNumeric(round.loki(job, start, end))
  {
  }

  /** The cursor between the two jobs of a round, and after the round. */
  function Middle(cursor: int, round: Round): int
    requires Digits(round)
  {
    Advance(cursor, round.loki(Caddy, cursor, round.now))
  }

  function After(cursor: int, round: Round): int
    requires Digits(round)
  {
    Advance(Middle(cursor, round), round.loki(Traefik, Middle(cursor, round), round.now))
  }

  /** What the two jobs of a round add to file `f`. */
  function Adds(cursor: int, round: Round, f: string): seq<string>
    requires Digits(round)
  {
    Routed(round.loki(Caddy, cursor, round.now), Prefix(Caddy), round.alnum, round.writes(Caddy), f)
    + Routed(round.loki(Traefik, Middle(cursor, round), round.now), Prefix(Traefik), round.alnum,
             round.writes(Traefik), f)
  }

  ghost predicate AllDigital(rounds: seq<Round>) {
    forall r :: 0 <= r < |rounds| ==> Digits(rounds[r])
  }

  /** The cursor before each query of the rounds, and at the end. */
  ghost function Cursors(start: int, rounds: seq<Round>): (cursors: seq<int>)
    requires AllDigital(rounds)
    ensures |cursors| == 2 * |rounds| + 1 && cursors[0] == start
  {
    if rounds == [] then [start]
    else
      var n := |rounds| - 1;
      var before := Cursors(start, rounds[..n]);
      before + [Middle(before[2 * n], rounds[n]), After(before[2 * n], rounds[n])]
  }

  /** What the rounds add to file `f`. */
  ghost function AllAdds(start: int, rounds: seq<Round>, f: string): seq<string>
    requires AllDigital(rounds)
  {
    if rounds == [] then []
    else
      var n := |rounds| - 1;
      AllAdds(start, rounds[..n], f) + Adds(Cursors(start, rounds[..n])[2 * n], rounds[n], f)
  }

  // ---- The loop makes a clean run ---------------------------------------------------------

  /** The query is the one that the round makes for the job, and Loki answers it. */
  ghost predicate MadeBy(round: Round, cursor: int, query: Query, job: Job) {
    && NumericStore(query.store) && AllNumeric(query.lines)
    && query.job == job && query.now == round.now && query.lines == round.loki(job, cursor, round.now)
    && Answers(query.store, query.fails, job, cursor, round.now, query.lines)
  }

  ghost predicate Made(rounds: seq<Round>, cursors: seq<int>, queries: seq<Query>) {
    && |queries| == 2 * |rounds| && |cursors| == |queries| + 1
    && forall r :: 0 <= r < |rounds| ==> MadeInRound(rounds, cursors, queries, r)
  }

  ghost predicate MadeInRound(rounds: seq<Round>, cursors: seq<int>, queries: seq<Query>, r: nat)
    requires |queries| == 2 * |rounds| && |cursors| == |queries| + 1 && r < |rounds|
  {
    && MadeBy(rounds[r], cursors[2 * r], queries[2 * r], Caddy)
    && MadeBy(rounds[r], cursors[2 * r + 1], queries[2 * r + 1], Traefik)
  }

  lemma MadeIsStep(round: Round, cursor: int, query: Query, job: Job, next: int)
    requires Digits(round) && MadeBy(round, cursor, query, job)
    requires next == Advance(cursor, round.loki(job, cursor, round.now))
    ensures RunStep(cursor, query, next)
  {
  }

  lemma TwoMoreSteps(cursors: seq<int>, queries: seq<Query>, first: Query, second: Query, middle: int, last: int)
    requires Run(cursors, queries)
    requires RunStep(cursors[|queries|], first, middle) && RunStep(middle, second, last)
    ensures Run(cursors + [middle, last], queries + [first, second])
  {
    var longer, asked, n := cursors + [middle, last], queries + [first, second], |queries|;
    forall i | 0 <= i < n + 2 ensures RunStep(longer[i], asked[i], longer[i + 1]) {
      if i < n {
        assert RunStep(cursors[i], queries[i], cursors[i + 1]);
      } else if i == n {
        assert RunStep(cursors[n], first, middle);
      } else {
        assert RunStep(middle, second, last);
      }
    }
  }

  lemma EarlierMade(rounds: seq<Round>, before: seq<int>, cursors: seq<int>, queries: seq<Query>, n: nat)
    requires |rounds| == n + 1 && Made(rounds, cursors, queries)
    requires |before| == 2 * n + 1 && before == cursors[..2 * n + 1]
    ensures Made(rounds[..n], before, queries[..2 * n])
  {
    forall r | 0 <= r < n ensures MadeInRound(rounds[..n], before, queries[..2 * n], r) {
      assert MadeInRound(rounds, cursors, queries, r);
      assert 2 * r + 1 < 2 * n;
    }
  }

  lemma LastRound(rounds: seq<Round>, before: seq<int>, cursors: seq<int>, queries: seq<Query>, c: int, middle: int,
                  last: int, n: nat)
    requires |rounds| == n + 1 && Made(rounds, cursors, queries) && Digits(rounds[n])
    requires |before| == 2 * n + 1 && cursors == before + [middle, last] && c == before[2 * n]
    requires middle == Middle(c, rounds[n]) && last == After(c, rounds[n])
    requires Run(before, queries[..2 * n])
    ensures Run(cursors, queries)
  {
    assert MadeInRound(rounds, cursors, queries, n);
    MadeIsStep(rounds[n], c, queries[2 * n], Caddy, middle);
    MadeIsStep(rounds[n], middle, queries[2 * n + 1], Traefik, last);
    TwoMoreSteps(before, queries[..2 * n], queries[2 * n], queries[2 * n + 1], middle, last);
    assert queries[..2 * n] + [queries[2 * n], queries[2 * n + 1]] == queries;
  }

  /** The queries of the loop's rounds make a run. */
  lemma {:induction false} LoopIsRun(start: int, rounds: seq<Round>, queries: seq<Query>)
    requires AllDigital(rounds) && Made(rounds, Cursors(start, rounds), queries)
    ensures Run(Cursors(start, rounds), queries)
  {
    if rounds != [] {
      var n := |rounds| - 1;
      var before, cursors := Cursors(start, rounds[..n]), Cursors(start, rounds);
      var c := before[2 * n];
      var middle, last := Middle(c, rounds[n]), After(c, rounds[n]);
      assert cursors == before + [middle, last];
      EarlierMade(rounds, before, cursors, queries, n);
      LoopIsRun(start, rounds[..n], queries[..2 * n]);
      LastRound(rounds, before, cursors, queries, c, middle, last, n);
    }
  }

  /** The clock does not run backwards, and the start is not in the future. */
  ghost predicate Chronological(start: int, rounds: seq<Round>) {
    && (rounds != [] ==> start <= rounds[0].now)
    && forall r, s :: 0 <= r <= s < |rounds| ==> rounds[r].now <= rounds[s].now
  }

  /** The loop polls Caddy first and Traefik second, with one clock reading for both. */
  lemma LoopMakesRounds(start: int, rounds: seq<Round>, cursors: seq<int>, queries: seq<Query>)
    requires Made(rounds, cursors, queries) && Chronological(start, rounds)
    ensures Rounds(queries, start)
    ensures forall i :: 0 <= i < |queries| ==> queries[i].now == rounds[i / 2].now
  {
    forall i | 0 <= i < |queries| ensures queries[i].now == rounds[i / 2].now {
      assert MadeInRound(rounds, cursors, queries, i / 2);
      assert i == 2 * (i / 2) || i == 2 * (i / 2) + 1;
    }
    forall r | 0 <= r < |queries| / 2 ensures IsRound(queries, r) {
      assert MadeInRound(rounds, cursors, queries, r);
    }
  }

  /** Nothing goes wrong with any query of the loop. */
  ghost predicate AllClean(all: set<Line>, cursors: seq<int>, queries: seq<Query>) {
    && NumericStore(all) && |cursors| == |queries| + 1
    && forall i :: 0 <= i < |queries| ==> NumericStore(queries[i].store) && Clean(all, cursors[i], queries[i])
  }

  /** So the delivery results hold of the loop itself. */
  lemma LoopIsCleanRun(all: set<Line>, start: int, rounds: seq<Round>, queries: seq<Query>)
    requires AllDigital(rounds) && Made(rounds, Cursors(start, rounds), queries)
    requires Chronological(start, rounds) && AllClean(all, Cursors(start, rounds), queries)
    ensures CleanRun(all, Cursors(start, rounds), queries)
  {
    LoopIsRun(start, rounds, queries);
    LoopMakesRounds(start, rounds, Cursors(start, rounds), queries);
  }

  // ---- What reaches the files -------------------------------------------------------------

  /** Every write succeeds, and every round sees the same letters and digits. */
  ghost predicate DiskWorks(rounds: seq<Round>, alnum: char -> bool) {
    forall r :: 0 <= r < |rounds| ==> rounds[r].alnum == alnum && forall job, i :: rounds[r].writes(job)(i)
  }

  /** The lines of all answers, in the order in which they come. */
  function Fetched(queries: seq<Query>): seq<Line> {
    if queries == [] then [] else Fetched(queries[..|queries| - 1]) + queries[|queries| - 1].lines
  }

  /** The texts that the lines give, in the order of the lines. */
  function Texts(lines: seq<Line>, gives: Line -> seq<string>): seq<string> {
    if lines == [] then []
    else
      var n := |lines| - 1;
      Texts(lines[..n], gives) + gives(lines[n])
  }

  /** A line gives its text, ended by a line break, to the file of its job and node. */
  function TextFor(alnum: char -> bool, f: string): Line -> seq<string> {
    (line: Line) => Addition(line, Prefix(line.job), alnum, true, f)
  }

  /** A line's text goes, with a line break, to the one file that its job and node name. */
  lemma TextForMeaning(line: Line, alnum: char -> bool, f: string)
    ensures TextFor(alnum, f)(line)
            == if f == FileName(if line.job == Caddy then "node_" else "agent_traefik_", line.node, alnum)
               then [line.text + "\n"] else []
  {
  }

  lemma {:induction false} TextsOfBoth(a: seq<Line>, b: seq<Line>, gives: Line -> seq<string>)
    ensures Texts(a + b, gives) == Texts(a, gives) + Texts(b, gives)
  {
    if b == [] {
      assert a + b == a;
    } else {
      var n, both := |b| - 1, a + b;
      TextsOfBoth(a, b[..n], gives);
      assert both[..|both| - 1] == a + b[..n] && both[|both| - 1] == b[n];
      Reassociate(Texts(a, gives), Texts(b[..n], gives), gives(b[n]));
    }
  }

  lemma {:induction false} RoutedAreTexts(lines: seq<Line>, job: Job, alnum: char -> bool, writes: nat -> bool,
                                          f: string)
    requires (forall i :: writes(i)) && forall i :: 0 <= i < |lines| ==> lines[i].job == job
    ensures Routed(lines, Prefix(job), alnum, writes, f) == Texts(lines, TextFor(alnum, f))
  {
    if lines != [] {
      RoutedAreTexts(lines[..|lines| - 1], job, alnum, writes, f);
    }
  }

  lemma TextsOfTwo(queries: seq<Query>, n: nat, gives: Line -> seq<string>, last: seq<string>)
    requires |queries| == n + 2
    requires last == Texts(queries[n].lines, gives) + Texts(queries[n + 1].lines, gives)
    ensures Texts(Fetched(queries), gives) == Texts(Fetched(queries[..n]), gives) + last
  {
    var earlier, first, second := Fetched(queries[..n]), queries[n].lines, queries[n + 1].lines;
    assert queries[..n + 1][..n] == queries[..n];
    assert Fetched(queries) == earlier + first + second;
    TextsOfBoth(earlier, first, gives);
    TextsOfBoth(earlier + first, second, gives);
    Reassociate(Texts(earlier, gives), Texts(first, gives), Texts(second, gives));
  }

  /** The lines of an answer are of the job asked for. */
  lemma AnswerIsOfJob(cursors: seq<int>, queries: seq<Query>, i: nat)
    requires Run(cursors, queries) && i < |queries|
    ensures forall k :: 0 <= k < |queries[i].lines| ==> queries[i].lines[k].job == queries[i].job
  {
    LinesAreInRange(cursors[i], queries[i], cursors[i + 1]);
    assert forall k :: 0 <= k < |queries[i].lines| ==> queries[i].lines[k] in queries[i].lines;
  }

  lemma {:induction false} CursorBetween(start: int, rounds: seq<Round>, r: nat)
    requires AllDigital(rounds) && r < |rounds|
    ensures Cursors(start, rounds)[2 * r + 1] == Middle(Cursors(start, rounds)[2 * r], rounds[r])
  {
    var n := |rounds| - 1;
    if r < n {
      CursorBetween(start, rounds[..n], r);
      assert Cursors(start, rounds)[2 * r + 1] == Cursors(start, rounds[..n])[2 * r + 1];
    }
  }

  /** What round r adds to file `f` are the texts that its two answers give. */
  ghost predicate AddsTexts(start: int, rounds: seq<Round>, queries: seq<Query>, f: string, gives: Line -> seq<string>,
                            r: nat)
    requires AllDigital(rounds) && |queries| == 2 * |rounds| && r < |rounds|
  {
    Adds(Cursors(start, rounds)[2 * r], rounds[r], f)
    == Texts(queries[2 * r].lines, gives) + Texts(queries[2 * r + 1].lines, gives)
  }

  lemma RoundAddsTexts(start: int, rounds: seq<Round>, queries: seq<Query>, alnum: char -> bool, f: string, r: nat)
    requires AllDigital(rounds) && Made(rounds, Cursors(start, rounds), queries) && r < |rounds|
    requires Run(Cursors(start, rounds), queries) && DiskWorks(rounds, alnum)
    ensures AddsTexts(start, rounds, queries, f, TextFor(alnum, f), r)
  {
    var cursors := Cursors(start, rounds);
    assert MadeInRound(rounds, cursors, queries, r) && Digits(rounds[r]);
    CursorBetween(start, rounds, r);
    AnswerIsOfJob(cursors, queries, 2 * r);
    AnswerIsOfJob(cursors, queries, 2 * r + 1);
    RoutedAreTexts(queries[2 * r].lines, Caddy, alnum, rounds[r].writes(Caddy), f);
    RoutedAreTexts(queries[2 * r + 1].lines, Traefik, alnum, rounds[r].writes(Traefik), f);
  }

  lemma {:induction false} RoundsAddTexts(start: int, rounds: seq<Round>, queries: seq<Query>, f: string,
                                          gives: Line -> seq<string>)
    requires AllDigital(rounds) && |queries| == 2 * |rounds|
    requires forall r :: 0 <= r < |rounds| ==> AddsTexts(start, rounds, queries, f, gives, r)
    ensures AllAdds(start, rounds, f) == Texts(Fetched(queries), gives)
  {
    if rounds != [] {
      var n := |rounds| - 1;
      EarlierAddTexts(start, rounds, queries, f, gives, n);
      RoundsAddTexts(start, rounds[..n], queries[..2 * n], f, gives);
      var last := Adds(Cursors(start, rounds)[2 * n], rounds[n], f);
      LastAdds(start, rounds, f, n, last);
      LastAgrees(AllAdds(start, rounds[..n], f), last, queries, gives, 2 * n) by {
        assert AddsTexts(start, rounds, queries, f, gives, n);
      }
    }
  }

  lemma LastAgrees(before: seq<string>, last: seq<string>, queries: seq<Query>, gives: Line -> seq<string>, n: nat)
    requires |queries| == n + 2 && before == Texts(Fetched(queries[..n]), gives)
    requires last == Texts(queries[n].lines, gives) + Texts(queries[n + 1].lines, gives)
    ensures before + last == Texts(Fetched(queries), gives)
  {
    TextsOfTwo(queries, n, gives, last);
  }

  lemma LastAdds(start: int, rounds: seq<Round>, f: string, n: nat, last: seq<string>)
    requires AllDigital(rounds) && |rounds| == n + 1
    requires last == Adds(Cursors(start, rounds)[2 * n], rounds[n], f)
    ensures AllAdds(start, rounds, f) == AllAdds(start, rounds[..n], f) + last
  {
    assert Cursors(start, rounds)[2 * n] == Cursors(start, rounds[..n])[2 * n];
  }

  lemma EarlierAddTexts(start: int, rounds: seq<Round>, queries: seq<Query>, f: string, gives: Line -> seq<string>,
                        n: nat)
    requires AllDigital(rounds) && |queries| == 2 * |rounds| && |rounds| == n + 1
    requires forall r :: 0 <= r < |rounds| ==> AddsTexts(start, rounds, queries, f, gives, r)
    ensures forall r :: 0 <= r < n ==> AddsTexts(start, rounds[..n], queries[..2 * n], f, gives, r)
  {
    forall r | 0 <= r < n ensures AddsTexts(start, rounds[..n], queries[..2 * n], f, gives, r) {
      assert AddsTexts(start, rounds, queries, f, gives, r);
      assert Cursors(start, rounds[..n])[2 * r] == Cursors(start, rounds)[2 * r];
    }
  }

  /** When every write succeeds, the loop adds to a file the texts of all answers that belong there,
      in the order in which they come. */
  lemma AddedAreTexts(start: int, rounds: seq<Round>, queries: seq<Query>, alnum: char -> bool, f: string)
    requires AllDigital(rounds) && Made(rounds, Cursors(start, rounds), queries) && DiskWorks(rounds, alnum)
    ensures AllAdds(start, rounds, f) == Texts(Fetched(queries), TextFor(alnum, f))
  {
    LoopIsRun(start, rounds, queries);
    forall r | 0 <= r < |rounds| ensures AddsTexts(start, rounds, queries, f, TextFor(alnum, f), r) {
      RoundAddsTexts(start, rounds, queries, alnum, f, r);
    }
    RoundsAddTexts(start, rounds, queries, f, TextFor(alnum, f));
  }

  lemma {:induction false} FetchedIsDelivered(queries: seq<Query>, line: Line)
    ensures line in Fetched(queries) <==> Delivered(queries, line)
  {
    if queries != [] {
      var n := |queries| - 1;
      FetchedIsDelivered(queries[..n], line);
      if Delivered(queries, line) {
        var i :| 0 <= i < |queries| && line in queries[i].lines;
        assert i < n ==> line in queries[..n][i].lines;
      }
      if i :| 0 <= i < n && line in queries[..n][i].lines {
        assert line in queries[i].lines;
      }
    }
  }

  /** The string maximum of every answer is its latest time. */
  ghost predicate AllLatest(queries: seq<Query>)
    requires NumericAnswers(queries)
  {
    forall i :: 0 <= i < |queries| ==> Latest(queries[i].lines)
  }

  /** Then no line comes twice in all answers together. */
  lemma {:induction false} NoneFetchedTwice(cursors: seq<int>, queries: seq<Query>, n: nat)
    requires Run(cursors, queries) && NumericAnswers(queries) && AllLatest(queries) && n <= |queries|
    ensures NoRepeats(Fetched(queries[..n]))
  {
    if n > 0 {
      var earlier, last := Fetched(queries[..n - 1]), queries[n - 1].lines;
      NoneFetchedTwice(cursors, queries, n - 1);
      assert queries[..n][..n - 1] == queries[..n - 1];
      assert RunStep(cursors[n - 1], queries[n - 1], cursors[n]);
      forall line | line in earlier ensures line !in last {
        FetchedIsDelivered(queries[..n - 1], line);
        var i :| 0 <= i < n - 1 && line in queries[..n - 1][i].lines;
        assert RunStep(cursors[i], queries[i], cursors[i + 1]);
        NoLineTwice(cursors, queries, i, n - 1, line);
      }
      RepeatFree(earlier, last);
    }
  }

  lemma RepeatFree(a: seq<Line>, b: seq<Line>)
    requires NoRepeats(a) && NoRepeats(b) && forall line :: line in a ==> line !in b
    ensures NoRepeats(a + b)
  {
    forall i, j | 0 <= i < j < |a + b| ensures (a + b)[i] != (a + b)[j] {
      assert i < |a| ==> a[i] in a;
      assert j >= |a| ==> b[j - |a|] in b;
    }
  }

  ghost predicate NumericAnswers(queries: seq<Query>) {
    forall i :: 0 <= i < |queries| ==> AllNumeric(queries[i].lines)
  }

  lemma RunIsNumeric(cursors: seq<int>, queries: seq<Query>)
    requires Run(cursors, queries)
    ensures NumericAnswers(queries)
  {
    forall i | 0 <= i < |queries| ensures AllNumeric(queries[i].lines) {
      assert RunStep(cursors[i], queries[i], cursors[i + 1]);
    }
  }

  /** The line is not lost: it is not from before the start, some round's clock is past it, and, if
      it is Traefik's, it is above the maximum of what that round fetched for Caddy. */
  ghost predicate Arrives(queries: seq<Query>, start: int, line: Line)
    requires AllDigits(line.ts) && NumericAnswers(queries)
  {
    start <= Value(line.ts) && exists r :: ArrivesIn(queries, line, r)
  }

  ghost predicate ArrivesIn(queries: seq<Query>, line: Line, r: int)
    requires AllDigits(line.ts) && NumericAnswers(queries)
  {
    FirstRound(queries, Value(line.ts), r) && (line.job == Caddy || MaxBefore(queries[2 * r].lines, Value(line.ts)))
  }

  lemma {:induction false} FirstRoundExists(queries: seq<Query>, start: int, time: int, r: nat) returns (first: nat)
    requires Rounds(queries, start) && r < |queries| / 2 && time < queries[2 * r].now
    ensures FirstRound(queries, time, first)
  {
    first := r;
    if r > 0 && time < queries[2 * r - 1].now {
      assert IsRound(queries, r - 1);
      first := FirstRoundExists(queries, start, time, r - 1);
    }
  }

  /** A fetched line lies between the start and the clock of a round. */
  lemma FetchedInTime(cursors: seq<int>, queries: seq<Query>, i: nat, line: Line) returns (r: nat)
    requires Run(cursors, queries) && Rounds(queries, cursors[0]) && i < |queries| && line in queries[i].lines
    ensures AllDigits(line.ts) && cursors[0] <= Value(line.ts) && FirstRound(queries, Value(line.ts), r)
    ensures line in queries[i].store && line.job == queries[i].job
  {
    LinesAreInRange(cursors[i], queries[i], cursors[i + 1]);
    CursorNeverGoesBack(cursors, queries, 0, i);
    assert IsRound(queries, i / 2);
    assert i == 2 * (i / 2) || i == 2 * (i / 2) + 1;
    r := FirstRoundExists(queries, cursors[0], Value(line.ts), i / 2);
  }

  lemma FetchedArrives(all: set<Line>, cursors: seq<int>, queries: seq<Query>, line: Line, i: nat)
    requires CleanRun(all, cursors, queries) && NumericAnswers(queries) && i < |queries| && line in queries[i].lines
    ensures line in all && AllDigits(line.ts) && Arrives(queries, cursors[0], line)
  {
    var r := FetchedInTime(cursors, queries, i, line);
    if line.job == Traefik {
      SecondJobMissesExactly(all, cursors, queries, line, r);
      assert Delivered(queries, line);
    }
    assert ArrivesIn(queries, line, r);
  }

  lemma ArrivesFetched(all: set<Line>, cursors: seq<int>, queries: seq<Query>, line: Line) returns (i: nat)
    requires CleanRun(all, cursors, queries) && NumericAnswers(queries) && line in all && AllDigits(line.ts)
    requires Arrives(queries, cursors[0], line)
    ensures i < |queries| && line in queries[i].lines
  {
    var r :| ArrivesIn(queries, line, r);
    if line.job == Caddy {
      FirstJobMissesNothing(all, cursors, queries, line, r);
      i := 2 * r;
    } else {
      SecondJobMissesExactly(all, cursors, queries, line, r);
      i :| 0 <= i < |queries| && line in queries[i].lines;
    }
  }

  /** In a clean run exactly the lines that arrive are delivered. */
  lemma DeliveredExactly(all: set<Line>, cursors: seq<int>, queries: seq<Query>, line: Line)
    requires CleanRun(all, cursors, queries) && NumericAnswers(queries) && line in all && AllDigits(line.ts)
    ensures Delivered(queries, line) <==> Arrives(queries, cursors[0], line)
  {
    if Delivered(queries, line) {
      var i :| 0 <= i < |queries| && line in queries[i].lines;
      FetchedArrives(all, cursors, queries, line, i);
    }
    if Arrives(queries, cursors[0], line) {
      var i := ArrivesFetched(all, cursors, queries, line);
    }
  }

  lemma FetchedExactly(all: set<Line>, cursors: seq<int>, queries: seq<Query>, line: Line)
    requires CleanRun(all, cursors, queries) && NumericAnswers(queries)
    ensures line in Fetched(queries) <==> line in all && Arrives(queries, cursors[0], line)
  {
    FetchedIsDelivered(queries, line);
    if line in Fetched(queries) {
      var i :| 0 <= i < |queries| && line in queries[i].lines;
      FetchedArrives(all, cursors, queries, line, i);
    }
    if line in all {
      DeliveredExactly(all, cursors, queries, line);
    }
  }

  /** From end to end: when no query fails, comes late or is cut off and every write succeeds, the
      loop adds to a file the texts that belong there of a list of lines, in order. The list holds
      exactly the lines that arrive: all of Caddy's from the start on, and Traefik's except those at
      or below what Caddy's query of their round brought; and each of them once, if the string
      maximum of every answer is its latest time. */
  lemma FilesHoldExactly(all: set<Line>, start: int, rounds: seq<Round>, queries: seq<Query>, alnum: char -> bool,
                         f: string)
    requires AllDigital(rounds) && Made(rounds, Cursors(start, rounds), queries)
    requires Chronological(start, rounds) && AllClean(all, Cursors(start, rounds), queries) && DiskWorks(rounds, alnum)
    ensures NumericAnswers(queries)
    ensures AllAdds(start, rounds, f) == Texts(Fetched(queries), TextFor(alnum, f))
    ensures forall line :: line in Fetched(queries) <==> line in all && Arrives(queries, start, line)
    ensures AllLatest(queries) ==> NoRepeats(Fetched(queries))
  {
    var cursors := Cursors(start, rounds);
    LoopIsCleanRun(all, start, rounds, queries);
    RunIsNumeric(cursors, queries);
    AddedAreTexts(start, rounds, queries, alnum, f);
    AllFetchedExactly(all, cursors, queries);
    if AllLatest(queries) {
      NoneFetchedTwice(cursors, queries, |queries|);
      assert queries[..|queries|] == queries;
    }
  }

  lemma AllFetchedExactly(all: set<Line>, cursors: seq<int>, queries: seq<Query>)
    requires CleanRun(all, cursors, queries) && NumericAnswers(queries)
    ensures forall line :: line in Fetched(queries) <==> line in all && Arrives(queries, cursors[0], line)
  {
    forall line ensures line in Fetched(queries) <==> line in all && Arrives(queries, cursors[0], line) {
      FetchedExactly(all, cursors, queries, line);
    }
  }

  // ---- The bridge -------------------------------------------------------------------------

  class Bridge {
    var lastTs: int
    var files: map<string, seq<string>>

    constructor (start: int)
      ensures lastTs == start && files == map[]
    {
      lastTs, files := start, map[];
    }

    method WriteLogs(lines: seq<Line>, prefix: string, alnum: char -> bool, writes: nat -> bool)
      modifies this`files
      ensures Wrote(old(files), files, lines, prefix, alnum, writes)
    {
      for i := 0 to |lines|
        invariant Wrote(old(files), files, lines[..i], prefix, alnum, writes)
      {
        var name := FileName(prefix, lines[i].node, alnum);
        ghost var before := files;
        if writes(i) {
          files := files[name := Content(files, name) + [lines[i].text + "\n"]];
        }
        WroteNext(old(files), before, files, lines, i, prefix, alnum, writes);
      }
      assert lines[..|lines|] == lines;
    }

    /** One job of a round: query from the cursor on, write what came, move the cursor. */
    method PollJob(job: Job, round: Round)
      requires Digits(round)
      modifies this
      ensures var lines := round.loki(job, old(lastTs), round.now);
              && lastTs == Advance(old(lastTs), lines)
              && Wrote(old(files), files, lines, Prefix(job), round.alnum, round.writes(job))
    {
      AnswerIsNumeric(round, job, lastTs, round.now);
      var lines := round.loki(job, lastTs, round.now);
      if lines != [] {
        WriteLogs(lines, Prefix(job), round.alnum, round.writes(job));
        MaxIsDigits(lines);
        var next := Value(MaxStamp(lines)) + 1;
        if next > lastTs {
          lastTs := next;
        }
      }
    }

    /** One round: Caddy from the cursor on, then Traefik from wherever Caddy left it. */
    method PollRound(round: Round)
      requires Digits(round)
      modifies this
      ensures lastTs == After(old(lastTs), round)
      ensures forall f :: Content(files, f) == Content(old(files), f) + Adds(old(lastTs), round, f)
    {
      PollJob(Caddy, round);
      ghost var caddy, between := round.loki(Caddy, old(lastTs), round.now), files;
      PollJob(Traefik, round);
      ghost var traefik := round.loki(Traefik, Middle(old(lastTs), round), round.now);
      forall f ensures Content(files, f) == Content(old(files), f) + Adds(old(lastTs), round, f) {
        Reassociate(Content(old(files), f), Routed(caddy, Prefix(Caddy), round.alnum, round.writes(Caddy), f),
                    Routed(traefik, Prefix(Traefik), round.alnum, round.writes(Traefik), f));
      }
    }

    /** The loop of `main`, for as many rounds as it runs. */
    method PollRounds(rounds: seq<Round>)
      requires AllDigital(rounds)
      modifies this
      ensures lastTs == Cursors(old(lastTs), rounds)[2 * |rounds|]
      ensures forall f :: Content(files, f) == Content(old(files), f) + AllAdds(old(lastTs), rounds, f)
    {
      for r := 0 to |rounds|
        invariant lastTs == Cursors(old(lastTs), rounds[..r])[2 * r]
        invariant forall f :: Content(files, f) == Content(old(files), f) + AllAdds(old(lastTs), rounds[..r], f)
      {
        assert rounds[..r + 1][..r] == rounds[..r];
        ghost var before, cursor := files, lastTs;
        PollRound(rounds[r]);
        forall f ensures Content(files, f) == Content(old(files), f) + AllAdds(old(lastTs), rounds[..r + 1], f) {
          Reassociate(Content(old(files), f), AllAdds(old(lastTs), rounds[..r], f), Adds(cursor, rounds[r], f));
        }
      }
      assert rounds[..|rounds|] == rounds;
    }
  }
}
