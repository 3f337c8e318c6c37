/** The rendered text: splitting it into lines again, and what a reader of the file finds. */
module PgcatText {
  import opened Strings
  import opened Decimal
  import opened PgcatConfig
  import opened PgcatReading

  /** Splitting at a separator that was put between two texts splits each of them. */
  lemma {:induction false} SplitConcat(a: string, b: string, sep: char)
    ensures Split(a + [sep] + b, sep) == Split(a, sep) + Split(b, sep)
  {
    var whole := a + [sep] + b;
    if a == "" {
      assert whole[1..] == b;
      assert Split(whole, sep) == [""] + Split(b, sep);
    } else {
      assert whole[0] == a[0] && whole[1..] == a[1..] + [sep] + b;
      SplitConcat(a[1..], b, sep);
      Prepended(Split(a[1..], sep), Split(b, sep), a[0], sep);
    }
  }

  lemma Prepended(left: seq<string>, right: seq<string>, c: char, sep: char)
    requires |left| > 0
    ensures [""] + (left + right) == [""] + left + right
    ensures [[c] + (left + right)[0]] + (left + right)[1..] == [[c] + left[0]] + left[1..] + right
  {
  }

  /** The reading of a list element that is split at its own line breaks first. */
  function Pieces(reader: string -> Reading): string -> Reading {
    line => Total(Split(line, '\n'), reader)
  }

  lemma {:induction false} TextTotal(lines: seq<string>, reader: string -> Reading)
    requires lines != []
    ensures Total(Split(Join(lines, '\n'), '\n'), reader) == Total(lines, Pieces(reader))
  {
    if |lines| == 1 {
      SingleLine(lines[0], Pieces(reader));
      assert lines == [lines[0]];
    } else {
      var first, rest := lines[0], lines[1..];
      var text := Join(rest, '\n');
      TextTotal(rest, reader);
      SplitConcat(first, text, '\n');
      TotalConcat(Split(first, '\n'), Split(text, '\n'), reader);
    }
  }

  lemma LastBreak(text: string, reader: string -> Reading)
    requires reader("") == NOTHING
    ensures Total(Split(text + "\n", '\n'), reader) == Total(Split(text, '\n'), reader)
  {
    SplitConcat(text, "", '\n');
    assert text + "\n" == text + ['\n'] + "";
    TotalConcat(Split(text, '\n'), [""], reader);
    SingleLine("", reader);
    PlusNothing(Total(Split(text, '\n'), reader));
  }

  /** Whatever the values are, the text of the file reads like its list of lines with each element
      split at the line breaks in it. */
  lemma TextIsItsLines(env: Env, nodes: seq<User>)
    ensures Read(Split(FileText(env, nodes), '\n')) == Total(ConfigLines(env, nodes), Pieces(ReadLine))
  {
    TextTotal(ConfigLines(env, nodes), ReadLine);
    SilentStart("");
    LastBreak(Join(ConfigLines(env, nodes), '\n'), ReadLine);
  }

  // ---- What line breaks add ---------------------------------------------------------------

  ghost predicate OneLine(s: string) {
    '\n' !in s
  }

  ghost predicate AllOneLine(lines: seq<string>) {
    forall i :: 0 <= i < |lines| ==> OneLine(lines[i])
  }

  lemma OneLinePiece(line: string, reader: string -> Reading)
    requires OneLine(line)
    ensures Pieces(reader)(line) == reader(line)
  {
    SplitJoin([line], '\n');
    SingleLine(line, reader);
  }

  /** What the pieces of a list element say if the element itself says nothing. */
  function Added(reader: string -> Reading): string -> Reading {
    line => if reader(line) == NOTHING then Pieces(reader)(line) else NOTHING
  }

  /** Splitting the element changes nothing, or the element itself says nothing. */
  ghost predicate Settled(line: string, reader: string -> Reading) {
    Pieces(reader)(line) == reader(line) || reader(line) == NOTHING
  }

  ghost predicate AllSettled(lines: seq<string>, reader: string -> Reading) {
    forall i :: 0 <= i < |lines| ==> Settled(lines[i], reader)
  }

  /** What is read is what was intended with something added among it. */
  ghost predicate Drifts(read: Reading, intended: Reading, added: Reading) {
    && read.size == intended.size + added.size
    && |read.app| == |intended.app| + |added.app| && |read.session| == |intended.session| + |added.session|
    && (added.app == [] ==> read.app == intended.app) && (added.session == [] ==> read.session == intended.session)
  }

  lemma DriftTogether(x: Reading, i: Reading, a: Reading, y: Reading, j: Reading, b: Reading)
    requires Drifts(x, i, a) && Drifts(y, j, b)
    ensures Drifts(x.Plus(y), i.Plus(j), a.Plus(b))
  {
  }

  lemma DriftDecides(read: Reading, intended: Reading, added: Reading)
    requires Drifts(read, intended, added)
    ensures read == intended <==> added == NOTHING
  {
  }

  lemma {:induction false} Drift(lines: seq<string>, reader: string -> Reading)
    requires AllSettled(lines, reader)
    ensures Drifts(Total(lines, Pieces(reader)), Total(lines, reader), Total(lines, Added(reader)))
  {
    if lines != [] {
      var line, rest := lines[0], lines[1..];
      assert forall i :: 0 <= i < |rest| ==> rest[i] == lines[i + 1];
      Drift(rest, reader);
      assert Settled(line, reader);
      DriftTogether(Pieces(reader)(line), reader(line), Added(reader)(line), Total(rest, Pieces(reader)),
                    Total(rest, reader), Total(rest, Added(reader)));
    }
  }

  /** Splitting the elements at their line breaks adds this. */
  ghost predicate Adds(lines: seq<string>, reader: string -> Reading, added: Reading) {
    AllSettled(lines, reader) && Total(lines, Added(reader)) == added
  }

  lemma AddsTogether(a: seq<string>, b: seq<string>, reader: string -> Reading, x: Reading, y: Reading)
    requires Adds(a, reader, x) && Adds(b, reader, y)
    ensures Adds(a + b, reader, x.Plus(y))
  {
    TotalConcat(a, b, Added(reader));
  }

  lemma OneLinesAdd(lines: seq<string>, reader: string -> Reading)
    requires AllOneLine(lines)
    ensures Adds(lines, reader, NOTHING)
  {
    forall i | 0 <= i < |lines| ensures Settled(lines[i], reader) && Added(reader)(lines[i]) == NOTHING {
      OneLinePiece(lines[i], reader);
    }
    SilentLines(lines, Added(reader));
  }

  lemma {:induction false} SilentAdd(lines: seq<string>, reader: string -> Reading)
    requires Silent(lines, reader)
    ensures Adds(lines, reader, Total(lines, Pieces(reader)))
  {
    if lines != [] {
      assert forall i :: 0 <= i < |lines| - 1 ==> lines[1..][i] == lines[i + 1];
      SilentAdd(lines[1..], reader);
    }
  }

  // ---- The parts of the file --------------------------------------------------------------

  lemma HeadingIsOneLine(title: string)
    requires |title| < 69 && OneLine(title)
    ensures OneLine(Heading(title))
  {
    var bars := seq(69 - |title|, _ => '\U{2500}');
    assert OneLine("# \U{2500}\U{2500} ") && OneLine(bars);
  }

  lemma ServerIsOneLine()
    ensures AllOneLine(SERVER)
  {
  }

  lemma QueriesAreOneLine()
    ensures AllOneLine(QUERIES)
  {
    HeadingIsOneLine("Query Parser (Read/Write Splitting)");
  }

  lemma HealthIsOneLine()
    ensures AllOneLine(HEALTH)
  {
    HeadingIsOneLine("Health Checks");
    HeadingIsOneLine("Banning");
  }

  lemma ExporterIsOneLine(env: Env)
    ensures AllOneLine(Exporter(env))
  {
    HeadingIsOneLine("Prometheus Exporter");
  }

  lemma GeneralAdds(env: Env)
    ensures Adds(General(env), ReadLine, Total(AdminValues(env), Pieces(ReadLine)))
  {
    var rest := SERVER + QUERIES + HEALTH + Exporter(env);
    SettingsAreOneLine(env, rest);
    AdminIsSilent(env);
    ValuesBetween(["[general]"], AdminValues(env), rest, ReadLine);
    Regrouped(["[general]"], AdminValues(env), SERVER, QUERIES, HEALTH, Exporter(env));
  }

  lemma SettingsAreOneLine(env: Env, rest: seq<string>)
    requires rest == SERVER + QUERIES + HEALTH + Exporter(env)
    ensures AllOneLine(rest)
  {
    ServerIsOneLine();
    QueriesAreOneLine();
    HealthIsOneLine();
    ExporterIsOneLine(env);
  }

  lemma Regrouped<T>(a: seq<T>, b: seq<T>, c: seq<T>, d: seq<T>, e: seq<T>, f: seq<T>)
    ensures a + b + (c + d + e + f) == a + b + c + d + e + f
  {
  }

  lemma AdminIsSilent(env: Env)
    ensures Silent(AdminValues(env), ReadLine)
  {
    var values := AdminValues(env);
    assert values[0][0] == values[1][0] == 'a';
    SilentStart(values[0]);
    SilentStart(values[1]);
  }

  lemma ValuesBetween(before: seq<string>, values: seq<string>, after: seq<string>, reader: string -> Reading)
    requires AllOneLine(before) && Silent(values, reader) && AllOneLine(after)
    ensures Adds(before + values + after, reader, Total(values, Pieces(reader)))
  {
    var added := Total(values, Pieces(reader));
    OneLinesAdd(before, reader);
    SilentAdd(values, reader);
    OneLinesAdd(after, reader);
    AddsTogether(before, values, reader, NOTHING, added);
    PlusNothing(added);
    AddsTogether(before + values, after, reader, added, NOTHING);
  }

  /** The lines of a pool's head that hold values. */
  function HeadValues(env: Env): seq<string> {
    [ServersLine(env), DatabaseLine(env)]
  }

  lemma HeadValuesAreSilent(env: Env)
    ensures Silent(HeadValues(env), ReadLine)
  {
    var values := HeadValues(env);
    assert values[0][0] == 's' && values[1][0] == 'd';
    SilentStart(values[0]);
    SilentStart(values[1]);
  }

  lemma HeadShape(env: Env, pool: string, mode: string) returns (first: seq<string>)
    requires OneLine(pool) && OneLine(mode)
    ensures AllOneLine(first) && PoolHead(env, pool, mode) == first + HeadValues(env)
  {
    first := ["[pools." + pool + "]", "pool_mode = \"" + mode + "\"", "", "[pools." + pool + ".shards.0]"];
    assert OneLine(first[0]) && OneLine(first[1]) && OneLine(first[2]) && OneLine(first[3]);
  }

  lemma ValuesLast(before: seq<string>, values: seq<string>, reader: string -> Reading)
    requires AllOneLine(before) && Silent(values, reader)
    ensures Adds(before + values, reader, Total(values, Pieces(reader)))
  {
    ValuesBetween(before, values, [], reader);
    assert before + values + [] == before + values;
  }

  lemma HeadAdds(env: Env, pool: string, mode: string)
    requires OneLine(pool) && OneLine(mode)
    ensures Adds(PoolHead(env, pool, mode), ReadLine, Total(HeadValues(env), Pieces(ReadLine)))
  {
    var first := HeadShape(env, pool, mode);
    HeadValuesAreSilent(env);
    ValuesLast(first, HeadValues(env), ReadLine);
  }

  lemma SectionShape(pool: string, name: string, size: int, password: string) returns (first: seq<string>)
    requires OneLine(pool) && OneLine(name)
    ensures AllOneLine(first) && Section(pool, name, size, password) == first + [PasswordLine(password)]
  {
    first := ["[pools." + pool + ".users." + name + "]", "username = \"" + name + "\"", "pool_size = " + Signed(size)];
    assert OneLine(Signed(size)) by {
      assert !IsDigit('\n');
    }
    assert OneLine(first[0]) && OneLine(first[1]) && OneLine(first[2]);
  }

  lemma SectionAdds(pool: string, name: string, size: int, password: string)
    requires OneLine(pool) && OneLine(name)
    ensures Adds(Section(pool, name, size, password), ReadLine, Pieces(ReadLine)(PasswordLine(password)))
  {
    var first := SectionShape(pool, name, size, password);
    PasswordLineSays(password);
    ValuesLast(first, [PasswordLine(password)], ReadLine);
    SingleLine(PasswordLine(password), Pieces(ReadLine));
  }

  function PasswordLines(nodes: seq<User>): seq<string> {
    if nodes == [] then [] else PasswordLines(nodes[..|nodes| - 1]) + [PasswordLine(nodes[|nodes| - 1].password)]
  }

  ghost predicate OneLineNames(nodes: seq<User>) {
    forall i :: 0 <= i < |nodes| ==> OneLine(nodes[i].name)
  }

  lemma {:induction false} SectionsAdd(pool: string, nodes: seq<User>, size: int)
    requires OneLine(pool) && OneLineNames(nodes)
    ensures Adds(Sections(pool, nodes, size), ReadLine, Total(PasswordLines(nodes), Pieces(ReadLine)))
  {
    if nodes != [] {
      var n := |nodes| - 1;
      var last := PasswordLine(nodes[n].password);
      SectionsAdd(pool, nodes[..n], size);
      SectionAdds(pool, nodes[n].name, size, nodes[n].password);
      AddsTogether(Sections(pool, nodes[..n], size), Section(pool, nodes[n].name, size, nodes[n].password), ReadLine,
                   Total(PasswordLines(nodes[..n]), Pieces(ReadLine)), Pieces(ReadLine)(last));
      OneMoreValue(PasswordLines(nodes[..n]), last, Pieces(ReadLine));
    }
  }

  lemma OneMoreValue(values: seq<string>, last: string, reader: string -> Reading)
    ensures Total(values + [last], reader) == Total(values, reader).Plus(reader(last))
  {
    TotalConcat(values, [last], reader);
    SingleLine(last, reader);
  }

  /** The lines of a pool that hold values other than the users' names. */
  function PoolValues(env: Env, nodes: seq<User>): seq<string> {
    HeadValues(env) + [PasswordLine(env.dbPassword)] + PasswordLines(nodes)
  }

  lemma PoolAdds(env: Env, pool: string, mode: string, mainSize: int, nodes: seq<User>, nodeSize: int,
                 lines: seq<string>, added: Reading)
    requires OneLine(pool) && OneLine(mode) && OneLine(env.dbUser) && OneLineNames(nodes)
    requires lines == Pool(env, pool, mode, mainSize, nodes, nodeSize)
    requires added == Total(PoolValues(env, nodes), Pieces(ReadLine))
    ensures Adds(lines, ReadLine, added)
  {
    HeadAdds(env, pool, mode);
    SectionAdds(pool, env.dbUser, mainSize, env.dbPassword);
    SectionsAdd(pool, nodes, nodeSize);
    ThreeParts(PoolHead(env, pool, mode), Section(pool, env.dbUser, mainSize, env.dbPassword),
               Sections(pool, nodes, nodeSize), HeadValues(env), PasswordLine(env.dbPassword), PasswordLines(nodes),
               ReadLine);
  }

  lemma ThreeParts(a: seq<string>, b: seq<string>, c: seq<string>, x: seq<string>, y: string, z: seq<string>,
                   reader: string -> Reading)
    requires Adds(a, reader, Total(x, Pieces(reader))) && Adds(b, reader, Pieces(reader)(y))
    requires Adds(c, reader, Total(z, Pieces(reader)))
    ensures Adds(a + b + c, reader, Total(x + [y] + z, Pieces(reader)))
  {
    OneMoreValue(x, y, Pieces(reader));
    AddsTogether(a, b, reader, Total(x, Pieces(reader)), Pieces(reader)(y));
    TotalConcat(x + [y], z, Pieces(reader));
    AddsTogether(a + b, c, reader, Total(x + [y], Pieces(reader)), Total(z, Pieces(reader)));
  }

  // ---- The whole file ---------------------------------------------------------------------

  /** What the lines of all values say: those of the general part once, those of the pools twice. */
  function Further(env: Env, nodes: seq<User>): Reading {
    var general, pool := Total(AdminValues(env), Pieces(ReadLine)), Total(PoolValues(env, nodes), Pieces(ReadLine));
    general.Plus(pool).Plus(pool)
  }

  ghost predicate NamesAreOneLine(env: Env, nodes: seq<User>) {
    OneLine(env.dbUser) && OneLineNames(nodes)
  }

  lemma WholeAdds(a: seq<string>, b: seq<string>, blank: seq<string>, d: seq<string>, reader: string -> Reading,
                  x: Reading, y: Reading)
    requires Adds(a, reader, x) && Adds(b, reader, y)
    requires Adds(blank, reader, NOTHING) && Adds(d, reader, y)
    ensures Adds(a + b + blank + d, reader, x.Plus(y).Plus(y))
  {
    AddsTogether(a, b, reader, x, y);
    AddsTogether(a + b, blank, reader, x.Plus(y), NOTHING);
    PlusNothing(x.Plus(y));
    AddsTogether(a + b + blank, d, reader, x.Plus(y), y);
  }

  /** The file holds the budget that was checked and what the lines of the values say. */
  lemma FileDrifts(env: Env, nodes: seq<User>)
    requires NamesAreOneLine(env, nodes)
    ensures Drifts(Read(Split(FileText(env, nodes), '\n')), Budgeted(env, nodes), Further(env, nodes))
  {
    TextIsItsLines(env, nodes);
    BudgetIsEmitted(env, nodes);
    LinesAdd(env, nodes);
    Drift(ConfigLines(env, nodes), ReadLine);
  }

  lemma PoolNames()
    ensures OneLine(APP) && OneLine("transaction") && OneLine(SESSION) && OneLine("session")
  {
  }

  lemma AppAdds(env: Env, nodes: seq<User>, lines: seq<string>, added: Reading)
    requires NamesAreOneLine(env, nodes)
    requires lines == AppPart(env, nodes) && added == Total(PoolValues(env, nodes), Pieces(ReadLine))
    ensures Adds(lines, ReadLine, added)
  {
    PoolNames();
    PoolAdds(env, APP, "transaction", env.appPool, nodes, 5, lines, added);
  }

  lemma SessionAdds(env: Env, nodes: seq<User>, lines: seq<string>, added: Reading)
    requires NamesAreOneLine(env, nodes)
    requires lines == SessionPart(env, nodes) && added == Total(PoolValues(env, nodes), Pieces(ReadLine))
    ensures Adds(lines, ReadLine, added)
  {
    PoolNames();
    PoolAdds(env, SESSION, "session", env.workerPool, nodes, 3, lines, added);
  }

  lemma BlankAdds()
    ensures Adds([""], ReadLine, NOTHING)
  {
    OneLinesAdd([""], ReadLine);
  }

  lemma PartsAdd(env: Env, nodes: seq<User>, general: seq<string>, app: seq<string>, blank: seq<string>,
                 session: seq<string>, x: Reading, y: Reading)
    requires NamesAreOneLine(env, nodes) && general == General(env) && Adds(blank, ReadLine, NOTHING)
    requires app == AppPart(env, nodes) && session == SessionPart(env, nodes)
    requires x == Total(AdminValues(env), Pieces(ReadLine)) && y == Total(PoolValues(env, nodes), Pieces(ReadLine))
    ensures Adds(general + app + blank + session, ReadLine, x.Plus(y).Plus(y))
  {
    GeneralAdds(env);
    AppAdds(env, nodes, app, y);
    SessionAdds(env, nodes, session, y);
    WholeAdds(general, app, blank, session, ReadLine, x, y);
  }

  lemma LinesAdd(env: Env, nodes: seq<User>)
    requires NamesAreOneLine(env, nodes)
    ensures Adds(ConfigLines(env, nodes), ReadLine, Further(env, nodes))
  {
    BlankAdds();
    PartsAdd(env, nodes, General(env), AppPart(env, nodes), [""], SessionPart(env, nodes),
             Total(AdminValues(env), Pieces(ReadLine)), Total(PoolValues(env, nodes), Pieces(ReadLine)));
  }

  /** A name read from lines has no line break. */
  lemma {:induction false} NamesRead(lines: seq<string>)
    requires AllOneLine(lines)
    ensures AllOneLine(Read(lines).app)
  {
    if lines != [] {
      assert OneLine(lines[0]);
      assert forall i :: 0 <= i < |lines| - 1 ==> lines[1..][i] == lines[i + 1];
      NamesRead(lines[1..]);
    }
  }

  lemma {:induction false} NamesMembers(nodes: seq<User>)
    ensures AllOneLine(Names(nodes)) ==> OneLineNames(nodes)
  {
    if nodes != [] && AllOneLine(Names(nodes)) {
      var n := |nodes| - 1;
      var names := Names(nodes[..n]);
      assert forall i :: 0 <= i < |names| ==> Names(nodes)[i] == names[i];
      assert Names(nodes)[|names|] == nodes[n].name;
      NamesMembers(nodes[..n]);
      assert forall i :: 0 <= i < n ==> nodes[..n][i] == nodes[i];
    }
  }

  lemma UserAndNames(user: string, nodes: seq<User>)
    requires AllOneLine([user] + Names(nodes))
    ensures OneLine(user) && OneLineNames(nodes)
  {
    var users := [user] + Names(nodes);
    assert users[0] == user;
    assert forall i :: 0 <= i < |Names(nodes)| ==> users[i + 1] == Names(nodes)[i];
    NamesMembers(nodes);
  }

  lemma BudgetNamesUsers(env: Env, nodes: seq<User>)
    requires Read(Split(FileText(env, nodes), '\n')) == Budgeted(env, nodes)
    ensures NamesAreOneLine(env, nodes)
  {
    SplitFree(FileText(env, nodes), '\n');
    NamesRead(Split(FileText(env, nodes), '\n'));
    UserAndNames(env.dbUser, nodes);
  }

  /** For all values: the text of the file, read line by line, gives the budget that was checked,
      with the same users in both pools, if and only if no user's name contains a line break and the
      lines into which the other values are broken name no user and set sizes that add up to 0. */
  lemma FileKeepsBudgetExactly(env: Env, nodes: seq<User>)
    ensures Read(Split(FileText(env, nodes), '\n')) == Budgeted(env, nodes)
            <==> NamesAreOneLine(env, nodes) && Further(env, nodes) == NOTHING
  {
    if Read(Split(FileText(env, nodes), '\n')) == Budgeted(env, nodes) {
      BudgetNamesUsers(env, nodes);
    }
    if NamesAreOneLine(env, nodes) {
      FileDrifts(env, nodes);
      DriftDecides(Read(Split(FileText(env, nodes), '\n')), Budgeted(env, nodes), Further(env, nodes));
    }
  }

  // ---- Values without line breaks ---------------------------------------------------------

  /** None of the values that go into the file contains a line break. */
  ghost predicate OneLineValues(env: Env, nodes: seq<User>) {
    && OneLine(env.dbUser) && OneLine(env.dbPassword) && OneLine(env.dbName)
    && OneLine(env.adminUser) && OneLine(env.adminPassword) && OneLine(env.primary)
    && AllOneLine(env.replicas)
    && (forall i :: 0 <= i < |nodes| ==> OneLine(nodes[i].name) && OneLine(nodes[i].password))
  }

  /** A line that starts with another character than the lines that say something. */
  ghost predicate Quiet(line: string) {
    line != "" && line[0] != 'p' && line[0] != '['
  }

  ghost predicate AllQuiet(lines: seq<string>) {
    forall i :: 0 <= i < |lines| ==> Quiet(lines[i])
  }

  /** The server list is spread over several lines, none of which says anything. */
  lemma {:induction false} ServersAreQuiet(start: string, replicas: seq<string>)
    requires OneLine(start) && Quiet(start) && AllOneLine(replicas)
    ensures AllQuiet(Split(start + MoreServers(replicas), '\n'))
    decreases replicas
  {
    if replicas == [] {
      SplitJoin([start + "]"], '\n');
    } else {
      assert OneLine(replicas[0]) && (INDENT + replicas[0])[0] == ' ';
      ServersAreQuiet(INDENT + replicas[0], replicas[1..]);
      OneMoreServer(start, replicas);
    }
  }

  lemma OneMoreServer(start: string, replicas: seq<string>)
    requires OneLine(start) && Quiet(start) && replicas != []
    requires AllQuiet(Split(INDENT + replicas[0] + MoreServers(replicas[1..]), '\n'))
    ensures AllQuiet(Split(start + MoreServers(replicas), '\n'))
  {
    var others := INDENT + replicas[0] + MoreServers(replicas[1..]);
    assert MoreServers(replicas) == ",\n" + others;
    CommaAndBreak(start, others);
    QuietLineFirst(start + ",", others);
  }

  lemma CommaAndBreak(start: string, others: string)
    ensures start + (",\n" + others) == (start + ",") + ['\n'] + others
  {
    assert ",\n" == "," + ['\n'];
  }

  lemma QuietLineFirst(first: string, others: string)
    requires OneLine(first) && Quiet(first) && AllQuiet(Split(others, '\n'))
    ensures AllQuiet(Split(first + ['\n'] + others, '\n'))
  {
    SplitConcat(first, others, '\n');
    SplitJoin([first], '\n');
  }

  lemma ServersSayNothing(env: Env)
    requires OneLine(env.primary) && AllOneLine(env.replicas)
    ensures Pieces(ReadLine)(ServersLine(env)) == NOTHING
  {
    var start := "servers = [" + env.primary;
    assert start[0] == 's' && OneLine(start);
    ServersAreQuiet(start, env.replicas);
    SpeechlessLines(Split(start + MoreServers(env.replicas), '\n'));
    assert ServersLine(env) == start + MoreServers(env.replicas);
  }

  lemma OneLinesSayNothing(values: seq<string>, reader: string -> Reading)
    requires AllOneLine(values) && Silent(values, reader)
    ensures Total(values, Pieces(reader)) == NOTHING
  {
    forall i | 0 <= i < |values| ensures Pieces(reader)(values[i]) == NOTHING {
      OneLinePiece(values[i], reader);
    }
    SilentLines(values, Pieces(reader));
  }

  lemma AdminSaysNothing(env: Env)
    requires OneLine(env.adminUser) && OneLine(env.adminPassword)
    ensures Total(AdminValues(env), Pieces(ReadLine)) == NOTHING
  {
    AdminIsSilent(env);
    assert OneLine(AdminValues(env)[0]) && OneLine(AdminValues(env)[1]);
    OneLinesSayNothing(AdminValues(env), ReadLine);
  }

  lemma TwoSilent(a: string, b: string, reader: string -> Reading)
    requires reader(a) == reader(b) == NOTHING
    ensures Total([a, b], reader) == NOTHING
  {
    assert [a] + [b] == [a, b];
    OneMoreValue([a], b, reader);
    SingleLine(a, reader);
  }

  lemma DatabaseSaysNothing(env: Env)
    requires OneLine(env.dbName)
    ensures Pieces(ReadLine)(DatabaseLine(env)) == NOTHING
  {
    var line := DatabaseLine(env);
    assert OneLine(line) && line[0] == 'd';
    SilentStart(line);
    OneLinePiece(line, ReadLine);
  }

  lemma HeadSaysNothing(env: Env)
    requires OneLine(env.dbName) && OneLine(env.primary) && AllOneLine(env.replicas)
    ensures Total(HeadValues(env), Pieces(ReadLine)) == NOTHING
  {
    ServersSayNothing(env);
    DatabaseSaysNothing(env);
    TwoSilent(ServersLine(env), DatabaseLine(env), Pieces(ReadLine));
  }

  lemma PasswordSaysNothing(password: string)
    requires OneLine(password)
    ensures Pieces(ReadLine)(PasswordLine(password)) == NOTHING
  {
    assert OneLine(PasswordLine(password));
    PasswordLineSays(password);
    OneLinePiece(PasswordLine(password), ReadLine);
  }

  lemma {:induction false} PasswordLinesAt(nodes: seq<User>)
    ensures |PasswordLines(nodes)| == |nodes|
    ensures forall i :: 0 <= i < |nodes| ==> PasswordLines(nodes)[i] == PasswordLine(nodes[i].password)
  {
    if nodes != [] {
      PasswordLinesAt(nodes[..|nodes| - 1]);
    }
  }

  lemma NodesSayNothing(nodes: seq<User>)
    requires forall i :: 0 <= i < |nodes| ==> OneLine(nodes[i].password)
    ensures Total(PasswordLines(nodes), Pieces(ReadLine)) == NOTHING
  {
    var lines := PasswordLines(nodes);
    PasswordLinesAt(nodes);
    forall i | 0 <= i < |lines| ensures Pieces(ReadLine)(lines[i]) == NOTHING {
      PasswordSaysNothing(nodes[i].password);
    }
    SilentLines(lines, Pieces(ReadLine));
  }

  lemma AmongSilent(a: seq<string>, b: string, c: seq<string>, reader: string -> Reading)
    requires Total(a, reader) == Total(c, reader) == NOTHING
    ensures Total(a + [b] + c, reader) == reader(b)
  {
    OneMoreValue(a, b, reader);
    TotalConcat(a + [b], c, reader);
    PlusNothing(reader(b));
  }

  /** If only the database password can contain line breaks, it adds its lines twice. */
  lemma PasswordAdds(env: Env, nodes: seq<User>)
    requires OneLineValues(env.(dbPassword := ""), nodes)
    ensures var said := Pieces(ReadLine)(PasswordLine(env.dbPassword)); Further(env, nodes) == said.Plus(said)
  {
    AdminSaysNothing(env);
    HeadSaysNothing(env);
    NodesSayNothing(nodes);
    AmongSilent(HeadValues(env), PasswordLine(env.dbPassword), PasswordLines(nodes), Pieces(ReadLine));
    PlusNothing(Pieces(ReadLine)(PasswordLine(env.dbPassword)));
  }

  lemma DoubledIsNothing(said: Reading)
    ensures said.Plus(said) == NOTHING <==> said == NOTHING
  {
  }

  /** Then the file keeps the budget if and only if the lines of the password say nothing. */
  lemma PasswordDecides(env: Env, nodes: seq<User>)
    requires OneLineValues(env.(dbPassword := ""), nodes)
    ensures Read(Split(FileText(env, nodes), '\n')) == Budgeted(env, nodes)
            <==> Read(Split(PasswordLine(env.dbPassword), '\n')) == NOTHING
  {
    FileKeepsBudgetExactly(env, nodes);
    PasswordAdds(env, nodes);
    DoubledIsNothing(Pieces(ReadLine)(PasswordLine(env.dbPassword)));
  }

  /** In particular the file keeps the budget when no value contains a line break. */
  lemma OneLineValuesKeepBudget(env: Env, nodes: seq<User>)
    requires OneLineValues(env, nodes)
    ensures Read(Split(FileText(env, nodes), '\n')) == Budgeted(env, nodes)
  {
    PasswordSaysNothing(env.dbPassword);
    PasswordDecides(env, nodes);
  }

  // ---- A value with line breaks -----------------------------------------------------------

  /** A password of three lines, the second of which looks like a size. */
  function BrokenPassword(size: int): string {
    "x" + ['\n'] + ("pool_size = " + Signed(size) + ['\n'])
  }

  lemma BrokenLines(size: int)
    ensures PasswordLine(BrokenPassword(size))
            == "password = \"x" + ['\n'] + ("pool_size = " + Signed(size) + ['\n'] + "\"")
  {
    assert "password = \"x" == "password = \"" + "x";
  }

  /** The pieces of three lines. */
  lemma ThreePieces(first: string, second: string, third: string, reader: string -> Reading)
    requires OneLine(first) && OneLine(second) && OneLine(third) && reader(first) == reader(third) == NOTHING
    ensures Pieces(reader)(first + ['\n'] + (second + ['\n'] + third)) == reader(second)
  {
    SplitConcat(first, second + ['\n'] + third, '\n');
    SplitConcat(second, third, '\n');
    SplitJoin([first], '\n');
    SplitJoin([second], '\n');
    SplitJoin([third], '\n');
    TotalConcat([first], [second] + [third], reader);
    TotalConcat([second], [third], reader);
    SingleLine(first, reader);
    SingleLine(second, reader);
    SingleLine(third, reader);
    PlusNothing(reader(second));
  }

  /** The line of such a password sets a size. */
  lemma BrokenPiece(size: int)
    ensures Pieces(ReadLine)(PasswordLine(BrokenPassword(size))) == Reading(size, [], [])
  {
    var first, second, third := "password = \"x", "pool_size = " + Signed(size), "\"";
    assert OneLine(first) && OneLine(third) && first[1] == 'a' && third[0] == '"';
    assert OneLine(second) by {
      assert !IsDigit('\n');
    }
    SilentStart(first);
    SilentStart(third);
    SizeLine(size);
    BrokenLines(size);
    ThreePieces(first, second, third, ReadLine);
  }

  lemma SizeTwice(read: Reading, intended: Reading, size: int)
    requires Drifts(read, intended, Reading(size, [], []).Plus(Reading(size, [], [])))
    ensures read == intended.(size := intended.size + 2 * size)
  {
  }

  /** A password for which the file does not keep the budget: whatever the other values are, if they
      have no line breaks, its text holds two further pool sizes. */
  lemma LineBreakAddsSize(env: Env, nodes: seq<User>, size: int)
    requires OneLineValues(env.(dbPassword := ""), nodes) && env.dbPassword == BrokenPassword(size)
    ensures var budgeted := Budgeted(env, nodes);
            Read(Split(FileText(env, nodes), '\n')) == budgeted.(size := budgeted.size + 2 * size)
  {
    FileDrifts(env, nodes);
    PasswordAdds(env, nodes);
    BrokenPiece(size);
    SizeTwice(Read(Split(FileText(env, nodes), '\n')), Budgeted(env, nodes), size);
  }
}
