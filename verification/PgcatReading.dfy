/** What a reader finds in the rendered file: the budget that was checked, and the same users in
    both pools. */
module PgcatReading {
  import opened Strings
  import opened Decimal
  import opened PgcatConfig

  /** What a reader finds: the sum of the pool sizes, and the users of either pool in order. */
  datatype Reading = Reading(size: int, app: seq<string>, session: seq<string>) {
    function Plus(other: Reading): Reading {
      Reading(size + other.size, app + other.app, session + other.session)
    }
  }

  const NOTHING: Reading := Reading(0, [], [])
  const SIZE_KEY: string := "pool_size = "

  predicate Numeral(s: string) {
    s != "" && AllDigits(if s[0] == '-' then s[1..] else s)
  }

  /** The size a line sets, 0 if it sets none. */
  function SizeOf(line: string): int {
    if SIZE_KEY <= line && Numeral(line[|SIZE_KEY|..]) then SignedValue(line[|SIZE_KEY|..]) else 0
  }

  function UserKey(pool: string): string {
    "[pools." + pool + ".users."
  }

  /** The user whose section of the pool a line opens, if it opens one. */
  function UserOf(pool: string, line: string): seq<string> {
    var key := UserKey(pool);
    if key <= line && |line| > |key| && line[|line| - 1] == ']' then [line[|key|..|line| - 1]] else []
  }

  function ReadLine(line: string): Reading {
    Reading(SizeOf(line), UserOf(APP, line), UserOf(SESSION, line))
  }

  /** The readings of the lines together. */
  function Total(lines: seq<string>, reader: string -> Reading): Reading {
    if lines == [] then NOTHING else reader(lines[0]).Plus(Total(lines[1..], reader))
  }

  function Read(lines: seq<string>): Reading {
    Total(lines, ReadLine)
  }

  lemma {:induction false} TotalConcat(a: seq<string>, b: seq<string>, reader: string -> Reading)
    ensures Total(a + b, reader) == Total(a, reader).Plus(Total(b, reader))
  {
    if a == [] {
      assert a + b == b;
      PlusNothing(Total(b, reader));
    } else {
      var first, rest := reader(a[0]), Total(a[1..], reader);
      assert Total(a + b, reader) == first.Plus(Total(a[1..] + b, reader)) by {
        assert (a + b)[0] == a[0] && (a + b)[1..] == a[1..] + b;
      }
      TotalConcat(a[1..], b, reader);
      Associative(first, rest, Total(b, reader));
      assert first.Plus(rest) == Total(a, reader);
    }
  }

  lemma PlusNothing(x: Reading)
    ensures NOTHING.Plus(x) == x && x.Plus(NOTHING) == x
  {
  }

  lemma Associative(x: Reading, y: Reading, z: Reading)
    ensures x.Plus(y).Plus(z) == x.Plus(y.Plus(z))
  {
  }

  lemma NotPrefix(key: string, line: string, i: nat)
    requires i < |key| && (i >= |line| || line[i] != key[i])
    ensures !(key <= line)
  {
  }

  ghost predicate Silent(lines: seq<string>, reader: string -> Reading) {
    forall i :: 0 <= i < |lines| ==> reader(lines[i]) == NOTHING
  }

  lemma {:induction false} SilentLines(lines: seq<string>, reader: string -> Reading)
    requires Silent(lines, reader)
    ensures Total(lines, reader) == NOTHING
  {
    if lines != [] {
      assert forall i :: 0 <= i < |lines| - 1 ==> lines[1..][i] == lines[i + 1];
      SilentLines(lines[1..], reader);
      PlusNothing(NOTHING);
    }
  }

  lemma SingleLine(line: string, reader: string -> Reading)
    ensures Total([line], reader) == reader(line)
  {
  }

  /** The line starts otherwise than `po` and `[p`. */
  ghost predicate Speechless(line: string) {
    || line == "" || (line[0] != 'p' && line[0] != '[')
    || (line[0] == 'p' && |line| > 1 && line[1] != 'o') || (line[0] == '[' && |line| > 1 && line[1] != 'p')
  }

  ghost predicate AllSpeechless(lines: seq<string>) {
    forall i :: 0 <= i < |lines| ==> Speechless(lines[i])
  }

  /** Such a line says nothing. */
  lemma SilentStart(line: string)
    requires Speechless(line)
    ensures ReadLine(line) == NOTHING
  {
    var i := if line != "" && (line[0] == 'p' || line[0] == '[') then 1 else 0;
    assert SIZE_KEY[0] == 'p' && SIZE_KEY[1] == 'o';
    assert forall pool :: UserKey(pool)[0] == '[' && UserKey(pool)[1] == 'p';
  }

  // ---- What each kind of line says --------------------------------------------------------

  function InPool(pool: string, size: int, names: seq<string>): Reading {
    if pool == APP then Reading(size, names, []) else Reading(size, [], names)
  }

  lemma Keys()
    ensures |UserKey(APP)| == 27 && UserKey(APP)[20] == '.' && UserKey(APP)[21] == 'u'
    ensures |UserKey(SESSION)| == 35 && UserKey(SESSION)[20] == '_' && UserKey(SESSION)[28] == '.'
            && UserKey(SESSION)[29] == 'u'
    ensures forall pool :: UserKey(pool)[0] == '['
  {
  }

  lemma OpeningLine(pool: string, name: string)
    requires pool == APP || pool == SESSION
    ensures ReadLine("[pools." + pool + ".users." + name + "]") == InPool(pool, 0, [name])
  {
    var line := "[pools." + pool + ".users." + name + "]";
    var other := if pool == APP then SESSION else APP;
    Keys();
    assert line == UserKey(pool) + name + "]";
    assert UserKey(pool) <= line && line[|UserKey(pool)|..|line| - 1] == name;
    assert line[20] == UserKey(pool)[20];
    NotPrefix(UserKey(other), line, 20);
    NotPrefix(SIZE_KEY, line, 0);
  }

  lemma SizeLine(size: int)
    ensures ReadLine("pool_size = " + Signed(size)) == Reading(size, [], [])
  {
    var line := SIZE_KEY + Signed(size);
    Keys();
    assert line[|SIZE_KEY|..] == Signed(size);
    SignedRoundTrip(size);
    NotPrefix(UserKey(APP), line, 0);
    NotPrefix(UserKey(SESSION), line, 0);
  }

  lemma UsernameLine(name: string)
    ensures ReadLine("username = \"" + name + "\"") == NOTHING
  {
    var line := "username = \"" + name + "\"";
    assert line[0] == 'u';
    SilentStart(line);
  }

  lemma PasswordLineSays(password: string)
    ensures ReadLine(PasswordLine(password)) == NOTHING
  {
    var line := PasswordLine(password);
    assert line[1] == 'a';
    SilentStart(line);
  }

  lemma TotalOfFour(a: string, b: string, c: string, d: string, reader: string -> Reading)
    ensures Total([a, b, c, d], reader) == reader(a).Plus(reader(b).Plus(reader(c).Plus(reader(d))))
  {
    PlusNothing(reader(d));
    assert [d][1..] == [] && [c, d][1..] == [d] && [b, c, d][1..] == [c, d] && [a, b, c, d][1..] == [b, c, d];
    assert Total([d], reader) == reader(d);
    assert Total([c, d], reader) == reader(c).Plus(reader(d));
    assert Total([b, c, d], reader) == reader(b).Plus(reader(c).Plus(reader(d)));
  }

  lemma PlusInPool(pool: string, a: int, b: int, x: seq<string>, y: seq<string>)
    ensures InPool(pool, a, x).Plus(InPool(pool, b, y)) == InPool(pool, a + b, x + y)
  {
  }

  lemma SectionTotal(pool: string, name: string, size: int, lines: seq<string>, reader: string -> Reading)
    requires |lines| == 4 && reader(lines[1]) == reader(lines[3]) == NOTHING
    requires reader(lines[0]) == InPool(pool, 0, [name]) && reader(lines[2]) == InPool(pool, size, [])
    ensures Total(lines, reader) == InPool(pool, size, [name])
  {
    var none: seq<string> := [];
    assert lines == [lines[0], lines[1], lines[2], lines[3]];
    TotalOfFour(lines[0], lines[1], lines[2], lines[3], reader);
    PlusNothing(InPool(pool, size, none));
    PlusInPool(pool, 0, size, [name], none);
    assert [name] + none == [name];
  }

  lemma SectionReads(pool: string, name: string, size: int, password: string)
    requires pool == APP || pool == SESSION
    ensures Read(Section(pool, name, size, password)) == InPool(pool, size, [name])
  {
    var lines := Section(pool, name, size, password);
    OpeningLine(pool, name);
    UsernameLine(name);
    SizeLine(size);
    PasswordLineSays(password);
    SectionTotal(pool, name, size, lines, ReadLine);
  }

  function Names(users: seq<User>): seq<string> {
    if users == [] then [] else Names(users[..|users| - 1]) + [users[|users| - 1].name]
  }

  lemma OneMoreSection(pool: string, size: int, n: int, names: seq<string>, name: string,
                       before: seq<string>, added: seq<string>, reader: string -> Reading)
    requires Total(before, reader) == InPool(pool, size * n, names)
             && Total(added, reader) == InPool(pool, size, [name])
    ensures Total(before + added, reader) == InPool(pool, size * (n + 1), names + [name])
  {
    TotalConcat(before, added, reader);
    PlusInPool(pool, size * n, size, names, [name]);
    assert size * n + size == size * (n + 1);
  }

  lemma {:induction false} SectionsRead(pool: string, users: seq<User>, size: int)
    requires pool == APP || pool == SESSION
    ensures Read(Sections(pool, users, size)) == InPool(pool, size * |users|, Names(users))
  {
    if users != [] {
      var n := |users| - 1;
      SectionsRead(pool, users[..n], size);
      SectionReads(pool, users[n].name, size, users[n].password);
      OneMoreSection(pool, size, n, Names(users[..n]), users[n].name, Sections(pool, users[..n], size),
                     Section(pool, users[n].name, size, users[n].password), ReadLine);
    }
  }

  lemma SpeechlessLines(lines: seq<string>)
    requires AllSpeechless(lines)
    ensures Read(lines) == NOTHING
  {
    forall i | 0 <= i < |lines| ensures ReadLine(lines[i]) == NOTHING {
      SilentStart(lines[i]);
    }
    SilentLines(lines, ReadLine);
  }

  lemma SettingsAreSpeechless()
    ensures AllSpeechless(SERVER) && AllSpeechless(QUERIES) && AllSpeechless(HEALTH)
  {
  }

  lemma ExporterIsSpeechless(env: Env)
    ensures AllSpeechless(Exporter(env))
  {
    var heading := Heading("Prometheus Exporter");
    assert heading[0] == '#';
    assert Speechless(heading);
  }

  lemma GeneralIsSilent(env: Env)
    ensures Read(General(env)) == NOTHING
  {
    SettingsAreSpeechless();
    ExporterIsSpeechless(env);
    var admin := Admin(env);
    assert admin[0][1] == 'g' && admin[1][0] == admin[2][0] == 'a';
    assert AllSpeechless(admin);
    SpeechlessLines(General(env));
  }

  lemma PoolHeadIsSilent(env: Env, pool: string, mode: string)
    requires pool == APP || pool == SESSION
    ensures Read(PoolHead(env, pool, mode)) == NOTHING
  {
    var lines := PoolHead(env, pool, mode);
    forall i | 0 <= i < |lines| ensures ReadLine(lines[i]) == NOTHING {
      if i == 0 || i == 3 {
        SilentTable(pool, if i == 0 then "]" else ".shards.0]");
      } else if i == 1 {
        SilentMode(lines[1]);
      } else {
        SilentStart(lines[i]);
      }
    }
    SilentLines(lines, ReadLine);
  }

  /** The table headings of a pool other than those of its users. */
  lemma SilentTable(pool: string, end: string)
    requires pool == APP || pool == SESSION
    requires |end| > 0 && (end[0] == ']' || (end[0] == '.' && |end| > 1 && end[1] == 's'))
    ensures ReadLine("[pools." + pool + end) == NOTHING
  {
    var line := "[pools." + pool + end;
    Keys();
    NotPrefix(SIZE_KEY, line, 0);
    if pool == APP {
      assert line[20] == end[0] && (|end| > 1 ==> line[21] == end[1]);
      NotPrefix(UserKey(APP), line, if end[0] == ']' then 20 else 21);
      NotPrefix(UserKey(SESSION), line, 20);
    } else {
      assert line[20] == '_' && line[28] == end[0] && (|end| > 1 ==> line[29] == end[1]);
      NotPrefix(UserKey(APP), line, 20);
      NotPrefix(UserKey(SESSION), line, if end[0] == ']' then 28 else 29);
    }
  }

  lemma SilentMode(line: string)
    requires |line| > 5 && line[0] == 'p' && line[5] == 'm'
    ensures ReadLine(line) == NOTHING
  {
    Keys();
    NotPrefix(SIZE_KEY, line, 5);
    NotPrefix(UserKey(APP), line, 0);
    NotPrefix(UserKey(SESSION), line, 0);
  }

  // ---- The list of lines ------------------------------------------------------------------

  lemma PoolTotal(head: seq<string>, main: seq<string>, rest: seq<string>, reader: string -> Reading,
                  pool: string, mainSize: int, restSize: int, name: string, names: seq<string>)
    requires Total(head, reader) == NOTHING && Total(main, reader) == InPool(pool, mainSize, [name])
    requires Total(rest, reader) == InPool(pool, restSize, names)
    ensures Total(head + main + rest, reader) == InPool(pool, mainSize + restSize, [name] + names)
  {
    TotalConcat(head, main, reader);
    TotalConcat(head + main, rest, reader);
    PlusNothing(Total(main, reader));
    PlusInPool(pool, mainSize, restSize, [name], names);
  }

  /** A pool holds its main user and then the node agents, with their sizes. */
  lemma PoolReads(env: Env, pool: string, mode: string, mainSize: int, nodes: seq<User>, nodeSize: int, share: int)
    requires pool == APP || pool == SESSION
    requires share == nodeSize * |nodes|
    ensures Read(Pool(env, pool, mode, mainSize, nodes, nodeSize))
            == InPool(pool, mainSize + share, [env.dbUser] + Names(nodes))
  {
    var head, main, rest := PoolHead(env, pool, mode), Section(pool, env.dbUser, mainSize, env.dbPassword),
                            Sections(pool, nodes, nodeSize);
    PoolHeadIsSilent(env, pool, mode);
    SectionReads(pool, env.dbUser, mainSize, env.dbPassword);
    SectionsRead(pool, nodes, nodeSize);
    PoolTotal(head, main, rest, ReadLine, pool, mainSize, share, env.dbUser, Names(nodes));
  }

  lemma SilentFirst(a: seq<string>, b: seq<string>, reader: string -> Reading, said: Reading)
    requires Total(a, reader) == NOTHING && Total(b, reader) == said
    ensures Total(a + b, reader) == said
  {
    TotalConcat(a, b, reader);
    PlusNothing(said);
  }

  lemma SaidTogether(a: seq<string>, b: seq<string>, reader: string -> Reading, x: Reading, y: Reading)
    requires Total(a, reader) == x && Total(b, reader) == y
    ensures Total(a + b, reader) == x.Plus(y)
  {
    TotalConcat(a, b, reader);
  }

  lemma SilentLast(a: seq<string>, b: seq<string>, reader: string -> Reading, said: Reading)
    requires Total(a, reader) == said && Total(b, reader) == NOTHING
    ensures Total(a + b, reader) == said
  {
    TotalConcat(a, b, reader);
    PlusNothing(said);
  }

  lemma WholeTotal(general: seq<string>, app: seq<string>, blank: seq<string>, session: seq<string>,
                   reader: string -> Reading,
                   a: int, b: int, users: seq<string>)
    requires Total(general, reader) == Total(blank, reader) == NOTHING
    requires Total(app, reader) == InPool(APP, a, users) && Total(session, reader) == InPool(SESSION, b, users)
    ensures Total(general + app + blank + session, reader) == Reading(a + b, users, users)
  {
    var inApp, inSession := InPool(APP, a, users), InPool(SESSION, b, users);
    SilentFirst(general, app, reader, inApp);
    SilentLast(general + app, blank, reader, inApp);
    SaidTogether(general + app + blank, session, reader, inApp, inSession);
    BothPools(a, b, users);
  }

  lemma BothPools(a: int, b: int, users: seq<string>)
    ensures InPool(APP, a, users).Plus(InPool(SESSION, b, users)) == Reading(a + b, users, users)
  {
    assert APP != SESSION by {
      assert |APP| != |SESSION|;
    }
    assert users + [] == users == [] + users;
  }

  /** The reading that the budget check speaks of. */
  function Budgeted(env: Env, nodes: seq<User>): Reading {
    Reading(env.appPool + env.workerPool + 8 * |nodes|, [env.dbUser] + Names(nodes), [env.dbUser] + Names(nodes))
  }

  /** For any number of node agents, the emitted sizes and the reserved connections add up to the
      total that was checked, and both pools list the same users. */
  lemma BudgetIsEmitted(env: Env, nodes: seq<User>)
    ensures Read(ConfigLines(env, nodes)) == Budgeted(env, nodes)
    ensures TotalRequested(env, nodes) == Read(ConfigLines(env, nodes)).size + 5
  {
    var users := [env.dbUser] + Names(nodes);
    GeneralIsSilent(env);
    PoolReads(env, APP, "transaction", env.appPool, nodes, 5, 5 * |nodes|);
    PoolReads(env, SESSION, "session", env.workerPool, nodes, 3, 3 * |nodes|);
    SilentStart("");
    SingleLine("", ReadLine);
    WholeTotal(General(env), AppPart(env, nodes), [""], SessionPart(env, nodes), ReadLine,
               env.appPool + 5 * |nodes|, env.workerPool + 3 * |nodes|, users);
  }
}
