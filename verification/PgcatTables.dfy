/** The rendered file as tables of settings: what stands under which heading. */
module PgcatTables {
  import opened Strings
  import opened Decimal
  import opened PgcatConfig
  import opened PgcatText

  /** One setting, its value as written. */
  datatype Entry = Entry(key: string, value: string)

  /** A heading without its brackets, and the settings below it. */
  datatype Table = Table(title: string, entries: seq<Entry>)

  function FirstSpace(line: string): (i: nat)
    ensures i <= |line|
  {
    if line == "" || line[0] == ' ' then 0 else 1 + FirstSpace(line[1..])
  }

  function AddEntry(tables: seq<Table>, entry: Entry): seq<Table>
    requires tables != []
  {
    var n := |tables| - 1;
    tables[..n] + [Table(tables[n].title, tables[n].entries + [entry])]
  }

  /** A line that starts with a space continues the value before it. */
  function Continue(tables: seq<Table>, line: string): seq<Table> {
    if tables == [] || tables[|tables| - 1].entries == [] then tables
    else
      var n := |tables| - 1;
      var entries := tables[n].entries;
      var m := |entries| - 1;
      tables[..n] + [Table(tables[n].title, entries[..m] + [Entry(entries[m].key, entries[m].value + "\n" + line)])]
  }

  /** What one more line makes of the tables read so far. */
  function Feed(tables: seq<Table>, line: string): seq<Table> {
    if line == "" || line[0] == '#' then tables
    else if line[0] == ' ' then Continue(tables, line)
    else if line[0] == '[' then if line[|line| - 1] == ']' then tables + [Table(line[1..|line| - 1], [])] else tables
    else
      var i := FirstSpace(line);
      if tables == [] || i + 3 > |line| || line[i..i + 3] != " = " then tables
      else AddEntry(tables, Entry(line[..i], line[i + 3..]))
  }

  /** All lines, one after the other. */
  function FeedAll(tables: seq<Table>, lines: seq<string>): seq<Table>
    decreases |lines|
  {
    if lines == [] then tables else FeedAll(Feed(tables, lines[0]), lines[1..])
  }

  /** The tables of a text. */
  function Tables(text: string): seq<Table> {
    FeedAll([], Split(text, '\n'))
  }

  lemma {:induction false} FeedBoth(tables: seq<Table>, a: seq<string>, b: seq<string>)
    ensures FeedAll(tables, a + b) == FeedAll(FeedAll(tables, a), b)
    decreases |a|
  {
    if a == [] {
      assert a + b == b;
    } else {
      assert (a + b)[0] == a[0] && (a + b)[1..] == a[1..] + b;
      FeedBoth(Feed(tables, a[0]), a[1..], b);
    }
  }

  /** The elements of the list of lines, each split at its own line breaks. */
  function FeedElements(tables: seq<Table>, elements: seq<string>): seq<Table>
    decreases |elements|
  {
    if elements == [] then tables else FeedElements(FeedAll(tables, Split(elements[0], '\n')), elements[1..])
  }

  lemma {:induction false} TextFeeds(tables: seq<Table>, elements: seq<string>)
    requires elements != []
    ensures FeedAll(tables, Split(Join(elements, '\n'), '\n')) == FeedElements(tables, elements)
    decreases |elements|
  {
    var first, rest := elements[0], elements[1..];
    if rest == [] {
      assert elements == [first];
    } else {
      var text := Join(rest, '\n');
      SplitConcat(first, text, '\n');
      FeedBoth(tables, Split(first, '\n'), Split(text, '\n'));
      TextFeeds(FeedAll(tables, Split(first, '\n')), rest);
    }
  }

  lemma {:induction false} ElementsBoth(tables: seq<Table>, a: seq<string>, b: seq<string>)
    ensures FeedElements(tables, a + b) == FeedElements(FeedElements(tables, a), b)
    decreases |a|
  {
    if a == [] {
      assert a + b == b;
    } else {
      assert (a + b)[0] == a[0] && (a + b)[1..] == a[1..] + b;
      ElementsBoth(FeedAll(tables, Split(a[0], '\n')), a[1..], b);
    }
  }

  // ---- What lists of lines give -----------------------------------------------------------

  /** The lines add these settings to the table before them. */
  ghost predicate Gives(lines: seq<string>, entries: seq<Entry>) {
    forall before: seq<Table>, title: string, given: seq<Entry> :: GivesTo(lines, entries, before, title, given)
  }

  ghost predicate GivesTo(lines: seq<string>, entries: seq<Entry>, before: seq<Table>, title: string,
                          given: seq<Entry>) {
    FeedElements(before + [Table(title, given)], lines) == before + [Table(title, given + entries)]
  }

  /** The lines make these tables. */
  ghost predicate Makes(lines: seq<string>, tables: seq<Table>) {
    forall before: seq<Table> :: MakesAfter(lines, tables, before)
  }

  ghost predicate MakesAfter(lines: seq<string>, tables: seq<Table>, before: seq<Table>) {
    FeedElements(before, lines) == before + tables
  }

  lemma GivesBoth(a: seq<string>, b: seq<string>, x: seq<Entry>, y: seq<Entry>)
    requires Gives(a, x) && Gives(b, y)
    ensures Gives(a + b, x + y)
  {
    forall before: seq<Table>, title: string, given: seq<Entry> ensures GivesTo(a + b, x + y, before, title, given) {
      ElementsBoth(before + [Table(title, given)], a, b);
      assert GivesTo(a, x, before, title, given) && GivesTo(b, y, before, title, given + x);
      Grouping(given, x, y);
    }
  }

  lemma MakesBoth(a: seq<string>, b: seq<string>, x: seq<Table>, y: seq<Table>)
    requires Makes(a, x) && Makes(b, y)
    ensures Makes(a + b, x + y)
  {
    forall before: seq<Table> ensures MakesAfter(a + b, x + y, before) {
      ElementsBoth(before, a, b);
      assert MakesAfter(a, x, before) && MakesAfter(b, y, before + x);
      Grouping(before, x, y);
    }
  }

  lemma Grouping<T>(a: seq<T>, b: seq<T>, c: seq<T>)
    ensures a + b + c == a + (b + c)
  {
  }

  /** Settings below a heading. */
  lemma MakesTable(heading: string, lines: seq<string>, title: string, entries: seq<Entry>)
    requires heading == "[" + title + "]" && OneLine(heading) && Gives(lines, entries)
    ensures Makes([heading] + lines, [Table(title, entries)])
  {
    forall before: seq<Table> ensures MakesAfter([heading] + lines, [Table(title, entries)], before) {
      assert heading[1..|heading| - 1] == title;
      OneElement(before, heading);
      ElementsBoth(before, [heading], lines);
      assert GivesTo(lines, entries, before, title, []);
      assert [] + entries == entries;
    }
  }

  lemma OneElement(tables: seq<Table>, line: string)
    requires OneLine(line)
    ensures FeedElements(tables, [line]) == Feed(tables, line)
  {
    SplitJoin([line], '\n');
    assert FeedAll(tables, [line]) == Feed(tables, line);
  }

  /** More settings for the last table. */
  lemma MakesMore(a: seq<string>, b: seq<string>, x: seq<Table>)
    requires Makes(a, x) && x != [] && Gives(b, [])
    ensures Makes(a + b, x)
  {
    var n := |x| - 1;
    forall before: seq<Table> ensures MakesAfter(a + b, x, before) {
      ElementsBoth(before, a, b);
      assert MakesAfter(a, x, before) && GivesTo(b, [], before + x[..n], x[n].title, x[n].entries);
      LastTable(before, x);
    }
  }

  lemma LastTable(before: seq<Table>, x: seq<Table>)
    requires x != []
    ensures var n := |x| - 1; before + x == before + x[..n] + [Table(x[n].title, x[n].entries)]
    ensures var n := |x| - 1; x[n].entries + [] == x[n].entries
  {
    var n := |x| - 1;
    assert x == x[..n] + [x[n]];
  }

  ghost predicate Key(key: string) {
    key != "" && key[0] != '#' && key[0] != '[' && ' ' !in key
  }

  lemma {:induction false} SpaceAfterKey(key: string, rest: string)
    requires ' ' !in key
    ensures FirstSpace(key + " " + rest) == |key|
  {
    if key != "" {
      assert (key + " " + rest)[1..] == key[1..] + " " + rest;
      SpaceAfterKey(key[1..], rest);
    }
  }

  lemma GivesSetting(line: string, key: string, value: string)
    requires line == key + " = " + value && Key(key) && OneLine(line)
    ensures Gives([line], [Entry(key, value)])
  {
    SpaceAfterKey(key, "= " + value);
    assert line == key + " " + ("= " + value);
    forall before: seq<Table>, title: string, given: seq<Entry>
      ensures GivesTo([line], [Entry(key, value)], before, title, given)
    {
      OneElement(before + [Table(title, given)], line);
      assert line[|key|..|key| + 3] == " = " && line[..|key|] == key && line[|key| + 3..] == value;
    }
  }

  /** Blank lines and comments give nothing. */
  lemma GivesNothing(line: string)
    requires OneLine(line) && (line == "" || line[0] == '#')
    ensures Gives([line], [])
  {
    forall before: seq<Table>, title: string, given: seq<Entry> ensures GivesTo([line], [], before, title, given) {
      OneElement(before + [Table(title, given)], line);
      assert given + [] == given;
    }
  }

  lemma {:induction false} CommentsGiveNothing(lines: seq<string>)
    requires forall i :: 0 <= i < |lines| ==> OneLine(lines[i]) && (lines[i] == "" || lines[i][0] == '#')
    ensures Gives(lines, [])
  {
    if lines == [] {
      forall before: seq<Table>, title: string, given: seq<Entry> ensures GivesTo(lines, [], before, title, given) {
        assert given + [] == given;
      }
    } else {
      GivesNothing(lines[0]);
      CommentsGiveNothing(lines[1..]);
      GivesBoth([lines[0]], lines[1..], [], []);
      var none: seq<Entry> := [];
      assert [lines[0]] + lines[1..] == lines && none + none == none;
    }
  }

  // ---- The server list --------------------------------------------------------------------

  /** The parts with the separator between them. */
  function JoinWith(parts: seq<string>, separator: string): string {
    if |parts| == 0 then ""
    else if |parts| == 1 then parts[0]
    else parts[0] + separator + JoinWith(parts[1..], separator)
  }

  lemma {:induction false} ServersAreJoined(first: string, replicas: seq<string>)
    ensures first + MoreServers(replicas) == JoinWith([first] + replicas, ",\n        ") + "]"
    decreases |replicas|
  {
    var all := [first] + replicas;
    if replicas == [] {
      assert all == [first];
    } else {
      ServersAreJoined(replicas[0], replicas[1..]);
      assert all[1..] == replicas == [replicas[0]] + replicas[1..];
      Spread(first, replicas[0], MoreServers(replicas[1..]));
      Regroup(first, ",\n        ", JoinWith(replicas, ",\n        "), "]");
    }
  }

  lemma Spread(first: string, second: string, rest: string)
    ensures first + (",\n" + (INDENT + second + rest)) == first + ",\n        " + (second + rest)
  {
    assert ",\n" + INDENT == ",\n        ";
  }

  lemma Regroup(a: string, b: string, c: string, d: string)
    ensures a + b + (c + d) == a + b + c + d
  {
  }

  /** Lines that start with a space, joined by line breaks, continue the value before them. */
  lemma {:induction false} Continued(tables: seq<Table>, title: string, given: seq<Entry>, key: string, value: string,
                                     first: string, replicas: seq<string>)
    requires first != "" && first[0] == ' ' && OneLine(first) && AllOneLine(replicas)
    ensures FeedAll(tables + [Table(title, given + [Entry(key, value)])], Split(first + MoreServers(replicas), '\n'))
            == tables + [Table(title, given + [Entry(key, value + "\n" + (first + MoreServers(replicas)))])]
    decreases |replicas|
  {
    var start := tables + [Table(title, given + [Entry(key, value)])];
    if replicas == [] {
      SplitJoin([first + "]"], '\n');
      ContinueOnce(tables, title, given, key, value, first + "]");
    } else {
      var next, line := INDENT + replicas[0], first + ",";
      var rest := next + MoreServers(replicas[1..]);
      assert next[0] == ' ' && OneLine(next);
      CommaAndBreak(first, rest);
      SplitConcat(line, rest, '\n');
      SplitJoin([line], '\n');
      FeedBoth(start, [line], Split(rest, '\n'));
      ContinueOnce(tables, title, given, key, value, line);
      Continued(tables, title, given, key, value + "\n" + line, next, replicas[1..]);
      assert value + "\n" + line + "\n" + rest == value + "\n" + (line + ['\n'] + rest);
    }
  }

  lemma ContinueOnce(tables: seq<Table>, title: string, given: seq<Entry>, key: string, value: string, line: string)
    requires line != "" && line[0] == ' '
    ensures FeedAll(tables + [Table(title, given + [Entry(key, value)])], [line])
            == tables + [Table(title, given + [Entry(key, value + "\n" + line)])]
  {
    var before := tables + [Table(title, given + [Entry(key, value)])];
    assert before[..|tables|] == tables;
    assert (given + [Entry(key, value)])[..|given|] == given;
  }

  function Quoted(value: string): string {
    "\"" + value + "\""
  }

  /** What the list element of the servers gives: its lines are one value. */
  lemma GivesServers(env: Env)
    requires OneLine(env.primary) && AllOneLine(env.replicas)
    ensures Gives([ServersLine(env)], [Entry("servers", "[" + env.primary + MoreServers(env.replicas))])
  {
    var first := "servers = [" + env.primary;
    if env.replicas == [] {
      assert first + "]" == "servers" + " = " + ("[" + env.primary + "]");
      GivesSetting(first + "]", "servers", "[" + env.primary + "]");
    } else {
      forall before: seq<Table>, title: string, given: seq<Entry>
        ensures GivesTo([ServersLine(env)], [Entry("servers", "[" + env.primary + MoreServers(env.replicas))], before,
                        title, given)
      {
        var rest := INDENT + env.replicas[0] + MoreServers(env.replicas[1..]);
        SpreadFeeds(before, title, given, first + ",", "servers", "[" + env.primary + ",", INDENT + env.replicas[0],
                    env.replicas[1..]);
        CommaAndBreak(first, rest);
        CommaAndBreak("[" + env.primary, rest);
        assert "[" + env.primary + "," + "\n" + rest == "[" + env.primary + "," + ['\n'] + rest;
      }
    }
  }

  lemma SpreadFeeds(before: seq<Table>, title: string, given: seq<Entry>, line: string, key: string, value: string,
                    next: string, replicas: seq<string>)
    requires line == key + " = " + value && Key(key) && OneLine(line)
    requires next != "" && next[0] == ' ' && OneLine(next) && AllOneLine(replicas)
    ensures FeedElements(before + [Table(title, given)], [line + ['\n'] + (next + MoreServers(replicas))])
            == before + [Table(title, given + [Entry(key, value + "\n" + (next + MoreServers(replicas)))])]
  {
    var start, rest := before + [Table(title, given)], next + MoreServers(replicas);
    GivesSetting(line, key, value);
    assert GivesTo([line], [Entry(key, value)], before, title, given);
    OneElement(start, line);
    SplitConcat(line, rest, '\n');
    SplitJoin([line], '\n');
    FeedBoth(start, [line], Split(rest, '\n'));
    assert FeedAll(start, [line]) == Feed(start, line);
    Continued(before, title, given, key, value, next, replicas);
  }

  // ---- The parts of the file --------------------------------------------------------------

  lemma GivesQuoted(key: string, value: string)
    requires Key(key) && OneLine(key) && OneLine(value)
    ensures Gives([key + " = " + Quoted(value)], [Entry(key, Quoted(value))])
  {
    GivesSetting(key + " = " + Quoted(value), key, Quoted(value));
  }

  lemma GivesTwo(a: string, b: string, x: Entry, y: Entry)
    requires Gives([a], [x]) && Gives([b], [y])
    ensures Gives([a, b], [x, y])
  {
    GivesBoth([a], [b], [x], [y]);
    assert [a] + [b] == [a, b] && [x] + [y] == [x, y];
  }

  lemma GivesThree(a: string, b: string, c: string, x: Entry, y: Entry, z: Entry)
    requires Gives([a], [x]) && Gives([b], [y]) && Gives([c], [z])
    ensures Gives([a, b, c], [x, y, z])
  {
    GivesTwo(a, b, x, y);
    GivesBoth([a, b], [c], [x, y], [z]);
    assert [a, b] + [c] == [a, b, c] && [x, y] + [z] == [x, y, z];
  }

  /** The table of a user. */
  function UserTable(pool: string, name: string, size: int, password: string): Table {
    Table("pools." + pool + ".users." + name,
          [Entry("username", Quoted(name)), Entry("pool_size", Signed(size)), Entry("password", Quoted(password))])
  }

  lemma SectionLines(name: string, size: int, password: string)
    requires OneLine(name) && OneLine(password)
    ensures Gives(["username = \"" + name + "\""], [Entry("username", Quoted(name))])
    ensures Gives(["pool_size = " + Signed(size)], [Entry("pool_size", Signed(size))])
    ensures Gives([PasswordLine(password)], [Entry("password", Quoted(password))])
  {
    GivesQuoted("username", name);
    assert "username" + " = " + Quoted(name) == "username = \"" + name + "\"";
    GivesQuoted("password", password);
    assert "password" + " = " + Quoted(password) == PasswordLine(password);
    assert OneLine(Signed(size)) by {
      assert !IsDigit('\n');
    }
    GivesSetting("pool_size = " + Signed(size), "pool_size", Signed(size));
  }

  lemma SectionMakes(pool: string, name: string, size: int, password: string)
    requires OneLine(pool) && OneLine(name) && OneLine(password)
    ensures Makes(Section(pool, name, size, password), [UserTable(pool, name, size, password)])
  {
    var lines := Section(pool, name, size, password);
    var table := UserTable(pool, name, size, password);
    SectionLines(name, size, password);
    GivesThree(lines[1], lines[2], lines[3], table.entries[0], table.entries[1], table.entries[2]);
    assert OneLine(lines[0]) && lines[0] == "[" + table.title + "]";
    MakesTable(lines[0], [lines[1], lines[2], lines[3]], table.title, table.entries);
    assert [lines[0]] + [lines[1], lines[2], lines[3]] == lines;
  }

  function UserTables(pool: string, nodes: seq<User>, size: int): (tables: seq<Table>)
    ensures |tables| == |nodes|
    ensures forall i :: 0 <= i < |nodes| ==> tables[i] == UserTable(pool, nodes[i].name, size, nodes[i].password)
  {
    if nodes == [] then []
    else
      var n := |nodes| - 1;
      UserTables(pool, nodes[..n], size) + [UserTable(pool, nodes[n].name, size, nodes[n].password)]
  }

  ghost predicate OneLineUsers(nodes: seq<User>) {
    forall i :: 0 <= i < |nodes| ==> OneLine(nodes[i].name) && OneLine(nodes[i].password)
  }

  lemma {:induction false} SectionsMake(pool: string, nodes: seq<User>, size: int)
    requires OneLine(pool) && OneLineUsers(nodes)
    ensures Makes(Sections(pool, nodes, size), UserTables(pool, nodes, size))
  {
    if nodes == [] {
      forall before: seq<Table> ensures MakesAfter([], [], before) {
        assert before + [] == before;
      }
    } else {
      var n := |nodes| - 1;
      SectionsMake(pool, nodes[..n], size);
      SectionMakes(pool, nodes[n].name, size, nodes[n].password);
      MakesBoth(Sections(pool, nodes[..n], size), Section(pool, nodes[n].name, size, nodes[n].password),
                UserTables(pool, nodes[..n], size), [UserTable(pool, nodes[n].name, size, nodes[n].password)]);
    }
  }

  function ModeTable(pool: string, mode: string): Table {
    Table("pools." + pool, [Entry("pool_mode", Quoted(mode))])
  }

  function ShardTable(env: Env, pool: string): Table {
    Table("pools." + pool + ".shards.0",
          [Entry("servers", "[" + JoinWith([env.primary] + env.replicas, ",\n        ") + "]"),
           Entry("database", Quoted(env.dbName))])
  }

  lemma ShardLines(env: Env)
    requires OneLine(env.primary) && AllOneLine(env.replicas) && OneLine(env.dbName)
    ensures Gives([ServersLine(env), DatabaseLine(env)], ShardTable(env, "").entries)
  {
    var entries := ShardTable(env, "").entries;
    GivesServers(env);
    ServersAreJoined(env.primary, env.replicas);
    var joined := JoinWith([env.primary] + env.replicas, ",\n        ");
    assert "[" + env.primary + MoreServers(env.replicas) == "[" + (env.primary + MoreServers(env.replicas));
    assert "[" + (joined + "]") == "[" + joined + "]";
    GivesQuoted("database", env.dbName);
    assert "database" + " = " + Quoted(env.dbName) == DatabaseLine(env);
    GivesTwo(ServersLine(env), DatabaseLine(env), entries[0], entries[1]);
  }

  lemma ModeMakes(pool: string, mode: string)
    requires OneLine(pool) && OneLine(mode)
    ensures Makes(["[pools." + pool + "]", "pool_mode = \"" + mode + "\"", ""], [ModeTable(pool, mode)])
  {
    var heading, setting := "[pools." + pool + "]", "pool_mode = \"" + mode + "\"";
    var table := ModeTable(pool, mode);
    GivesQuoted("pool_mode", mode);
    assert "pool_mode" + " = " + Quoted(mode) == setting;
    assert OneLine(heading) && heading == "[" + table.title + "]";
    MakesTable(heading, [setting], table.title, table.entries);
    GivesNothing("");
    MakesMore([heading] + [setting], [""], [table]);
    assert [heading] + [setting] + [""] == [heading, setting, ""];
  }

  lemma ShardMakes(env: Env, pool: string)
    requires OneLine(pool) && OneLine(env.primary) && AllOneLine(env.replicas) && OneLine(env.dbName)
    ensures Makes(["[pools." + pool + ".shards.0]", ServersLine(env), DatabaseLine(env)], [ShardTable(env, pool)])
  {
    var heading, table := "[pools." + pool + ".shards.0]", ShardTable(env, pool);
    ShardLines(env);
    assert OneLine(heading) && heading == "[" + table.title + "]";
    MakesTable(heading, [ServersLine(env), DatabaseLine(env)], table.title, table.entries);
    assert [heading] + [ServersLine(env), DatabaseLine(env)] == [heading, ServersLine(env), DatabaseLine(env)];
  }

  lemma HeadMakes(env: Env, pool: string, mode: string)
    requires OneLine(pool) && OneLine(mode)
    requires OneLine(env.primary) && AllOneLine(env.replicas) && OneLine(env.dbName)
    ensures Makes(PoolHead(env, pool, mode), [ModeTable(pool, mode)] + [ShardTable(env, pool)])
  {
    var a := ["[pools." + pool + "]", "pool_mode = \"" + mode + "\"", ""];
    var b := ["[pools." + pool + ".shards.0]", ServersLine(env), DatabaseLine(env)];
    ModeMakes(pool, mode);
    ShardMakes(env, pool);
    MakesBoth(a, b, [ModeTable(pool, mode)], [ShardTable(env, pool)]);
    assert a + b == PoolHead(env, pool, mode);
  }

  function PoolTables(env: Env, pool: string, mode: string, mainSize: int, nodes: seq<User>, nodeSize: int)
    : seq<Table>
  {
    [ModeTable(pool, mode)] + [ShardTable(env, pool)] + [UserTable(pool, env.dbUser, mainSize, env.dbPassword)]
    + UserTables(pool, nodes, nodeSize)
  }

  lemma PoolMakes(env: Env, pool: string, mode: string, mainSize: int, nodes: seq<User>, nodeSize: int)
    requires OneLine(pool) && OneLine(mode) && OneLineValues(env, nodes)
    ensures Makes(Pool(env, pool, mode, mainSize, nodes, nodeSize),
                  PoolTables(env, pool, mode, mainSize, nodes, nodeSize))
  {
    HeadMakes(env, pool, mode);
    SectionMakes(pool, env.dbUser, mainSize, env.dbPassword);
    SectionsMake(pool, nodes, nodeSize);
    MakesBoth(PoolHead(env, pool, mode), Section(pool, env.dbUser, mainSize, env.dbPassword),
              [ModeTable(pool, mode)] + [ShardTable(env, pool)],
              [UserTable(pool, env.dbUser, mainSize, env.dbPassword)]);
    MakesBoth(PoolHead(env, pool, mode) + Section(pool, env.dbUser, mainSize, env.dbPassword),
              Sections(pool, nodes, nodeSize),
              [ModeTable(pool, mode)] + [ShardTable(env, pool)]
              + [UserTable(pool, env.dbUser, mainSize, env.dbPassword)],
              UserTables(pool, nodes, nodeSize));
  }

  // ---- The general part -------------------------------------------------------------------

  ghost predicate Good(entry: Entry) {
    Key(entry.key) && OneLine(entry.key) && OneLine(entry.value)
  }

  lemma GivesFixed(entry: Entry)
    requires Good(entry)
    ensures Gives([Setting(entry.key, entry.value)], [entry])
  {
    GivesSetting(Setting(entry.key, entry.value), entry.key, entry.value);
  }

  lemma GivesTwoFixed(x: Entry, y: Entry)
    requires Good(x) && Good(y)
    ensures Gives([Setting(x.key, x.value), Setting(y.key, y.value)], [x, y])
  {
    GivesFixed(x);
    GivesFixed(y);
    GivesTwo(Setting(x.key, x.value), Setting(y.key, y.value), x, y);
  }

  /** A block that ends with a blank line. */
  lemma GivesBlock(lines: seq<string>, entries: seq<Entry>)
    requires Gives(lines, entries)
    ensures Gives(lines + [""], entries)
  {
    GivesNothing("");
    GivesBoth(lines, [""], entries, []);
    assert entries + [] == entries;
  }

  /** A block that begins with comments. */
  lemma GivesNoted(comments: seq<string>, lines: seq<string>, entries: seq<Entry>)
    requires Gives(lines, entries) && forall i :: 0 <= i < |comments| ==> OneLine(comments[i]) && Remark(comments[i])
    ensures Gives(comments + lines, entries)
  {
    CommentsGiveNothing(comments);
    GivesBoth(comments, lines, [], entries);
    assert [] + entries == entries;
  }

  ghost predicate Remark(line: string) {
    line == "" || line[0] == '#'
  }

  lemma ServerBlock(a: Entry, b: Entry, c: Entry, d: Entry)
    requires Good(a) && Good(b) && Good(c) && Good(d)
    ensures Gives([Setting(a.key, a.value), Setting(b.key, b.value), Setting(c.key, c.value), Setting(d.key, d.value),
                   ""], [a, b, c, d])
  {
    GivesTwoFixed(a, b);
    GivesTwoFixed(c, d);
    var x, y := [Setting(a.key, a.value), Setting(b.key, b.value)], [Setting(c.key, c.value), Setting(d.key, d.value)];
    GivesBoth(x, y, [a, b], [c, d]);
    GivesBlock(x + y, [a, b] + [c, d]);
    assert [a, b] + [c, d] == [a, b, c, d];
    assert x + y + [""] == [Setting(a.key, a.value), Setting(b.key, b.value), Setting(c.key, c.value),
                            Setting(d.key, d.value), ""];
  }

  const LIFETIME: Entry := Entry("server_lifetime", "86400000")
  const IDLE: Entry := Entry("idle_timeout", "60000")
  const DNS: Entry := Entry("dns_cache_enabled", "true")
  const DNS_TTL: Entry := Entry("dns_cache_ttl", "30000")
  const PARSER: Entry := Entry("query_parser_enabled", "true")
  const SPLITTING: Entry := Entry("query_parser_read_write_splitting", "true")
  const PRIMARY: Entry := Entry("primary_reads_enabled", "true")
  const CHECK_TIMEOUT: Entry := Entry("healthcheck_timeout", "5000")
  const CHECK_DELAY: Entry := Entry("healthcheck_delay", "30000")
  const BAN: Entry := Entry("ban_time", "60")
  const EXPORTER_ON: Entry := Entry("enable_prometheus_exporter", "true")
  const EXPORTER_PORT: Entry := Entry("prometheus_exporter_port", "9930")

  /** Letters and underscores. */
  ghost predicate Word(s: string) {
    s != "" && forall i :: 0 <= i < |s| ==> s[i] == '_' || 'a' <= s[i] <= 'z'
  }

  lemma WordIsGood(entry: Entry)
    requires Word(entry.key) && OneLine(entry.value)
    ensures Good(entry)
  {
    assert Word(entry.key);
  }

  lemma LifetimeIsGood()
    ensures Good(LIFETIME)
  {
    WordIsGood(LIFETIME);
  }

  lemma IdleIsGood()
    ensures Good(IDLE)
  {
    WordIsGood(IDLE);
  }

  lemma DnsIsGood()
    ensures Good(DNS)
  {
    WordIsGood(DNS);
  }

  lemma DnsTtlIsGood()
    ensures Good(DNS_TTL)
  {
    WordIsGood(DNS_TTL);
  }

  lemma ParserIsGood()
    ensures Good(PARSER)
  {
    WordIsGood(PARSER);
  }

  lemma SplittingIsGood()
    ensures Good(SPLITTING)
  {
    WordIsGood(SPLITTING);
  }

  lemma PrimaryIsGood()
    ensures Good(PRIMARY)
  {
    WordIsGood(PRIMARY);
  }

  lemma CheckTimeoutIsGood()
    ensures Good(CHECK_TIMEOUT)
  {
    WordIsGood(CHECK_TIMEOUT);
  }

  lemma CheckDelayIsGood()
    ensures Good(CHECK_DELAY)
  {
    WordIsGood(CHECK_DELAY);
  }

  lemma BanIsGood()
    ensures Good(BAN)
  {
    WordIsGood(BAN);
  }

  lemma ExporterOnIsGood()
    ensures Good(EXPORTER_ON)
  {
    WordIsGood(EXPORTER_ON);
  }

  lemma ExporterPortIsGood()
    ensures Good(EXPORTER_PORT)
  {
    WordIsGood(EXPORTER_PORT);
  }

  lemma ServerGives()
    ensures Gives(SERVER, [LIFETIME, IDLE, DNS, DNS_TTL])
  {
    LifetimeIsGood();
    IdleIsGood();
    DnsIsGood();
    DnsTtlIsGood();
    ServerBlock(LIFETIME, IDLE, DNS, DNS_TTL);
  }

  /** Comments and then settings. */
  lemma NotedBlock(heading: string, a: Entry, b: Entry, c: Entry)
    requires OneLine(heading) && Remark(heading) && Good(a) && Good(b) && Good(c)
    ensures Gives([heading, Setting(a.key, a.value), Setting(b.key, b.value), Setting(c.key, c.value), ""], [a, b, c])
  {
    var lines := [Setting(a.key, a.value), Setting(b.key, b.value), Setting(c.key, c.value)];
    GivesFixed(a);
    GivesFixed(b);
    GivesFixed(c);
    GivesThree(lines[0], lines[1], lines[2], a, b, c);
    GivesBlock(lines, [a, b, c]);
    GivesNoted([heading], lines + [""], [a, b, c]);
    assert [heading] + (lines + [""]) == [heading, lines[0], lines[1], lines[2], ""];
  }

  lemma QueriesGive()
    ensures Gives(QUERIES, [PARSER, SPLITTING, PRIMARY])
  {
    var heading := Heading("Query Parser (Read/Write Splitting)");
    HeadingIsOneLine("Query Parser (Read/Write Splitting)");
    assert heading[0] == '#';
    ParserIsGood();
    SplittingIsGood();
    PrimaryIsGood();
    NotedBlock(heading, PARSER, SPLITTING, PRIMARY);
  }

  lemma HealthBlock(first: string, a: Entry, b: Entry, second: string, c: Entry)
    requires OneLine(first) && Remark(first) && OneLine(second) && Remark(second)
    requires Good(a) && Good(b) && Good(c)
    ensures Gives([first, Setting(a.key, a.value), Setting(b.key, b.value), "", second, Setting(c.key, c.value), ""],
                  [a, b, c])
  {
    var x, y := [Setting(a.key, a.value), Setting(b.key, b.value)], [Setting(c.key, c.value)];
    GivesTwoFixed(a, b);
    GivesBlock(x, [a, b]);
    GivesNoted([first], x + [""], [a, b]);
    GivesFixed(c);
    GivesBlock(y, [c]);
    GivesNoted([second], y + [""], [c]);
    GivesBoth([first] + (x + [""]), [second] + (y + [""]), [a, b], [c]);
    assert [a, b] + [c] == [a, b, c];
    assert [first] + (x + [""]) + ([second] + (y + [""])) == [first, x[0], x[1], "", second, y[0], ""];
  }

  lemma HealthGives()
    ensures Gives(HEALTH, [CHECK_TIMEOUT, CHECK_DELAY, BAN])
  {
    var first, second := Heading("Health Checks"), Heading("Banning");
    HeadingIsOneLine("Health Checks");
    HeadingIsOneLine("Banning");
    assert first[0] == second[0] == '#';
    CheckTimeoutIsGood();
    CheckDelayIsGood();
    BanIsGood();
    HealthBlock(first, CHECK_TIMEOUT, CHECK_DELAY, second, BAN);
  }

  lemma ExporterBlock(heading: string, notes: seq<string>, a: Entry, b: Entry)
    requires OneLine(heading) && Remark(heading) && Good(a) && Good(b)
    requires forall i :: 0 <= i < |notes| ==> OneLine(notes[i]) && Remark(notes[i])
    ensures Gives([heading] + notes + [Setting(a.key, a.value), Setting(b.key, b.value), ""], [a, b])
  {
    var lines := [Setting(a.key, a.value), Setting(b.key, b.value)];
    GivesTwoFixed(a, b);
    GivesBlock(lines, [a, b]);
    GivesNoted([heading] + notes, lines + [""], [a, b]);
    assert lines + [""] == [lines[0], lines[1], ""];
  }

  lemma ExporterGives(env: Env)
    ensures Gives(Exporter(env), [EXPORTER_ON, EXPORTER_PORT])
  {
    var heading := Heading("Prometheus Exporter");
    HeadingIsOneLine("Prometheus Exporter");
    assert heading[0] == '#';
    ExporterOnIsGood();
    ExporterPortIsGood();
    ExporterBlock(heading, env.notes, EXPORTER_ON, EXPORTER_PORT);
  }

  /** The admin's credentials. */
  function Credentials(env: Env): seq<Entry> {
    [Entry("admin_username", Quoted(env.adminUser)),
     Entry("admin_password", Quoted(if env.adminPassword == "" then "pgcat_admin" else env.adminPassword))]
  }

  lemma AdminGives(env: Env)
    requires OneLine(env.adminUser) && OneLine(env.adminPassword)
    ensures Gives(AdminValues(env), Credentials(env))
  {
    var password := if env.adminPassword == "" then "pgcat_admin" else env.adminPassword;
    GivesQuoted("admin_username", env.adminUser);
    GivesQuoted("admin_password", password);
    var lines := AdminValues(env);
    assert "admin_username" + " = " + Quoted(env.adminUser) == lines[0];
    assert "admin_password" + " = " + Quoted(password) == lines[1];
    GivesTwo(lines[0], lines[1], Credentials(env)[0], Credentials(env)[1]);
  }

  lemma FiveGive(a: seq<string>, b: seq<string>, c: seq<string>, d: seq<string>, e: seq<string>,
                 v: seq<Entry>, w: seq<Entry>, x: seq<Entry>, y: seq<Entry>, z: seq<Entry>)
    requires Gives(a, v) && Gives(b, w) && Gives(c, x) && Gives(d, y) && Gives(e, z)
    ensures Gives(a + b + c + d + e, v + w + x + y + z)
  {
    GivesBoth(a, b, v, w);
    GivesBoth(a + b, c, v + w, x);
    GivesBoth(a + b + c, d, v + w + x, y);
    GivesBoth(a + b + c + d, e, v + w + x + y, z);
  }

  function FixedSettings(): seq<Entry> {
    [LIFETIME, IDLE, DNS, DNS_TTL] + [PARSER, SPLITTING, PRIMARY] + [CHECK_TIMEOUT, CHECK_DELAY, BAN]
    + [EXPORTER_ON, EXPORTER_PORT]
  }

  lemma GeneralMakes(env: Env)
    requires OneLine(env.adminUser) && OneLine(env.adminPassword)
    ensures Makes(General(env), [Table("general", Credentials(env) + FixedSettings())])
  {
    AdminGives(env);
    ServerGives();
    QueriesGive();
    HealthGives();
    ExporterGives(env);
    GeneralTogether(AdminValues(env), SERVER, QUERIES, HEALTH, Exporter(env), Credentials(env),
                    [LIFETIME, IDLE, DNS, DNS_TTL], [PARSER, SPLITTING, PRIMARY], [CHECK_TIMEOUT, CHECK_DELAY, BAN],
                    [EXPORTER_ON, EXPORTER_PORT]);
  }

  lemma GeneralTogether(a: seq<string>, b: seq<string>, c: seq<string>, d: seq<string>, e: seq<string>,
                        v: seq<Entry>, w: seq<Entry>, x: seq<Entry>, y: seq<Entry>, z: seq<Entry>)
    requires Gives(a, v) && Gives(b, w) && Gives(c, x) && Gives(d, y) && Gives(e, z)
    ensures Makes(["[general]"] + a + b + c + d + e, [Table("general", v + (w + x + y + z))])
  {
    FiveGive(a, b, c, d, e, v, w, x, y, z);
    assert OneLine("[general]") && "[general]" == "[" + "general" + "]";
    MakesTable("[general]", a + b + c + d + e, "general", v + w + x + y + z);
    assert ["[general]"] + (a + b + c + d + e) == ["[general]"] + a + b + c + d + e;
    assert v + w + x + y + z == v + (w + x + y + z);
  }

  // ---- The whole file ---------------------------------------------------------------------

  lemma FileMakes(env: Env, nodes: seq<User>)
    requires OneLineValues(env, nodes)
    ensures Tables(FileText(env, nodes))
            == [Table("general", Credentials(env) + FixedSettings())]
               + PoolTables(env, APP, "transaction", env.appPool, nodes, 5)
               + PoolTables(env, SESSION, "session", env.workerPool, nodes, 3)
  {
    GeneralMakes(env);
    PoolNames();
    PoolMakes(env, APP, "transaction", env.appPool, nodes, 5);
    PoolMakes(env, SESSION, "session", env.workerPool, nodes, 3);
    Whole(General(env), AppPart(env, nodes), SessionPart(env, nodes),
          [Table("general", Credentials(env) + FixedSettings())],
          PoolTables(env, APP, "transaction", env.appPool, nodes, 5),
          PoolTables(env, SESSION, "session", env.workerPool, nodes, 3));
  }

  lemma Whole(a: seq<string>, b: seq<string>, c: seq<string>, x: seq<Table>, y: seq<Table>, z: seq<Table>)
    requires Makes(a, x) && Makes(b, y) && Makes(c, z) && y != []
    ensures Tables(Join(a + b + [""] + c, '\n') + "\n") == x + y + z
  {
    var lines := a + b + [""] + c;
    GivesNothing("");
    MakesMore(b, [""], y);
    MakesBoth(a, b + [""], x, y);
    assert a + (b + [""]) == a + b + [""];
    MakesBoth(a + b + [""], c, x + y, z);
    TextFeeds([], lines);
    LastLine(Join(lines, '\n'));
    assert MakesAfter(lines, x + y + z, []);
  }

  lemma LastLine(text: string)
    ensures Tables(text + "\n") == Tables(text)
  {
    SplitConcat(text, "", '\n');
    assert text + "\n" == text + ['\n'] + "";
    FeedBoth([], Split(text, '\n'), [""]);
    FeedNothing(Tables(text));
  }

  lemma FeedNothing(tables: seq<Table>)
    ensures FeedAll(tables, [""]) == tables
  {
  }

  /** The six kinds of tables that the file holds, in this order: the general one; for either pool its
      mode, its servers, its main user and the node agents' users. */
  lemma TablesAt(t: seq<Table>, general: Table, app: seq<Table>, session: seq<Table>, n: nat)
    requires t == [general] + app + session && |app| == |session| == n + 3
    ensures |t| == 2 * n + 7 && t[0] == general
    ensures forall i :: 0 <= i < n + 3 ==> t[i + 1] == app[i] && t[n + 4 + i] == session[i]
  {
  }

  lemma PoolTablesAt(env: Env, pool: string, mode: string, mainSize: int, nodes: seq<User>, nodeSize: int)
    ensures var tables := PoolTables(env, pool, mode, mainSize, nodes, nodeSize);
            && |tables| == |nodes| + 3
            && tables[0] == ModeTable(pool, mode) && tables[1] == ShardTable(env, pool)
            && tables[2] == UserTable(pool, env.dbUser, mainSize, env.dbPassword)
            && forall i :: 0 <= i < |nodes| ==>
                 tables[i + 3] == UserTable(pool, nodes[i].name, nodeSize, nodes[i].password)
  {
    var users := UserTables(pool, nodes, nodeSize);
    assert forall i :: 0 <= i < |nodes| ==>
             PoolTables(env, pool, mode, mainSize, nodes, nodeSize)[i + 3] == users[i];
  }

  lemma FileTables(env: Env, nodes: seq<User>) returns (t: seq<Table>, app: seq<Table>, session: seq<Table>)
    requires OneLineValues(env, nodes)
    ensures t == Tables(FileText(env, nodes)) && |t| == 2 * |nodes| + 7
    ensures t[0] == Table("general", Credentials(env) + FixedSettings())
    ensures app == PoolTables(env, APP, "transaction", env.appPool, nodes, 5)
    ensures session == PoolTables(env, SESSION, "session", env.workerPool, nodes, 3)
    ensures |app| == |session| == |nodes| + 3
    ensures forall i :: 0 <= i < |nodes| + 3 ==> t[i + 1] == app[i] && t[|nodes| + 4 + i] == session[i]
  {
    app := PoolTables(env, APP, "transaction", env.appPool, nodes, 5);
    session := PoolTables(env, SESSION, "session", env.workerPool, nodes, 3);
    t := Tables(FileText(env, nodes));
    var general := Table("general", Credentials(env) + FixedSettings());
    assert t == [general] + app + session by {
      FileMakes(env, nodes);
    }
    PoolLength(env, APP, "transaction", env.appPool, nodes, 5);
    PoolLength(env, SESSION, "session", env.workerPool, nodes, 3);
    TablesAt(t, general, app, session, |nodes|);
  }

  lemma PoolLength(env: Env, pool: string, mode: string, mainSize: int, nodes: seq<User>, nodeSize: int)
    ensures |PoolTables(env, pool, mode, mainSize, nodes, nodeSize)| == |nodes| + 3
  {
  }

  /** The general part holds the admin's credentials and the fixed settings, and nothing else. */
  lemma GeneralSettings(env: Env, nodes: seq<User>)
    requires OneLineValues(env, nodes)
    ensures var t := Tables(FileText(env, nodes));
            && |t| == 2 * |nodes| + 7
            && t[0].title == "general"
            && t[0].entries
               == [Entry("admin_username", Quoted(env.adminUser)),
                   Entry("admin_password", Quoted(if env.adminPassword == "" then "pgcat_admin"
                                                  else env.adminPassword))]
                + [Entry("server_lifetime", "86400000"), Entry("idle_timeout", "60000"),
                   Entry("dns_cache_enabled", "true"), Entry("dns_cache_ttl", "30000"),
                   Entry("query_parser_enabled", "true"), Entry("query_parser_read_write_splitting", "true"),
                   Entry("primary_reads_enabled", "true"), Entry("healthcheck_timeout", "5000"),
                   Entry("healthcheck_delay", "30000"), Entry("ban_time", "60"),
                   Entry("enable_prometheus_exporter", "true"), Entry("prometheus_exporter_port", "9930")]
  {
    var t, app, session := FileTables(env, nodes);
    FixedInOneList();
    assert t[0].entries == Credentials(env) + FixedSettings();
  }

  lemma FixedInOneList()
    ensures FixedSettings()
            == [LIFETIME, IDLE, DNS, DNS_TTL, PARSER, SPLITTING, PRIMARY, CHECK_TIMEOUT, CHECK_DELAY, BAN,
                EXPORTER_ON, EXPORTER_PORT]
  {
  }

  /** Each pool has its own mode, the servers and the database. */
  lemma PoolSettings(env: Env, nodes: seq<User>)
    requires OneLineValues(env, nodes)
    ensures var t, session := Tables(FileText(env, nodes)), |nodes| + 4;
            var shard := [Entry("servers", "[" + JoinWith([env.primary] + env.replicas, ",\n        ") + "]"),
                          Entry("database", Quoted(env.dbName))];
            && |t| == 2 * |nodes| + 7
            && t[1] == Table("pools." + "smsly_hosting", [Entry("pool_mode", Quoted("transaction"))])
            && t[2] == Table("pools." + "smsly_hosting" + ".shards.0", shard)
            && t[session] == Table("pools." + "smsly_hosting_session", [Entry("pool_mode", Quoted("session"))])
            && t[session + 1] == Table("pools." + "smsly_hosting_session" + ".shards.0", shard)
  {
    var t, app, session := FileTables(env, nodes);
    PoolTablesAt(env, APP, "transaction", env.appPool, nodes, 5);
    PoolTablesAt(env, SESSION, "session", env.workerPool, nodes, 3);
    assert t[1] == app[0] && t[2] == app[1] && t[|nodes| + 4] == session[0] && t[|nodes| + 4 + 1] == session[1];
  }

  /** Under the heading of a user stand that user's own name, password and size: the main user's in
      either pool with the configured size. */
  lemma MainUserSettings(env: Env, nodes: seq<User>)
    requires OneLineValues(env, nodes)
    ensures var t, session := Tables(FileText(env, nodes)), |nodes| + 4;
            && |t| == 2 * |nodes| + 7
            && IsUserTable(t[3], "smsly_hosting", env.dbUser, Signed(env.appPool), env.dbPassword)
            && IsUserTable(t[session + 2], "smsly_hosting_session", env.dbUser, Signed(env.workerPool), env.dbPassword)
  {
    var t, app, session := FileTables(env, nodes);
    PoolTablesAt(env, APP, "transaction", env.appPool, nodes, 5);
    PoolTablesAt(env, SESSION, "session", env.workerPool, nodes, 3);
    assert t[2 + 1] == app[2] && t[|nodes| + 4 + 2] == session[2];
  }

  /** And then each node agent's, with five connections in the one pool and three in the other. */
  lemma NodeSettings(env: Env, nodes: seq<User>, i: nat)
    requires OneLineValues(env, nodes) && i < |nodes|
    ensures var t, session := Tables(FileText(env, nodes)), |nodes| + 4;
            && |t| == 2 * |nodes| + 7
            && IsUserTable(t[4 + i], "smsly_hosting", nodes[i].name, "5", nodes[i].password)
            && IsUserTable(t[session + 3 + i], "smsly_hosting_session", nodes[i].name, "3", nodes[i].password)
  {
    var t, app, session := FileTables(env, nodes);
    PoolTablesAt(env, APP, "transaction", env.appPool, nodes, 5);
    PoolTablesAt(env, SESSION, "session", env.workerPool, nodes, 3);
    assert t[3 + i + 1] == app[3 + i] && t[|nodes| + 4 + (3 + i)] == session[3 + i];
    assert Signed(5) == "5" && Signed(3) == "3";
  }

  predicate IsUserTable(table: Table, pool: string, name: string, size: string, password: string) {
    && table.title == "pools." + pool + ".users." + name
    && table.entries == [Entry("username", "\"" + name + "\""), Entry("pool_size", size),
                         Entry("password", "\"" + password + "\"")]
  }
}
