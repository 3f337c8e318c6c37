/** The PgCat configuration renderer: the connection budget and the lines it emits. */
module PgcatConfig {
  import opened Wrappers
  import opened Strings
  import opened Decimal

  const RESERVED: int := 5
  const APP: string := "smsly_hosting"
  const SESSION: string := "smsly_hosting_session"

  // ---- The node agents' users -------------------------------------------------------------

  /** A lite-agent row; an absent value is the empty string. */
  datatype Row = Row(password: string, metaPassword: string, metaUser: string, metaNodeId: string)

  datatype User = User(name: string, password: string)

  function Either(a: string, b: string): string {
    if a != "" then a else b
  }

  /** The user a row gives: the stored name, or one made of the node ID's part before the first
      dash; none without a name or without a password. */
  function RowUser(row: Row): Option<User> {
    var prefix := if row.metaNodeId != "" then Split(row.metaNodeId, '-')[0] else "";
    var name := Either(row.metaUser, if prefix != "" then "node_agent_" + prefix else "");
    var password := Either(row.password, row.metaPassword);
    if name != "" && password != "" then Some(User(name, password)) else None
  }

  /** The text before the first dash of the node ID, or all of it. */
  ghost predicate IsPrefix(nodeId: string, prefix: string, rest: string) {
    nodeId == prefix + rest && '-' !in prefix && (rest == "" || rest[0] == '-')
  }

  lemma {:induction false} FirstPart(text: string) returns (rest: string)
    ensures IsPrefix(text, Split(text, '-')[0], rest)
  {
    if text == "" || text[0] == '-' {
      rest := text;
    } else {
      rest := FirstPart(text[1..]);
      assert text == [text[0]] + text[1..];
    }
  }

  lemma {:induction false} OnlyPrefix(text: string, prefix: string, rest: string)
    requires IsPrefix(text, prefix, rest)
    ensures prefix == Split(text, '-')[0]
  {
    if prefix == "" {
      assert text == rest;
    } else {
      assert text[0] == prefix[0] && text[1..] == prefix[1..] + rest;
      OnlyPrefix(text[1..], prefix[1..], rest);
      assert prefix == [prefix[0]] + prefix[1..];
    }
  }

  /** Exactly which user a row gives: with the stored password or else the old one, under the stored
      name or else the one made of the node ID's text before the first dash. */
  lemma RowUserExactly(row: Row, user: User)
    ensures RowUser(row) == Some(user)
            <==> user.name != "" && user.password != ""
                 && user.password == (if row.password != "" then row.password else row.metaPassword)
                 && (if row.metaUser != "" then user.name == row.metaUser
                     else exists prefix, rest :: IsPrefix(row.metaNodeId, prefix, rest) && prefix != ""
                                                && user.name == "node_agent_" + prefix)
  {
    var rest := FirstPart(row.metaNodeId);
    if row.metaUser == "" {
      if prefix, end :| IsPrefix(row.metaNodeId, prefix, end) && prefix != "" && user.name == "node_agent_" + prefix {
        OnlyPrefix(row.metaNodeId, prefix, end);
      }
    }
  }

  ghost predicate Gives(row: Row, name: string) {
    RowUser(row).Some? && RowUser(row).value.name == name
  }

  ghost predicate LastAt(rows: seq<Row>, user: User, k: int) {
    0 <= k < |rows| && RowUser(rows[k]) == Some(user) && forall j :: k < j < |rows| ==> !Gives(rows[j], user.name)
  }

  /** The user is the last one that a row gives under its name. */
  ghost predicate LastOfItsName(rows: seq<Row>, user: User) {
    exists k :: LastAt(rows, user, k)
  }

  /** The first row that gives the name. */
  ghost predicate FirstAt(rows: seq<Row>, name: string, k: int) {
    0 <= k < |rows| && Gives(rows[k], name) && forall j :: 0 <= j < k ==> !Gives(rows[j], name)
  }

  /** The names come in the order in which the rows first give them. */
  ghost predicate InOrder(rows: seq<Row>, users: seq<User>) {
    forall i, j, a, b :: 0 <= i < j < |users| && FirstAt(rows, users[i].name, a) && FirstAt(rows, users[j].name, b)
      ==> a < b
  }

  ghost predicate DistinctNames(users: seq<User>) {
    forall i, j :: 0 <= i < j < |users| ==> users[i].name != users[j].name
  }

  /** One user for each name that a row gives, in the order of first occurrence, with the password
      of the last such row; a failed query gives none. */
  method FetchNodeAgentUsers(rows: seq<Row>, fails: bool) returns (users: seq<User>)
    ensures DistinctNames(users)
    ensures AllFilled(users)
    ensures !fails ==> AreLast(users, rows)
    ensures InOrder(rows, users)
    ensures fails ==> users == []
  {
    users := [];
    if fails {
      return;
    }
    ghost var firsts: seq<int> := [];
    for i := 0 to |rows|
      invariant Collected(rows, users, firsts, i)
    {
      var given := RowUser(rows[i]);
      if given.Some? {
        var at := IndexOf(users, given.value.name);
        Collects(rows, users, firsts, given.value, at, i);
        firsts := if at >= 0 then firsts else firsts + [i];
        users := if at >= 0 then users[at := given.value] else users + [given.value];
      } else {
        NothingToCollect(rows, users, firsts, i);
      }
    }
    assert rows[..|rows|] == rows;
  }

  /** What the first i rows give. */
  ghost predicate Collected(rows: seq<Row>, users: seq<User>, firsts: seq<int>, i: nat)
    requires i <= |rows|
  {
    DistinctNames(users) && AllFilled(users) && AreLast(users, rows[..i]) && Firsts(rows, users, firsts, i)
  }

  ghost predicate AllFilled(users: seq<User>) {
    forall k :: 0 <= k < |users| ==> users[k].name != "" && users[k].password != ""
  }

  /** The users are exactly the last ones that the rows give under each name. */
  ghost predicate AreLast(users: seq<User>, rows: seq<Row>) {
    forall user :: user in users <==> LastOfItsName(rows, user)
  }

  ghost predicate Named(users: seq<User>, name: string) {
    exists k :: 0 <= k < |users| && users[k].name == name
  }

  /** The first i rows first give the users' names at these positions, and no other name. */
  ghost predicate Firsts(rows: seq<Row>, users: seq<User>, firsts: seq<int>, i: nat)
    requires i <= |rows|
  {
    && |firsts| == |users|
    && (forall k :: 0 <= k < |users| ==> FirstAt(rows, users[k].name, firsts[k]) && firsts[k] < i)
    && (forall k, m :: 0 <= k < m < |users| ==> firsts[k] < firsts[m])
    && forall j :: 0 <= j < i && RowUser(rows[j]).Some? ==> Named(users, RowUser(rows[j]).value.name)
  }

  lemma NothingToCollect(rows: seq<Row>, users: seq<User>, firsts: seq<int>, i: nat)
    requires i < |rows| && Collected(rows, users, firsts, i) && RowUser(rows[i]).None?
    ensures Collected(rows, users, firsts, i + 1)
  {
    forall user ensures user in users <==> LastOfItsName(rows[..i + 1], user) {
      OneMoreRow(rows, i, user);
    }
  }

  lemma Collects(rows: seq<Row>, users: seq<User>, firsts: seq<int>, given: User, at: int, i: nat)
    requires i < |rows| && Collected(rows, users, firsts, i) && RowUser(rows[i]) == Some(given) && -1 <= at < |users|
    requires if at >= 0 then users[at].name == given.name else !Named(users, given.name)
    ensures Collected(rows, if at >= 0 then users[at := given] else users + [given],
                      if at >= 0 then firsts else firsts + [i], i + 1)
  {
    var after := if at >= 0 then users[at := given] else users + [given];
    CollectsLast(rows, users, after, given, at, i);
    if at >= 0 {
      OldName(rows, users, firsts, given, at, i);
    } else {
      NewName(rows, users, firsts, given, i);
    }
  }

  lemma CollectsLast(rows: seq<Row>, users: seq<User>, after: seq<User>, given: User, at: int, i: nat)
    requires i < |rows| && RowUser(rows[i]) == Some(given) && -1 <= at < |users|
    requires DistinctNames(users) && AllFilled(users) && AreLast(users, rows[..i])
    requires if at >= 0 then users[at].name == given.name else !Named(users, given.name)
    requires after == if at >= 0 then users[at := given] else users + [given]
    ensures DistinctNames(after) && AllFilled(after) && AreLast(after, rows[..i + 1])
  {
    assert at < 0 ==> forall k :: 0 <= k < |users| ==> users[k].name != given.name;
    forall user ensures user in after <==> LastOfItsName(rows[..i + 1], user) {
      OneMoreRow(rows, i, user);
      Replaced(users, after, at, given, user);
    }
  }

  lemma OldName(rows: seq<Row>, users: seq<User>, firsts: seq<int>, given: User, at: nat, i: nat)
    requires i < |rows| && Firsts(rows, users, firsts, i) && RowUser(rows[i]) == Some(given)
    requires at < |users| && users[at].name == given.name
    ensures Firsts(rows, users[at := given], firsts, i + 1)
  {
    var after := users[at := given];
    SameNames(users, after);
    forall j | 0 <= j < i + 1 && RowUser(rows[j]).Some? ensures Named(after, RowUser(rows[j]).value.name) {
      if j == i {
        assert after[at].name == given.name;
      } else {
        assert Named(users, RowUser(rows[j]).value.name);
      }
    }
  }

  lemma SameNames(users: seq<User>, after: seq<User>)
    requires |users| == |after| && forall k :: 0 <= k < |users| ==> after[k].name == users[k].name
    ensures forall name :: Named(users, name) ==> Named(after, name)
  {
    forall name | Named(users, name) ensures Named(after, name) {
      var k :| 0 <= k < |users| && users[k].name == name;
      assert after[k].name == name;
    }
  }

  lemma NewName(rows: seq<Row>, users: seq<User>, firsts: seq<int>, given: User, i: nat)
    requires i < |rows| && Firsts(rows, users, firsts, i) && RowUser(rows[i]) == Some(given)
    requires !Named(users, given.name)
    ensures Firsts(rows, users + [given], firsts + [i], i + 1)
  {
    var longer := users + [given];
    assert longer[|users|] == given && forall k :: 0 <= k < |users| ==> longer[k] == users[k];
    assert forall name :: Named(users, name) ==> Named(longer, name);
    assert forall j :: 0 <= j < i ==> !Gives(rows[j], given.name);
    assert FirstAt(rows, given.name, i);
  }

  method IndexOf(users: seq<User>, name: string) returns (at: int)
    ensures -1 <= at < |users|
    ensures at >= 0 ==> users[at].name == name
    ensures at == -1 ==> forall i :: 0 <= i < |users| ==> users[i].name != name
  {
    for i := 0 to |users|
      invariant forall k :: 0 <= k < i ==> users[k].name != name
    {
      if users[i].name == name {
        return i;
      }
    }
    return -1;
  }

  /** A further row decides for the users of its name and changes nothing for the others. */
  lemma OneMoreRow(rows: seq<Row>, i: nat, user: User)
    requires i < |rows|
    ensures LastOfItsName(rows[..i + 1], user)
            <==> if Gives(rows[i], user.name) then RowUser(rows[i]).value == user else LastOfItsName(rows[..i], user)
  {
    var shorter, longer := rows[..i], rows[..i + 1];
    assert longer == shorter + [rows[i]];
    if LastOfItsName(longer, user) {
      var k :| LastAt(longer, user, k);
      if k < i {
        assert !Gives(longer[i], user.name);
        LastStays(shorter, rows[i], user, k);
      }
    }
    if RowUser(rows[i]) == Some(user) {
      assert LastAt(longer, user, i);
    } else if !Gives(rows[i], user.name) && LastOfItsName(shorter, user) {
      var k :| LastAt(shorter, user, k);
      LastStays(shorter, rows[i], user, k);
    }
  }

  lemma LastStays(rows: seq<Row>, next: Row, user: User, k: nat)
    requires k < |rows| && !Gives(next, user.name)
    ensures LastAt(rows, user, k) <==> LastAt(rows + [next], user, k)
  {
    var longer := rows + [next];
    assert forall j :: 0 <= j < |rows| ==> longer[j] == rows[j];
  }

  lemma Replaced(before: seq<User>, after: seq<User>, at: int, given: User, user: User)
    requires DistinctNames(before) && -1 <= at < |before|
    requires at >= 0 ==> before[at].name == given.name
    requires at == -1 ==> forall i :: 0 <= i < |before| ==> before[i].name != given.name
    requires after == if at >= 0 then before[at := given] else before + [given]
    ensures user in after <==> if given.name == user.name then given == user else user in before
    ensures DistinctNames(after)
  {
    if at >= 0 {
      assert after[at] == given;
      assert forall i :: 0 <= i < |before| && i != at ==> after[i] == before[i];
    } else {
      assert after[|before|] == given;
    }
  }

  // ---- Rendering --------------------------------------------------------------------------

  /** A comment line of the file. */
  type Comment = s: string | s != "" && s[0] == '#' && '\n' !in s witness "#"

  /** The environment, as far as the renderer reads it; the servers are the rendered entries. The
      three sizes are what `int` makes of their texts, if `numeric` says that it accepts them all.
      The notes stand for the comment of fixed wording on the exporter. */
  datatype Env = Env(dbHost: string, dbUser: string, dbPassword: string, dbName: string,
                     primary: string, replicas: seq<string>,
                     adminUser: string, adminPassword: string, production: bool, numeric: bool,
                     appPool: int, workerPool: int, maxConnections: int, notes: seq<Comment>)

  datatype Error = Missing | InsecureAdminPassword | NotANumber | OverBudget

  predicate HasRequired(env: Env) {
    env.dbHost != "" && env.dbUser != "" && env.dbPassword != "" && env.dbName != ""
  }

  predicate Insecure(env: Env) {
    env.adminPassword == "" || env.adminPassword == "pgcat_admin"
  }

  /** The four lines of one user of a pool. */
  function Section(pool: string, name: string, size: int, password: string): seq<string> {
    ["[pools." + pool + ".users." + name + "]", "username = \"" + name + "\"",
     "pool_size = " + Signed(size), PasswordLine(password)]
  }

  function PasswordLine(password: string): string {
    "password = \"" + password + "\""
  }

  function Sections(pool: string, users: seq<User>, size: int): seq<string> {
    if users == [] then []
    else
      var last := users[|users| - 1];
      Sections(pool, users[..|users| - 1], size) + Section(pool, last.name, size, last.password)
  }

  /** A heading filled up to 75 characters. */
  function Heading(title: string): string
    requires |title| < 69
  {
    "# \U{2500}\U{2500} " + title + " " + seq(69 - |title|, _ => '\U{2500}')
  }

  /** A setting of fixed value. */
  function Setting(key: string, value: string): string {
    key + " = " + value
  }

  const SERVER: seq<string> :=
    [Setting("server_lifetime", "86400000"), Setting("idle_timeout", "60000"),
     Setting("dns_cache_enabled", "true"), Setting("dns_cache_ttl", "30000"), ""]
  const QUERIES: seq<string> :=
    [Heading("Query Parser (Read/Write Splitting)"),
     Setting("query_parser_enabled", "true"), Setting("query_parser_read_write_splitting", "true"),
     Setting("primary_reads_enabled", "true"), ""]
  const HEALTH: seq<string> :=
    [Heading("Health Checks"), Setting("healthcheck_timeout", "5000"), Setting("healthcheck_delay", "30000"), "",
     Heading("Banning"), Setting("ban_time", "60"), ""]

  function Exporter(env: Env): seq<string> {
    [Heading("Prometheus Exporter")] + env.notes
    + [Setting("enable_prometheus_exporter", "true"), Setting("prometheus_exporter_port", "9930"), ""]
  }

  /** The lines of the general part that hold values. */
  function AdminValues(env: Env): seq<string> {
    ["admin_username = \"" + env.adminUser + "\"",
     "admin_password = \"" + (if Insecure(env) then "pgcat_admin" else env.adminPassword) + "\""]
  }

  function Admin(env: Env): seq<string> {
    ["[general]"] + AdminValues(env)
  }

  /** The general lines. */
  function General(env: Env): seq<string> {
    Admin(env) + SERVER + QUERIES + HEALTH + Exporter(env)
  }

  const INDENT: string := "        "

  /** What follows the first server: each replica on a line of its own. */
  function MoreServers(replicas: seq<string>): string {
    if replicas == [] then "]" else ",\n" + (INDENT + replicas[0] + MoreServers(replicas[1..]))
  }

  function ServersLine(env: Env): string {
    "servers = [" + env.primary + MoreServers(env.replicas)
  }

  function PoolHead(env: Env, pool: string, mode: string): seq<string> {
    ["[pools." + pool + "]", "pool_mode = \"" + mode + "\"", "", "[pools." + pool + ".shards.0]",
     ServersLine(env), DatabaseLine(env)]
  }

  function DatabaseLine(env: Env): string {
    "database = \"" + env.dbName + "\""
  }

  /** One pool: its head, the main user and the node agents. */
  function Pool(env: Env, pool: string, mode: string, mainSize: int, nodes: seq<User>, nodeSize: int): seq<string> {
    PoolHead(env, pool, mode) + Section(pool, env.dbUser, mainSize, env.dbPassword) + Sections(pool, nodes, nodeSize)
  }

  function AppPart(env: Env, nodes: seq<User>): seq<string> {
    Pool(env, APP, "transaction", env.appPool, nodes, 5)
  }

  function SessionPart(env: Env, nodes: seq<User>): seq<string> {
    Pool(env, SESSION, "session", env.workerPool, nodes, 3)
  }

  /** All elements of the list of lines. */
  function ConfigLines(env: Env, nodes: seq<User>): seq<string> {
    General(env) + AppPart(env, nodes) + [""] + SessionPart(env, nodes)
  }

  /** The text written to the file. */
  function FileText(env: Env, nodes: seq<User>): string {
    Join(ConfigLines(env, nodes), '\n') + "\n"
  }

  /** The connections asked for: the two pools, five reserved, and eight for each node agent. */
  function TotalRequested(env: Env, nodes: seq<User>): int {
    env.appPool + env.workerPool + RESERVED + |nodes| * 8
  }

  /** The text of the file, or the reason for which none is written. */
  method Render(env: Env, nodes: seq<User>) returns (result: Result<string, Error>)
    ensures result.Ok? ==> result.value == FileText(env, nodes)
    ensures var missing := env.dbHost == "" || env.dbUser == "" || env.dbPassword == "" || env.dbName == "";
            var insecure := env.production && (env.adminPassword == "" || env.adminPassword == "pgcat_admin");
            var requested := env.appPool + env.workerPool + 5 + 8 * |nodes|;
            && (result.Ok? <==> !missing && !insecure && env.numeric && requested <= env.maxConnections)
            && (result == Err(Missing) <==> missing)
            && (result == Err(InsecureAdminPassword) <==> !missing && insecure)
            && (result == Err(NotANumber) <==> !missing && !insecure && !env.numeric)
            && (result == Err(OverBudget) <==> !missing && !insecure && env.numeric && requested > env.maxConnections)
  {
    if !HasRequired(env) {
      return Err(Missing);
    }
    if Insecure(env) && env.production {
      return Err(InsecureAdminPassword);
    }
    if !env.numeric {
      return Err(NotANumber);
    }
    if TotalRequested(env, nodes) > env.maxConnections {
      return Err(OverBudget);
    }
    var lines := General(env) + PoolHead(env, APP, "transaction");
    lines := lines + Section(APP, env.dbUser, env.appPool, env.dbPassword);
    lines := AppendNodes(lines, APP, nodes, 5);
    Grouped(General(env), PoolHead(env, APP, "transaction"), Section(APP, env.dbUser, env.appPool, env.dbPassword),
            Sections(APP, nodes, 5));
    ghost var first := lines;
    lines := lines + [""] + PoolHead(env, SESSION, "session");
    lines := lines + Section(SESSION, env.dbUser, env.workerPool, env.dbPassword);
    lines := AppendNodes(lines, SESSION, nodes, 3);
    Grouped(first + [""], PoolHead(env, SESSION, "session"),
            Section(SESSION, env.dbUser, env.workerPool, env.dbPassword),
            Sections(SESSION, nodes, 3));
    return Ok(Join(lines, '\n') + "\n");
  }

  method AppendNodes(before: seq<string>, pool: string, nodes: seq<User>, size: int) returns (lines: seq<string>)
    ensures lines == before + Sections(pool, nodes, size)
  {
    lines := before;
    for i := 0 to |nodes|
      invariant lines == before + Sections(pool, nodes[..i], size)
    {
      lines := lines + Section(pool, nodes[i].name, size, nodes[i].password);
      assert nodes[..i + 1][..i] == nodes[..i];
    }
    assert nodes[..|nodes|] == nodes;
  }

  lemma Grouped<T>(a: seq<T>, b: seq<T>, c: seq<T>, d: seq<T>)
    ensures a + b + c + d == a + (b + c + d)
  {
  }
}
