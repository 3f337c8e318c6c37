/** The edge sidecar's allow-list and secret holder: what they load and what they answer. */
module EdgeSidecar {
  import opened Wrappers
  import opened Strings
  import HotReload

  /** Go's Unicode tables and JSON decoder, which the sidecar relies on. */
  datatype Library = Library(lower: char -> char, space: char -> bool, json: string -> Option<seq<string>>)

  /** `strings.ToLower(strings.TrimSpace(strings.TrimSuffix(d, ".")))`. */
  function Normalise(lib: Library, d: string): string {
    var stem := if d != "" && d[|d| - 1] == '.' then d[..|d| - 1] else d;
    Map(Trim(stem, lib.space), lib.lower)
  }

  /** The text is one trailing dot, if there is one, after white space around a core, and the core in
      lower case is what remains; the core neither starts nor ends with white space. */
  ghost predicate NormalForm(lib: Library, d: string, t: string, before: string, core: string, after: string,
                             dot: string) {
    && d == before + core + after + dot && (dot == "." || (dot == "" && (d == "" || d[|d| - 1] != '.')))
    && (forall c :: c in before + after ==> lib.space(c))
    && (core != "" ==> !lib.space(core[0]) && !lib.space(core[|core| - 1]))
    && |t| == |core| && forall i :: 0 <= i < |core| ==> t[i] == lib.lower(core[i])
  }

  /** Normalising takes off one trailing dot, then white space at both ends, and lowers the letters. */
  lemma NormaliseMeaning(lib: Library, d: string) returns (before: string, core: string, after: string, dot: string)
    ensures NormalForm(lib, d, Normalise(lib, d), before, core, after, dot)
  {
    var stem := if d != "" && d[|d| - 1] == '.' then d[..|d| - 1] else d;
    dot := if d != "" && d[|d| - 1] == '.' then "." else "";
    core := Trim(stem, lib.space);
    before, after := TrimMeaning(stem, lib.space);
    assert d == stem + dot;
  }

  /** And this says all: whatever text is of that form is what normalising gives. */
  lemma NormaliseExactly(lib: Library, d: string, t: string, before: string, core: string, after: string, dot: string)
    requires NormalForm(lib, d, t, before, core, after, dot)
    ensures t == Normalise(lib, d)
  {
    var stem := before + core + after;
    if dot == "." {
      assert d[|d| - 1] == '.' && d[..|d| - 1] == stem;
    } else {
      assert d == stem;
    }
    if core != "" {
      TrimRemoves(before, core, after, lib.space);
    } else {
      TrimExactly(stem, core, lib.space);
    }
  }

  /** Some entry of the file's list normalises to `d`, which is not empty. */
  ghost predicate Lists(lib: Library, entries: seq<string>, d: string) {
    d != "" && exists i :: 0 <= i < |entries| && Normalise(lib, entries[i]) == d
  }

  function DomainSet(lib: Library, entries: seq<string>): (domains: set<string>)
    ensures forall d :: d in domains <==> Lists(lib, entries, d)
  {
    set i | 0 <= i < |entries| && Normalise(lib, entries[i]) != "" :: Normalise(lib, entries[i])
  }

  /** What an allow-list file decodes to. */
  function DecodeDomains(lib: Library, raw: string): Option<set<string>> {
    match lib.json(raw)
    case None => None
    case Some(entries) => Some(DomainSet(lib, entries))
  }

  /** What a secret file decodes to: a blank file is not a secret. */
  function DecodeSecret(lib: Library, raw: string): Option<string> {
    var trimmed := Trim(raw, lib.space);
    if trimmed == "" then None else Some(trimmed)
  }

  /** The secret is the content without white space at its ends; a file of white space has none. */
  lemma SecretIsTrimmed(lib: Library, raw: string, secret: string)
    ensures DecodeSecret(lib, raw) == Some(secret)
            <==> secret != "" && exists before, after :: Trimmed(raw, secret, lib.space, before, after)
    ensures DecodeSecret(lib, raw).None? <==> forall c :: c in raw ==> lib.space(c)
  {
    TrimExactly(raw, secret, lib.space);
  }

  const STAR: string := "*."

  /** An entry covers the host: the host itself, or a wildcard for a parent domain, that is
      "*." and the text after one of the host's dots. */
  ghost predicate Covers(host: string, entry: string) {
    entry == host || exists j :: 0 <= j < |host| && host[j] == '.' && entry == "*." + host[j + 1..]
  }

  /** The allow-list admits a host exactly when one of its entries covers the normalised host. */
  ghost predicate Admits(lib: Library, domains: set<string>, host: string) {
    var h := Normalise(lib, host);
    h != "" && exists entry :: entry in domains && Covers(h, entry)
  }

  /** Joining the labels from the i-th on gives the text after some dot of the host. */
  lemma {:induction false} SuffixIsAfterDot(host: string, i: nat) returns (j: nat)
    requires 1 <= i < |Split(host, '.')|
    ensures j < |host| && host[j] == '.' && Join(Split(host, '.')[i..], '.') == host[j + 1..]
  {
    var labels, rest := Split(host, '.'), Split(host[1..], '.');
    if host[0] == '.' && i == 1 {
      j := 0;
      assert labels[1..] == rest;
      JoinSplit(host[1..], '.');
    } else {
      var i' := if host[0] == '.' then i - 1 else i;
      assert labels[i..] == rest[i'..];
      j := SuffixIsAfterDot(host[1..], i');
      assert host[1..][j + 1..] == host[j + 2..];
      j := j + 1;
    }
  }

  /** And the text after every dot is obtained this way. */
  lemma {:induction false} AfterDotIsSuffix(host: string, j: nat) returns (i: nat)
    requires j < |host| && host[j] == '.'
    ensures 1 <= i < |Split(host, '.')| && Join(Split(host, '.')[i..], '.') == host[j + 1..]
  {
    var labels, rest := Split(host, '.'), Split(host[1..], '.');
    if j == 0 {
      i := 1;
      assert labels[1..] == rest;
      JoinSplit(host[1..], '.');
    } else {
      i := AfterDotIsSuffix(host[1..], j - 1);
      assert host[1..][j..] == host[j + 1..];
      var i' := if host[0] == '.' then i + 1 else i;
      assert labels[i'..] == rest[i..];
      i := i';
    }
  }

  class AllowList {
    const lib: Library
    var domains: set<string>
    var mtime: int

    constructor (lib: Library)
      ensures this.lib == lib && domains == {} && mtime == 0
    {
      this.lib := lib;
      domains, mtime := {}, 0;
    }

    /** Stat and read results are separate inputs: the file may be replaced in between. */
    method ReloadIfChanged(stat: Option<int>, read: Option<string>)
      modifies this`domains, this`mtime
      ensures if stat.Some? && stat.value > old(mtime) && read.Some? && lib.json(read.value).Some?
              then mtime == stat.value && forall d :: d in domains <==> Lists(lib, lib.json(read.value).value, d)
              else mtime == old(mtime) && domains == old(domains)
      ensures HotReload.Cell(domains, mtime)
              == HotReload.Reload(HotReload.Cell(old(domains), old(mtime)), stat, read, raw => DecodeDomains(lib, raw))
    {
      if stat.None? || stat.value <= mtime || read.None? {
        return;
      }
      var payload := lib.json(read.value);
      if payload.None? {
        return;
      }
      var next: set<string> := {};
      for i := 0 to |payload.value|
        invariant next == DomainSet(lib, payload.value[..i])
      {
        var d := Normalise(lib, payload.value[i]);
        DomainSetGrows(lib, payload.value, i);
        if d != "" {
          next := next + {d};
        }
      }
      assert payload.value[..|payload.value|] == payload.value;
      domains, mtime := next, stat.value;
    }

    method Allowed(host: string) returns (ok: bool)
      ensures ok <==> Admits(lib, domains, host)
    {
      var h := Normalise(lib, host);
      if h == "" {
        return false;
      }
      if h in domains {
        assert Covers(h, h);
        return true;
      }
      var labels := Split(h, '.');
      var i := 1;
      while i < |labels|
        invariant 1 <= i <= |labels|
        invariant forall k :: 1 <= k < i ==> STAR + Join(labels[k..], '.') !in domains
      {
        if STAR + Join(labels[i..], '.') in domains {
          var j := SuffixIsAfterDot(h, i);
          assert Covers(h, STAR + Join(labels[i..], '.'));
          return true;
        }
        i := i + 1;
      }
      forall entry | entry in domains ensures !Covers(h, entry) {
        if j :| 0 <= j < |h| && h[j] == '.' && entry == STAR + h[j + 1..] {
          var k := AfterDotIsSuffix(h, j);
        }
      }
      return false;
    }
  }

  lemma DomainSetGrows(lib: Library, entries: seq<string>, i: nat)
    requires i < |entries|
    ensures var d := Normalise(lib, entries[i]);
            DomainSet(lib, entries[..i + 1]) == DomainSet(lib, entries[..i]) + if d != "" then {d} else {}
  {
  }

  class SecretHolder {
    const lib: Library
    const path: string
    var secret: string
    var mtime: int

    constructor (lib: Library, path: string)
      ensures this.lib == lib && this.path == path && secret == "" && mtime == 0
    {
      this.lib, this.path := lib, path;
      secret, mtime := "", 0;
    }

    method ReloadIfChanged(stat: Option<int>, read: Option<string>)
      modifies this`secret, this`mtime
      ensures if path != "" && stat.Some? && stat.value > old(mtime) && read.Some?
                 && (exists c :: c in read.value && !lib.space(c))
              then mtime == stat.value
                   && exists before, after :: Trimmed(read.value, secret, lib.space, before, after)
              else mtime == old(mtime) && secret == old(secret)
      ensures path != "" ==>
                HotReload.Cell(secret, mtime)
                == HotReload.Reload(HotReload.Cell(old(secret), old(mtime)), stat, read, raw => DecodeSecret(lib, raw))
      ensures path == "" ==> secret == old(secret) && mtime == old(mtime)
      ensures old(secret) != "" ==> secret != ""
    {
      if path == "" || stat.None? || stat.value <= mtime || read.None? {
        return;
      }
      var trimmed := Trim(read.value, lib.space);
      TrimExactly(read.value, trimmed, lib.space);
      if trimmed == "" {
        return;
      }
      ghost var before, after := TrimMeaning(read.value, lib.space);
      secret, mtime := trimmed, stat.value;
      assert Trimmed(read.value, secret, lib.space, before, after);
    }
  }

  /** While the file on disk is the one the cached mtime names, the sidecar answers by the
      file's entries: a host is admitted exactly when a normalised entry of the file covers it. */
  lemma AnswersFollowFile(lib: Library, run: HotReload.Run<string, set<string>>, k: nat, host: string)
    requires HotReload.Valid(run, raw => DecodeDomains(lib, raw)) && k < |run.states|
    requires var s := run.states[k]; s.file.Present? && s.file.mtime == s.cell.mtime
    ensures var s := run.states[k]; var h := Normalise(lib, host);
            && lib.json(s.file.raw).Some?
            && (Admits(lib, s.cell.value, host) <==>
                h != "" && exists entry :: Lists(lib, lib.json(s.file.raw).value, entry) && Covers(h, entry))
  {
    HotReload.CellMatchesFile(run, raw => DecodeDomains(lib, raw), k);
  }

  /** Once the sidecar has a secret it never loses it. */
  lemma SecretStays(lib: Library, run: HotReload.Run<string, string>, i: nat, j: nat)
    requires HotReload.Valid(run, raw => DecodeSecret(lib, raw)) && i <= j < |run.states|
    ensures run.states[i].cell.value != "" ==> run.states[j].cell.value != ""
  {
    HotReload.NeverDecodedNeverReturns(run, raw => DecodeSecret(lib, raw), "", i, j);
  }
}
