/** Splitting and joining on a separator, and trimming, as Go's strings package and Python's
    str methods do it. */
module Strings {

  /** `strings.Split(s, sep)` and `s.split(sep)` for a one-character separator. */
  function Split(s: string, sep: char): (parts: seq<string>)
    ensures |parts| > 0
  {
    if s == "" then [""]
    else
      var rest := Split(s[1..], sep);
      if s[0] == sep then [""] + rest else [[s[0]] + rest[0]] + rest[1..]
  }

  /** `strings.Join(parts, sep)` and `sep.join(parts)`. */
  function Join(parts: seq<string>, sep: char): string {
    if |parts| == 0 then ""
    else if |parts| == 1 then parts[0]
    else parts[0] + [sep] + Join(parts[1..], sep)
  }

  /** The character occurs in none of the parts. */
  ghost predicate Free(parts: seq<string>, sep: char) {
    forall i :: 0 <= i < |parts| ==> sep !in parts[i]
  }

  /** Joining undoes splitting. */
  lemma {:induction false} JoinSplit(s: string, sep: char)
    ensures Join(Split(s, sep), sep) == s
  {
    if s != "" {
      JoinSplit(s[1..], sep);
      var rest, parts := Split(s[1..], sep), Split(s, sep);
      assert s == [s[0]] + s[1..];
      if s[0] == sep {
        assert parts[1..] == rest;
      } else {
        assert parts[1..] == rest[1..];
      }
    }
  }

  lemma {:induction false} SplitFree(s: string, sep: char)
    ensures Free(Split(s, sep), sep)
  {
    if s != "" {
      SplitFree(s[1..], sep);
    }
  }

  /** Splitting undoes joining when the separator occurs in no part. */
  lemma {:induction false} SplitJoin(parts: seq<string>, sep: char)
    requires |parts| > 0 && Free(parts, sep)
    ensures Split(Join(parts, sep), sep) == parts
    decreases |parts|, |parts[0]|
  {
    var s := Join(parts, sep);
    if parts[0] == "" {
      if |parts| > 1 {
        assert s[1..] == Join(parts[1..], sep);
        SplitJoin(parts[1..], sep);
      }
    } else {
      var shorter := parts[0 := parts[0][1..]];
      assert shorter[1..] == parts[1..];
      assert Join(shorter, sep) == s[1..];
      assert sep !in shorter[0] by {
        assert forall c :: c in shorter[0] ==> c in parts[0];
      }
      SplitJoin(shorter, sep);
      assert parts[0] == [s[0]] + shorter[0];
      assert s[0] in parts[0];
      assert parts == [parts[0]] + parts[1..];
    }
  }

  /** `strings.TrimSpace` and `str.strip`, for the given notion of white space. */
  function Trim(s: string, space: char -> bool): (t: string) {
    if s != "" && space(s[0]) then Trim(s[1..], space)
    else if s != "" && space(s[|s| - 1]) then Trim(s[..|s| - 1], space)
    else s
  }

  function Map(s: string, f: char -> char): (t: string)
    ensures |t| == |s|
    ensures forall i :: 0 <= i < |s| ==> t[i] == f(s[i])
  {
    seq(|s|, i requires 0 <= i < |s| => f(s[i]))
  }

  /** `t` is `s` without white space at its ends. */
  ghost predicate Trimmed(s: string, t: string, space: char -> bool, before: string, after: string) {
    && s == before + t + after && (forall c :: c in before + after ==> space(c))
    && (t != "" ==> !space(t[0]) && !space(t[|t| - 1]))
  }

  lemma {:induction false} TrimMeaning(s: string, space: char -> bool) returns (before: string, after: string)
    ensures Trimmed(s, Trim(s, space), space, before, after)
  {
    if s != "" && space(s[0]) {
      before, after := TrimMeaning(s[1..], space);
      before := [s[0]] + before;
      assert s == [s[0]] + s[1..];
    } else if s != "" && space(s[|s| - 1]) {
      before, after := TrimMeaning(s[..|s| - 1], space);
      after := after + [s[|s| - 1]];
      assert s == s[..|s| - 1] + [s[|s| - 1]];
    } else {
      before, after := "", "";
    }
  }

  lemma {:induction false} TrimRemoves(before: string, t: string, after: string, space: char -> bool)
    requires t != "" && Trimmed(before + t + after, t, space, before, after)
    ensures Trim(before + t + after, space) == t
    decreases |before| + |after|
  {
    var s := before + t + after;
    if before != "" {
      assert s[0] == before[0] && before[0] in before + after && s[1..] == before[1..] + t + after;
      assert forall c :: c in before[1..] + after ==> c in before + after;
      TrimRemoves(before[1..], t, after, space);
    } else if after != "" {
      var n := |after| - 1;
      assert s[0] == t[0] && s[|s| - 1] == after[n] && after[n] in before + after
             && s[..|s| - 1] == before + t + after[..n];
      assert forall c :: c in before + after[..n] ==> c in before + after;
      TrimRemoves(before, t, after[..n], space);
    } else {
      assert s == t;
    }
  }

  /** Trimming gives exactly the text without white space at its ends, and nothing for a blank one. */
  lemma TrimExactly(s: string, t: string, space: char -> bool)
    ensures t != "" ==> (Trim(s, space) == t <==> exists before, after :: Trimmed(s, t, space, before, after))
    ensures Trim(s, space) == "" <==> forall c :: c in s ==> space(c)
  {
    var before, after := TrimMeaning(s, space);
    if t != "" {
      if b, a :| Trimmed(s, t, space, b, a) {
        TrimRemoves(b, t, a, space);
      }
    }
    if Trim(s, space) == "" {
      assert s == before + after;
    } else {
      assert Trim(s, space)[0] in s;
    }
  }
}
