/** The template fixture generator: entries are repeated with numbered IDs until there are enough. */
module TemplateFixture {
  import opened Wrappers
  import opened Decimal

  /** A template; `rest` stands for the keys that every variant shares. */
  datatype Entry = Entry(id: string, name: string, description: string, rest: string)

  datatype Error = NoBaseTemplates | DuplicateIds

  const MARK: string := "-p"

  function VariantId(id: string, variant: nat): string {
    if variant == 0 then id else id + MARK + Pad2(variant)
  }

  function Variant(b: Entry, variant: nat): Entry {
    if variant == 0 then b
    else
      var n := Pad2(variant);
      b.(id := VariantId(b.id, variant), name := b.name + " Preset " + n,
         description := b.description + " (preset " + n + ")")
  }

  /** Entry `i` of the unbounded round-robin over the base. */
  function Item(base: seq<Entry>, i: nat): Entry
    requires base != []
  {
    Variant(base[i % |base|], i / |base|)
  }

  ghost predicate DistinctIds(entries: seq<Entry>) {
    forall i, k :: 0 <= i < k < |entries| ==> entries[i].id != entries[k].id
  }

  /** The entries are the first `count` of the round-robin. */
  ghost predicate Generated(base: seq<Entry>, count: int, out: seq<Entry>) {
    base != [] && |out| == (if count < 0 then 0 else count) && forall i :: 0 <= i < |out| ==> out[i] == Item(base, i)
  }

  function Ids(entries: seq<Entry>): set<string> {
    set e | e in entries :: e.id
  }

  /** The first `count` entries of the round-robin, or the reason for which there is no fixture. */
  method BuildTemplates(count: int, base: seq<Entry>) returns (result: Result<seq<Entry>, Error>)
    ensures result == Err(NoBaseTemplates) <==> base == []
    ensures result == Err(DuplicateIds) <==> base != [] && !Unambiguous(base, count)
    ensures result.Ok? ==> Generated(base, count, result.value) && DistinctIds(result.value)
  {
    if base == [] {
      return Err(NoBaseTemplates);
    }
    var out := [];
    var i := 0;
    while i < count
      invariant i == |out| <= (if count < 0 then 0 else count)
      invariant forall k :: 0 <= k < i ==> out[k] == Item(base, k)
    {
      var b, variant := base[i % |base|], i / |base|;
      if variant == 0 {
        out := out + [b];
      } else {
        var n := Pad2(variant);
        out := out + [b.(id := b.id + MARK + n, name := b.name + " Preset " + n,
                         description := b.description + " (preset " + n + ")")];
      }
      i := i + 1;
    }
    assert Generated(base, count, out);
    CountIds(out);
    UniqueExactly(base, count, out);
    if |out| != |Ids(out)| {
      return Err(DuplicateIds);
    }
    return Ok(out);
  }

  /** Comparing the two lengths finds exactly the repeated IDs. */
  lemma {:induction false} CountIds(entries: seq<Entry>)
    ensures |Ids(entries)| <= |entries|
    ensures |Ids(entries)| == |entries| <==> DistinctIds(entries)
  {
    if entries != [] {
      var n := |entries| - 1;
      var shorter, last := entries[..n], entries[n];
      CountIds(shorter);
      assert entries == shorter + [last];
      assert Ids(entries) == Ids(shorter) + {last.id};
      NewId(shorter, last);
    }
  }

  lemma NewId(entries: seq<Entry>, last: Entry)
    ensures DistinctIds(entries + [last]) <==> DistinctIds(entries) && last.id !in Ids(entries)
  {
    var longer, n := entries + [last], |entries|;
    assert forall k :: 0 <= k < n ==> longer[k] == entries[k];
    if last.id in Ids(entries) {
      var e :| e in entries && e.id == last.id;
      var k :| 0 <= k < n && entries[k] == e;
      assert longer[k].id == longer[n].id;
    } else {
      assert forall k :: 0 <= k < n ==> entries[k] in entries && entries[k].id in Ids(entries);
    }
    if DistinctIds(longer) {
      assert forall i, k :: 0 <= i < k < n ==> longer[i].id != longer[k].id;
    }
  }

  /** Every generated entry is a copy of a base entry, taken in turn: the base itself first, and in
      round n of the rest with the same two-digit number n after its ID, name and description. */
  ghost predicate CopyOf(b: Entry, e: Entry, n: nat, numeral: string) {
    if n == 0 then e == b
    else
      && AllDigits(numeral) && Value(numeral) == n && |numeral| >= 2 && (n >= 10 ==> numeral[0] != '0')
      && e == Entry(b.id + "-p" + numeral, b.name + " Preset " + numeral, b.description + " (preset " + numeral + ")",
                    b.rest)
  }

  lemma GeneratedAreCopies(base: seq<Entry>, count: int, out: seq<Entry>, i: nat)
    requires Generated(base, count, out) && i < |out|
    ensures CopyOf(base[i % |base|], out[i], i / |base|, Pad2(i / |base|))
  {
    var n := i / |base|;
    Pad2Value(n);
    if n >= 10 {
      DecIsCanonical(n);
    }
  }

  lemma {:induction false} DecIsCanonical(n: nat)
    requires n >= 1
    ensures Dec(n)[0] != '0'
  {
    if n >= 10 {
      DecIsCanonical(n / 10);
    }
  }

  // ---- When the IDs are distinct ----------------------------------------------------------

  /** The variant of one base entry has the ID of another, and both are among the first `count`. */
  ghost predicate Clash(base: seq<Entry>, count: int, j: int, variant: int, k: int) {
    && 0 <= j < |base| && 0 <= k < |base| && variant >= 1
    && variant * |base| + j < count
    && base[k].id == base[j].id + MARK + Pad2(variant)
  }

  /** What a caller can check before the call: the base entries that are used have different IDs,
      and none has the ID of a variant that is used. */
  ghost predicate Unambiguous(base: seq<Entry>, count: int) {
    && DistinctIds(if count < 0 then [] else if count < |base| then base[..count] else base)
    && forall j, variant, k :: !Clash(base, count, j, variant, k)
  }

  lemma Position(m: nat, v: nat, j: nat)
    requires j < m
    ensures (v * m + j) / m == v && (v * m + j) % m == j
  {
    var i := v * m + j;
    var q, r := i / m, i % m;
    assert q * m + r == i;
    if q < v {
      assert (v - q) * m >= m by { Grows(v - q, m); }
    } else if q > v {
      assert (q - v) * m >= m by { Grows(q - v, m); }
    }
  }

  lemma Grows(d: nat, m: nat)
    requires d >= 1
    ensures d * m >= m
  {
  }

  /** The numeral after the last mark, and what stands before it, can be read off the ID. */
  lemma LastMark(a: string, b: string, x: string, y: string)
    requires AllDigits(x) && AllDigits(y) && a + MARK + x == b + MARK + y
    ensures a == b && x == y
  {
    NoLongerNumeral(a, b, x, y);
    NoLongerNumeral(b, a, y, x);
    var s, t := a + MARK + x, b + MARK + y;
    assert a == s[..|a|] && b == t[..|b|];
    assert x == s[|a| + 2..] && y == t[|b| + 2..];
  }

  /** The mark of the one ID is not among the digits of the other. */
  lemma NoLongerNumeral(a: string, b: string, x: string, y: string)
    requires AllDigits(y) && a + MARK + x == b + MARK + y
    ensures |y| <= |x|
  {
    var s, p := a + MARK + x, |a| + 1;
    assert s[p] == 'p' && !IsDigit('p');
    var tail := s[|b| + 2..];
    assert tail == y;
    assert forall i :: |b| + 2 <= i < |s| ==> s[i] == tail[i - |b| - 2] && IsDigit(s[i]);
  }

  /** Where an entry comes from. */
  lemma Origin(base: seq<Entry>, i: nat) returns (j: nat, v: nat)
    requires base != []
    ensures j < |base| && i == v * |base| + j && Item(base, i) == Variant(base[j], v)
    ensures i < |base| ==> v == 0 && j == i
    ensures v == 0 ==> i == j
  {
    j, v := i % |base|, i / |base|;
    if i < |base| {
      Position(|base|, 0, i);
    }
  }

  /** The base entries that are used come first, unchanged. */
  lemma FirstOnes(base: seq<Entry>, i: nat)
    requires i < |base|
    ensures Item(base, i) == base[i]
  {
    var j, v := Origin(base, i);
  }

  lemma VariantIsUsed(m: nat, v: nat, j: nat, i: nat)
    requires j < m && v >= 1 && i == v * m + j
    ensures i >= m
  {
  }

  /** Two entries with one ID come from an ambiguous base. */
  lemma RepeatNeedsAmbiguity(base: seq<Entry>, count: int, i: nat, k: nat)
    requires base != [] && i < k < count && Item(base, i).id == Item(base, k).id
    ensures !Unambiguous(base, count)
  {
    var j, v := Origin(base, i);
    var j', v' := Origin(base, k);
    if v >= 1 {
      VariantIsUsed(|base|, v, j, i);
    }
    if v' == 0 {
      assert i == j && k == j';
      var used := if count < |base| then base[..count] else base;
      assert used[i].id == used[k].id;
    } else if v == 0 {
      assert Clash(base, count, j', v', j);
    } else {
      LastMark(base[j].id, base[j'].id, Pad2(v), Pad2(v'));
      Pad2Value(v);
      Pad2Value(v');
      assert j != j';
      assert base[j].id == base[j'].id;
    }
  }

  /** A clash puts one ID at two places. */
  lemma ClashRepeats(base: seq<Entry>, count: int, out: seq<Entry>, j: int, variant: int, k: int)
    requires Generated(base, count, out) && Clash(base, count, j, variant, k)
    ensures !DistinctIds(out)
  {
    var i := variant * |base| + j;
    VariantIsUsed(|base|, variant, j, i);
    Position(|base|, variant, j);
    FirstOnes(base, k);
    assert out[k].id == out[i].id;
  }

  /** The generated IDs are distinct exactly for an unambiguous base. */
  lemma UniqueExactly(base: seq<Entry>, count: int, out: seq<Entry>)
    requires Generated(base, count, out)
    ensures DistinctIds(out) <==> Unambiguous(base, count)
  {
    if Unambiguous(base, count) {
      forall i, k | 0 <= i < k < |out| ensures out[i].id != out[k].id {
        if out[i].id == out[k].id {
          RepeatNeedsAmbiguity(base, count, i, k);
        }
      }
    }
    if DistinctIds(out) {
      var used := if count < 0 then [] else if count < |base| then base[..count] else base;
      forall i, k | 0 <= i < k < |used| ensures used[i].id != used[k].id {
        FirstOnes(base, i);
        FirstOnes(base, k);
        assert out[i].id != out[k].id;
      }
      forall j, variant, k ensures !Clash(base, count, j, variant, k) {
        if Clash(base, count, j, variant, k) {
          ClashRepeats(base, count, out, j, variant, k);
        }
      }
    }
  }

  /** The ID ends in the mark and two or more digits. */
  ghost predicate EndsLikeVariant(id: string) {
    exists a, x :: MarkedAs(id, a, x)
  }

  ghost predicate MarkedAs(id: string, a: string, x: string) {
    id == a + MARK + x && |x| >= 2 && AllDigits(x)
  }

  /** For distinct base IDs none of which looks like that of a variant, the check never fires,
      whatever the count. */
  lemma NeverFires(base: seq<Entry>, count: int)
    requires DistinctIds(base) && forall k :: 0 <= k < |base| ==> !EndsLikeVariant(base[k].id)
    ensures Unambiguous(base, count)
  {
    forall j, variant, k ensures !Clash(base, count, j, variant, k) {
      if Clash(base, count, j, variant, k) {
        assert MarkedAs(base[k].id, base[j].id, Pad2(variant));
        assert EndsLikeVariant(base[k].id);
      }
    }
  }

  /** A base for which two entries can be generated, and three not. */
  lemma AmbiguousExample(a: Entry, b: Entry)
    requires a.id == "x" && b.id == "x-p01"
    ensures Unambiguous([a, b], 2) && !Unambiguous([a, b], 3)
  {
    assert Dec(1) == "1" && Pad2(1) == "01";
    assert Clash([a, b], 3, 0, 1, 1);
  }
}
