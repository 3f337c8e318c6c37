/** Unpadded base64url: the encoding of section 5 of RFC 4648 without "=", and the decoder of
    Go's `base64.RawURLEncoding`, which skips CR and LF and ignores left-over bits. */
module Base64Url {
  import opened Wrappers

  type Byte = b: int | 0 <= b < 256
  type Sextet = v: int | 0 <= v < 64

  function Letter(v: Sextet): char {
    if v < 26 then 'A' + v as char
    else if v < 52 then 'a' + (v - 26) as char
    else if v < 62 then '0' + (v - 52) as char
    else if v == 62 then '-'
    else '_'
  }

  function Value(c: char): Option<Sextet> {
    if 'A' <= c <= 'Z' then Some((c - 'A') as int)
    else if 'a' <= c <= 'z' then Some((c - 'a') as int + 26)
    else if '0' <= c <= '9' then Some((c - '0') as int + 52)
    else if c == '-' then Some(62)
    else if c == '_' then Some(63)
    else None
  }

  lemma LettersAndValues(v: Sextet, c: char)
    ensures Value(Letter(v)) == Some(v)
    ensures Value(c).Some? ==> Letter(Value(c).value) == c
  {
  }

  predicate IsBreak(c: char) {
    c == '\r' || c == '\n'
  }

  /** The four sextets of three bytes x, y, z. */
  function S0(x: int): int { x / 4 }
  function S1(x: int, y: int): int { x % 4 * 16 + y / 16 }
  function S2(y: int, z: int): int { y % 16 * 4 + z / 64 }
  function S3(z: int): int { z % 64 }

  /** The three bytes of four sextets a, b, c, d. */
  function B0(a: int, b: int): int { a * 4 + b / 16 }
  function B1(b: int, c: int): int { b % 16 * 16 + c / 4 }
  function B2(c: int, d: int): int { c % 4 * 64 + d }

  lemma GroupsInvert(x: Byte, y: Byte, z: Byte, a: Sextet, b: Sextet, c: Sextet, d: Sextet)
    ensures B0(S0(x), S1(x, y)) == x && B1(S1(x, y), S2(y, z)) == y && B2(S2(y, z), S3(z)) == z
    ensures S0(B0(a, b)) == a && S1(B0(a, b), B1(b, c)) == b && S2(B1(b, c), B2(c, d)) == c && S3(B2(c, d)) == d
  {
  }

  lemma TailBits(a: Sextet, b: Sextet, c: Sextet)
    ensures S0(B0(a, b)) == a
    ensures S1(B0(a, b), 0) == b <==> b % 16 == 0
    ensures S1(B0(a, b), B1(b, c)) == b
    ensures S2(B1(b, c), 0) == c <==> c % 4 == 0
  {
  }

  /** Three bytes make four sextets; one or two left over are padded with zero bits. */
  function ToSextets(bytes: seq<Byte>): seq<Sextet> {
    if |bytes| == 0 then []
    else if |bytes| == 1 then [S0(bytes[0]), S1(bytes[0], 0)]
    else if |bytes| == 2 then [S0(bytes[0]), S1(bytes[0], bytes[1]), S2(bytes[1], 0)]
    else [S0(bytes[0]), S1(bytes[0], bytes[1]), S2(bytes[1], bytes[2]), S3(bytes[2])] + ToSextets(bytes[3..])
  }

  function FromSextets(v: seq<Sextet>): Option<seq<Byte>> {
    if |v| == 0 then Some([])
    else if |v| == 1 then None
    else if |v| == 2 then Some([B0(v[0], v[1])])
    else if |v| == 3 then Some([B0(v[0], v[1]), B1(v[1], v[2])])
    else match FromSextets(v[4..])
      case None => None
      case Some(rest) => Some([B0(v[0], v[1]), B1(v[1], v[2]), B2(v[2], v[3])] + rest)
  }

  function Letters(v: seq<Sextet>): (s: string)
    ensures |s| == |v|
  {
    if v == [] then "" else [Letter(v[0])] + Letters(v[1..])
  }

  /** The sextets of a text, line breaks skipped; None if another character is foreign. */
  function Values(s: string): Option<seq<Sextet>> {
    if s == "" then Some([])
    else if IsBreak(s[0]) then Values(s[1..])
    else match (Value(s[0]), Values(s[1..]))
      case (Some(v), Some(rest)) => Some([v] + rest)
      case _ => None
  }

  function Encode(bytes: seq<Byte>): string {
    Letters(ToSextets(bytes))
  }

  function Decode(s: string): Option<seq<Byte>> {
    match Values(s)
    case None => None
    case Some(v) => FromSextets(v)
  }

  lemma FromGroup(a: Sextet, b: Sextet, c: Sextet, d: Sextet, rest: seq<Sextet>, bytes: seq<Byte>)
    requires FromSextets(rest) == Some(bytes)
    ensures FromSextets([a, b, c, d] + rest) == Some([B0(a, b), B1(b, c), B2(c, d)] + bytes)
  {
    assert ([a, b, c, d] + rest)[4..] == rest;
  }

  lemma ToGroup(x: Byte, y: Byte, z: Byte, rest: seq<Byte>)
    ensures ToSextets([x, y, z] + rest) == [S0(x), S1(x, y), S2(y, z), S3(z)] + ToSextets(rest)
  {
    assert ([x, y, z] + rest)[3..] == rest;
  }

  lemma ShortGroups(x: Byte, y: Byte, a: Sextet, b: Sextet, c: Sextet)
    ensures ToSextets([x]) == [S0(x), S1(x, 0)]
    ensures ToSextets([x, y]) == [S0(x), S1(x, y), S2(y, 0)]
    ensures FromSextets([a, b]) == Some([B0(a, b)])
    ensures FromSextets([a, b, c]) == Some([B0(a, b), B1(b, c)])
  {
  }

  lemma ShortRoundTrip(x: Byte, y: Byte)
    ensures FromSextets(ToSextets([x])) == Some([x])
    ensures FromSextets(ToSextets([x, y])) == Some([x, y])
  {
    ShortGroups(x, y, S0(x), S1(x, 0), 0);
    ShortGroups(x, y, S0(x), S1(x, y), S2(y, 0));
    GroupsInvert(x, 0, 0, 0, 0, 0, 0);
    GroupsInvert(x, y, 0, 0, 0, 0, 0);
  }

  lemma {:induction false} SextetsRoundTrip(bytes: seq<Byte>)
    ensures FromSextets(ToSextets(bytes)) == Some(bytes)
    decreases |bytes|, 2
  {
    if |bytes| == 0 {
    } else if |bytes| <= 2 {
      ShortRoundTrip(bytes[0], bytes[|bytes| - 1]);
      assert bytes == if |bytes| == 1 then [bytes[0]] else [bytes[0], bytes[1]];
    } else {
      GroupRoundTrip(bytes[0], bytes[1], bytes[2], bytes[3..]);
      assert bytes == [bytes[0], bytes[1], bytes[2]] + bytes[3..];
    }
  }

  lemma {:induction false} GroupRoundTrip(x: Byte, y: Byte, z: Byte, rest: seq<Byte>)
    ensures FromSextets(ToSextets([x, y, z] + rest)) == Some([x, y, z] + rest)
    decreases |rest| + 3, 1
  {
    SextetsRoundTrip(rest);
    ToGroup(x, y, z, rest);
    FromGroup(S0(x), S1(x, y), S2(y, z), S3(z), ToSextets(rest), rest);
    GroupsInvert(x, y, z, 0, 0, 0, 0);
  }

  lemma {:induction false} LettersRoundTrip(v: seq<Sextet>)
    ensures Values(Letters(v)) == Some(v)
    ensures forall c :: c in Letters(v) ==> Value(c).Some?
  {
    if v != [] {
      LettersRoundTrip(v[1..]);
      LettersAndValues(v[0], 'A');
      assert v == [v[0]] + v[1..];
    }
  }

  /** Decoding undoes encoding, for every byte string; and the encoding is in the alphabet. */
  lemma DecodeEncode(bytes: seq<Byte>)
    ensures Decode(Encode(bytes)) == Some(bytes)
    ensures forall c :: c in Encode(bytes) ==> Value(c).Some?
  {
    SextetsRoundTrip(bytes);
    LettersRoundTrip(ToSextets(bytes));
  }

  /** The bits the encoder sets to zero at the end are zero. */
  predicate TailIsZero(v: seq<Sextet>) {
    && (|v| % 4 == 2 ==> v[|v| - 1] % 16 == 0)
    && (|v| % 4 == 3 ==> v[|v| - 1] % 4 == 0)
  }

  lemma {:induction false} TailDecides(v: seq<Sextet>)
    requires FromSextets(v).Some?
    ensures ToSextets(FromSextets(v).value) == v <==> TailIsZero(v)
    decreases |v|, 2
  {
    if |v| == 2 {
      TailOfTwo(v[0], v[1]);
      assert v == [v[0], v[1]];
    } else if |v| == 3 {
      TailOfThree(v[0], v[1], v[2]);
      assert v == [v[0], v[1], v[2]];
    } else if |v| >= 4 {
      assert v == [v[0], v[1], v[2], v[3]] + v[4..];
      GroupTailDecides(v[0], v[1], v[2], v[3], v[4..]);
    }
  }

  lemma SameHead<T>(head: seq<T>, p: seq<T>, q: seq<T>)
    ensures head + p == head + q <==> p == q
  {
    assert (head + p)[|head|..] == p && (head + q)[|head|..] == q;
  }

  lemma TailOfTwo(a: Sextet, b: Sextet)
    ensures ToSextets(FromSextets([a, b]).value) == [a, b] <==> b % 16 == 0
  {
    var x := B0(a, b);
    ShortGroups(x, 0, a, b, 0);
    TailBits(a, b, 0);
    SameHead([a], [S1(x, 0)], [b]);
  }

  lemma TailOfThree(a: Sextet, b: Sextet, c: Sextet)
    ensures ToSextets(FromSextets([a, b, c]).value) == [a, b, c] <==> c % 4 == 0
  {
    var x, y := B0(a, b), B1(b, c);
    ShortGroups(x, y, a, b, c);
    TailBits(a, b, c);
    SameHead([a, b], [S2(y, 0)], [c]);
  }

  lemma TailOfGroup(head: seq<Sextet>, rest: seq<Sextet>)
    requires |head| == 4 && |rest| != 1
    ensures TailIsZero(head + rest) <==> TailIsZero(rest)
  {
    assert |rest| > 0 ==> (head + rest)[|rest| + 3] == rest[|rest| - 1];
  }

  lemma {:induction false} GroupTailDecides(a: Sextet, b: Sextet, c: Sextet, d: Sextet, rest: seq<Sextet>)
    requires FromSextets(rest).Some?
    ensures var v := [a, b, c, d] + rest;
            FromSextets(v).Some? && (ToSextets(FromSextets(v).value) == v <==> TailIsZero(v))
    decreases |rest| + 4, 1
  {
    var bytes := FromSextets(rest).value;
    TailDecides(rest);
    FromGroup(a, b, c, d, rest, bytes);
    GroupBytes(a, b, c, d, bytes);
    SameHead([a, b, c, d], ToSextets(bytes), rest);
    TailOfGroup([a, b, c, d], rest);
  }

  lemma GroupBytes(a: Sextet, b: Sextet, c: Sextet, d: Sextet, bytes: seq<Byte>)
    ensures ToSextets([B0(a, b), B1(b, c), B2(c, d)] + bytes) == [a, b, c, d] + ToSextets(bytes)
  {
    ToGroup(B0(a, b), B1(b, c), B2(c, d), bytes);
    GroupsInvert(0, 0, 0, a, b, c, d);
  }

  lemma {:induction false} ValuesOfCleanText(s: string)
    requires Values(s).Some?
    ensures (forall c :: c in s ==> !IsBreak(c)) <==> Letters(Values(s).value) == s
    ensures |Values(s).value| <= |s|
    ensures (exists c :: c in s && IsBreak(c)) ==> |Values(s).value| < |s|
  {
    if s != "" {
      ValuesOfCleanText(s[1..]);
      assert s == [s[0]] + s[1..];
      if !IsBreak(s[0]) {
        LettersAndValues(0, s[0]);
        var v := Values(s).value;
        assert v[1..] == Values(s[1..]).value;
        assert Letters(v) == [s[0]] + Letters(v[1..]);
        assert Letters(v)[1..] == Letters(v[1..]);
      }
    }
  }

  /** The decoder accepts more texts than the encoder makes. A decodable text is the encoding of
      what it decodes to exactly when it has no line break and its left-over bits are zero. */
  lemma EncodeDecode(s: string)
    requires Decode(s).Some?
    ensures Encode(Decode(s).value) == s
            <==> (forall c :: c in s ==> c != '\r' && c != '\n') && TailIsZero(Values(s).value)
  {
    var v, bytes := Values(s).value, Decode(s).value;
    ValuesOfCleanText(s);
    TailDecides(v);
    LettersRoundTrip(ToSextets(bytes));
    LettersRoundTrip(v);
    if Encode(bytes) == s {
      assert Values(s) == Some(ToSextets(bytes));
    }
  }

  // ---- What decodes -----------------------------------------------------------------------

  /** The text without its line breaks. */
  function WithoutBreaks(s: string): string {
    if s == "" then ""
    else (if s[0] == '\r' || s[0] == '\n' then "" else [s[0]]) + WithoutBreaks(s[1..])
  }

  lemma {:induction false} ValuesSkipBreaks(s: string)
    ensures Values(s) == Values(WithoutBreaks(s))
    ensures Values(s).Some? <==> forall c :: c in WithoutBreaks(s) ==> Value(c).Some?
    ensures Values(s).Some? ==> |Values(s).value| == |WithoutBreaks(s)|
  {
    if s != "" {
      ValuesSkipBreaks(s[1..]);
      var rest := WithoutBreaks(s[1..]);
      if !IsBreak(s[0]) {
        assert WithoutBreaks(s)[0] == s[0] && WithoutBreaks(s)[1..] == rest;
        assert forall c :: c in WithoutBreaks(s) <==> c == s[0] || c in rest;
      } else {
        assert WithoutBreaks(s) == rest;
      }
    }
  }

  lemma {:induction false} GroupsDecode(v: seq<Sextet>)
    ensures FromSextets(v).Some? <==> |v| % 4 != 1
    decreases |v|
  {
    if |v| >= 4 {
      var rest := v[4..];
      GroupsDecode(rest);
      assert |v| == |rest| + 4;
      FourMore(|rest|);
    }
  }

  lemma FourMore(n: nat)
    ensures (n + 4) % 4 == n % 4
  {
  }

  /** Line breaks do not matter; without them a text decodes if and only if all its characters are of
      the alphabet and it is not one longer than a multiple of four. */
  lemma DecodesExactly(s: string)
    ensures Decode(s) == Decode(WithoutBreaks(s))
    ensures Decode(s).Some?
            <==> (forall c :: c in WithoutBreaks(s) ==> Value(c).Some?) && |WithoutBreaks(s)| % 4 != 1
  {
    ValuesSkipBreaks(s);
    if Values(s).Some? {
      GroupsDecode(Values(s).value);
    }
  }

  // ---- The encoding in numbers ------------------------------------------------------------

  /** The alphabet of table 2 of RFC 4648, in its order. */
  const CAPITALS: string := "ABCDEFGHIJKLMNOPQRSTUVWXYZ"
  const SMALL: string := "abcdefghijklmnopqrstuvwxyz"
  const OTHERS: string := "0123456789-_"

  /** The character for a digit to the base 64. */
  function DigitChar(v: int): char
    requires 0 <= v < 64
  {
    if v < 26 then CAPITALS[v] else if v < 52 then SMALL[v - 26] else OTHERS[v - 52]
  }

  lemma LetterIsDigitChar(v: Sextet)
    ensures Letter(v) == DigitChar(v) && Value(DigitChar(v)) == Some(v)
  {
    if v < 26 {
      CapitalAt(v);
    } else if v < 52 {
      SmallAt(v - 26);
    } else {
      assert v - 52 in {0, 1, 2, 3, 4, 5, 6, 7, 8, 9, 10, 11};
    }
  }

  lemma CapitalAt(i: nat)
    requires i < 26
    ensures CAPITALS[i] == 'A' + i as char
  {
    assert i in {0, 1, 2, 3, 4, 5, 6, 7, 8, 9, 10, 11, 12, 13, 14, 15, 16, 17, 18, 19, 20, 21, 22, 23, 24, 25};
  }

  lemma SmallAt(i: nat)
    requires i < 26
    ensures SMALL[i] == 'a' + i as char
  {
    assert i in {0, 1, 2, 3, 4, 5, 6, 7, 8, 9, 10, 11, 12, 13, 14, 15, 16, 17, 18, 19, 20, 21, 22, 23, 24, 25};
  }

  lemma DivideBy64(n: nat, q: nat, r: nat)
    requires n == 64 * q + r && r < 64
    ensures n / 64 == q && n % 64 == r
  {
  }

  lemma GroupDigits(x: Byte, y: Byte, z: Byte)
    ensures var n := 65536 * x + 256 * y + z;
            S0(x) == n / 64 / 64 / 64 && S1(x, y) == n / 64 / 64 % 64 && S2(y, z) == n / 64 % 64 && S3(z) == n % 64
  {
    var n, q := 65536 * x + 256 * y + z, 1024 * x + 4 * y + z / 64;
    DivideBy64(n, q, S3(z));
    DivideBy64(q, 16 * x + y / 16, S2(y, z));
    DivideBy64(16 * x + y / 16, S0(x), S1(x, y));
  }

  lemma LetterFirst(v: Sextet, rest: seq<Sextet>)
    ensures Letters([v] + rest) == [DigitChar(v)] + Letters(rest)
  {
    LetterIsDigitChar(v);
    assert ([v] + rest)[1..] == rest;
  }

  lemma TwoLetters(a: Sextet, b: Sextet, rest: seq<Sextet>)
    ensures Letters([a, b] + rest) == [DigitChar(a), DigitChar(b)] + Letters(rest)
  {
    LetterFirst(a, [b] + rest);
    LetterFirst(b, rest);
    assert [a, b] + rest == [a] + ([b] + rest);
  }

  lemma FourLetters(a: Sextet, b: Sextet, c: Sextet, d: Sextet, rest: seq<Sextet>)
    ensures Letters([a, b, c, d] + rest)
            == [DigitChar(a), DigitChar(b), DigitChar(c), DigitChar(d)] + Letters(rest)
  {
    TwoLetters(a, b, [c, d] + rest);
    TwoLetters(c, d, rest);
    assert [a, b, c, d] + rest == [a, b] + ([c, d] + rest);
  }

  lemma LastLetters(a: Sextet, b: Sextet, c: Sextet)
    ensures Letters([a, b]) == [DigitChar(a), DigitChar(b)]
    ensures Letters([a, b, c]) == [DigitChar(a), DigitChar(b), DigitChar(c)]
  {
    TwoLetters(a, b, []);
    TwoLetters(a, b, [c]);
    LetterFirst(c, []);
    assert [a, b] == [a, b] + [] && [a, b, c] == [a, b] + [c] && [c] == [c] + [];
  }

  /** The first three bytes, read as one number with the first byte in front, are written as its four
      digits to the base 64. */
  lemma EncodeInDigits(x: Byte, y: Byte, z: Byte, rest: seq<Byte>)
    ensures var n := 65536 * x + 256 * y + z;
            Encode([x, y, z] + rest)
              == [DigitChar(n / 64 / 64 / 64), DigitChar(n / 64 / 64 % 64), DigitChar(n / 64 % 64), DigitChar(n % 64)]
                 + Encode(rest)
  {
    GroupDigits(x, y, z);
    ToGroup(x, y, z, rest);
    FourLetters(S0(x), S1(x, y), S2(y, z), S3(z), ToSextets(rest));
  }

  /** Two bytes left over are written as if two zero bits followed. */
  lemma EncodeTwoInDigits(x: Byte, y: Byte)
    ensures var n := 4 * (256 * x + y);
            Encode([x, y]) == [DigitChar(n / 64 / 64), DigitChar(n / 64 % 64), DigitChar(n % 64)]
  {
    DivideBy64(4 * (256 * x + y), 16 * x + y / 16, S2(y, 0));
    DivideBy64(16 * x + y / 16, S0(x), S1(x, y));
    assert ToSextets([x, y]) == [S0(x), S1(x, y), S2(y, 0)];
    LastLetters(S0(x), S1(x, y), S2(y, 0));
  }

  /** One byte left over is written as if four zero bits followed. */
  lemma EncodeOneInDigits(x: Byte)
    ensures Encode([x]) == [DigitChar(16 * x / 64), DigitChar(16 * x % 64)]
    ensures Encode([]) == ""
  {
    DivideBy64(16 * x, S0(x), S1(x, 0));
    assert ToSextets([x]) == [S0(x), S1(x, 0)];
    LastLetters(S0(x), S1(x, 0), 0);
  }
}
