/** Unpadded standard base64, as in sections 3.2 and 4 of RFC 4648 and as the
    decoder of the standard library reads it: line breaks are skipped and the
    unused low bits of the last character are not checked. */
module Base64 {
  import opened Options

  type Byte = x: int | 0 <= x < 256
  type Sextet = x: int | 0 <= x < 64

  /** The alphabet: A-Z, a-z, 0-9, + and /. */
  function EncodeSextet(v: Sextet): char {
    if v < 26 then ('A' as int + v) as char
    else if v < 52 then ('a' as int + (v - 26)) as char
    else if v < 62 then ('0' as int + (v - 52)) as char
    else if v == 62 then '+'
    else '/'
  }

  function DecodeSextet(c: char): Option<Sextet> {
    if 'A' <= c <= 'Z' then Some(c as int - 'A' as int)
    else if 'a' <= c <= 'z' then Some(c as int - 'a' as int + 26)
    else if '0' <= c <= '9' then Some(c as int - '0' as int + 52)
    else if c == '+' then Some(62)
    else if c == '/' then Some(63)
    else None
  }

  // The sextets of a group of bytes, and the bytes of a group of sextets.

  function S0(b0: int): int { b0 / 4 }

  function S1(b0: int, b1: int): int { b0 % 4 * 16 + b1 / 16 }

  function S2(b1: int, b2: int): int { b1 % 16 * 4 + b2 / 64 }

  function S3(b2: int): int { b2 % 64 }

  function B0(v0: int, v1: int): int { v0 * 4 + v1 / 16 }

  function B1(v1: int, v2: int): int { v1 % 16 * 16 + v2 / 4 }

  function B2(v2: int, v3: int): int { v2 % 4 * 64 + v3 }

  function Split(b: seq<Byte>): seq<Sextet> {
    if |b| == 0 then []
    else if |b| == 1 then [S0(b[0]), S1(b[0], 0)]
    else if |b| == 2 then [S0(b[0]), S1(b[0], b[1]), S2(b[1], 0)]
    else [S0(b[0]), S1(b[0], b[1]), S2(b[1], b[2]), S3(b[2])] + Split(b[3..])
  }

  function Letters(v: seq<Sextet>): string {
    if v == [] then [] else [EncodeSextet(v[0])] + Letters(v[1..])
  }

  function Encode(b: seq<Byte>): string {
    Letters(Split(b))
  }

  function DropLineBreaks(s: string): string {
    if s == [] then [] else (if s[0] == '\r' || s[0] == '\n' then [] else [s[0]]) + DropLineBreaks(s[1..])
  }

  function Sextets(s: string): Option<seq<Sextet>> {
    if s == [] then Some([])
    else
      match (DecodeSextet(s[0]), Sextets(s[1..]))
      case (Some(v), Some(vs)) => Some([v] + vs)
      case _ => None
  }

  function Bytes(v: seq<Sextet>): Option<seq<Byte>> {
    if |v| == 0 then Some([])
    else if |v| == 1 then None
    else if |v| == 2 then Some([B0(v[0], v[1])])
    else if |v| == 3 then Some([B0(v[0], v[1]), B1(v[1], v[2])])
    else
      match Bytes(v[4..])
      case Some(rest) => Some([B0(v[0], v[1]), B1(v[1], v[2]), B2(v[2], v[3])] + rest)
      case None => None
  }

  function Decode(s: string): Option<seq<Byte>> {
    match Sextets(DropLineBreaks(s))
    case Some(v) => Bytes(v)
    case None => None
  }

  // ------------------------------------------------------------------ round trip

  lemma SextetRoundTrip(v: Sextet)
    ensures DecodeSextet(EncodeSextet(v)) == Some(v)
  {
  }

  /** What Encode writes: no line break, no '$', and every letter decodes. */
  lemma {:induction false} LettersRoundTrip(v: seq<Sextet>)
    ensures DropLineBreaks(Letters(v)) == Letters(v)
    ensures Sextets(Letters(v)) == Some(v)
    ensures '$' !in Letters(v)
  {
    if v != [] {
      SextetRoundTrip(v[0]);
      assert Letters(v)[1..] == Letters(v[1..]);
      LettersRoundTrip(v[1..]);
      assert v == [v[0]] + v[1..];
    }
  }

  lemma GroupRoundTrip(b0: Byte, b1: Byte, b2: Byte)
    ensures B0(S0(b0), S1(b0, b1)) == b0
    ensures B1(S1(b0, b1), S2(b1, b2)) == b1
    ensures B2(S2(b1, b2), S3(b2)) == b2
  {
  }

  lemma BytesOfGroup(v0: Sextet, v1: Sextet, v2: Sextet, v3: Sextet, rest: seq<Sextet>)
    requires Bytes(rest).Some?
    ensures Bytes([v0, v1, v2, v3] + rest) == Some([B0(v0, v1), B1(v1, v2), B2(v2, v3)] + Bytes(rest).value)
  {
    assert ([v0, v1, v2, v3] + rest)[4..] == rest;
  }

  lemma BytesOfShort(v0: Sextet, v1: Sextet, v2: Sextet)
    ensures Bytes([v0, v1]) == Some([B0(v0, v1)]) && Bytes([v0, v1, v2]) == Some([B0(v0, v1), B1(v1, v2)])
  {
  }

  lemma BytesOfOne(b0: Byte)
    ensures Bytes(Split([b0])) == Some([b0])
  {
    BytesOfShort(S0(b0), S1(b0, 0), 0);
    GroupRoundTrip(b0, 0, 0);
  }

  lemma BytesOfTwo(b0: Byte, b1: Byte)
    ensures Bytes(Split([b0, b1])) == Some([b0, b1])
  {
    var v: seq<Sextet> := [S0(b0), S1(b0, b1), S2(b1, 0)];
    assert Split([b0, b1]) == v;
    BytesOfShort(v[0], v[1], v[2]);
    GroupRoundTrip(b0, b1, 0);
  }

  lemma {:induction false} BytesOfSplit(b: seq<Byte>)
    ensures Bytes(Split(b)) == Some(b)
  {
    if |b| == 0 {
    } else if |b| == 1 {
      assert b == [b[0]];
      BytesOfOne(b[0]);
    } else if |b| == 2 {
      assert b == [b[0], b[1]];
      BytesOfTwo(b[0], b[1]);
    } else {
      BytesOfSplit(b[3..]);
      BytesOfGroup(S0(b[0]), S1(b[0], b[1]), S2(b[1], b[2]), S3(b[2]), Split(b[3..]));
      GroupRoundTrip(b[0], b[1], b[2]);
      assert b == [b[0], b[1], b[2]] + b[3..];
    }
  }

  /** Decoding what was encoded gives back the bytes, whatever their number. */
  lemma DecodeEncode(b: seq<Byte>)
    ensures Decode(Encode(b)) == Some(b) && '$' !in Encode(b)
  {
    LettersRoundTrip(Split(b));
    BytesOfSplit(b);
  }

  lemma {:induction false} LettersLength(v: seq<Sextet>)
    ensures |Letters(v)| == |v|
  {
    if v != [] {
      LettersLength(v[1..]);
    }
  }

  lemma {:induction false} SplitLength(b: seq<Byte>)
    ensures |Split(b)| == (4 * |b| + 2) / 3
  {
    if |b| >= 3 {
      SplitLength(b[3..]);
    }
  }

  /** Without padding, n bytes take ceil(4n/3) letters. */
  lemma EncodedLength(b: seq<Byte>)
    ensures |Encode(b)| == (4 * |b| + 2) / 3
  {
    LettersLength(Split(b));
    SplitLength(b);
  }

  // -------------------------------------------------------------- what is written

  const UPPER := "ABCDEFGHIJKLMNOPQRSTUVWXYZ"
  const LOWER := "abcdefghijklmnopqrstuvwxyz"
  const DIGITS := "0123456789"

  lemma UpperIs(v: Sextet)
    requires v < 26
    ensures |UPPER| == 26 && EncodeSextet(v) == UPPER[v]
  {
  }

  lemma LowerIs(v: Sextet)
    requires 26 <= v < 52
    ensures |LOWER| == 26 && EncodeSextet(v) == LOWER[v - 26]
  {
    assert LOWER[v - 26] as int == 'a' as int + (v - 26);
  }

  /** Table 1 of RFC 4648. */
  lemma AlphabetIs(v: Sextet)
    ensures |UPPER + LOWER + DIGITS + "+/"| == 64 && EncodeSextet(v) == (UPPER + LOWER + DIGITS + "+/")[v]
  {
    if v < 26 {
      UpperIs(v);
    } else if v < 52 {
      LowerIs(v);
    }
  }

  /** The sextets are the same 24 bits as the three bytes, first ones first. */
  lemma SameBits(b0: Byte, b1: Byte, b2: Byte)
    ensures 0x10000 * b0 + 0x100 * b1 + b2 == 0x40000 * S0(b0) + 0x1000 * S1(b0, b1) + 0x40 * S2(b1, b2) + S3(b2)
  {
  }

  lemma SplitGroup(b0: Byte, b1: Byte, b2: Byte, rest: seq<Byte>)
    ensures Split([b0, b1, b2] + rest) == [S0(b0), S1(b0, b1), S2(b1, b2), S3(b2)] + Split(rest)
  {
    assert ([b0, b1, b2] + rest)[3..] == rest;
  }

  /** Three bytes are written as the four letters of their 24 bits; of one or two bytes
      only the letters that are needed, the missing bits being zero. */
  lemma GroupIs(b0: Byte, b1: Byte, b2: Byte, v0: Sextet, v1: Sextet, v2: Sextet, v3: Sextet)
    requires 0x10000 * b0 + 0x100 * b1 + b2 == 0x40000 * v0 + 0x1000 * v1 + 0x40 * v2 + v3
    ensures Split([b0, b1, b2]) == [v0, v1, v2, v3]
    ensures b2 == 0 ==> Split([b0, b1]) == [v0, v1, v2]
    ensures b1 == b2 == 0 ==> Split([b0]) == [v0, v1]
  {
    SameBits(b0, b1, b2);
    Digits64(S0(b0), S1(b0, b1), S2(b1, b2), S3(b2), v0, v1, v2, v3);
    SplitGroup(b0, b1, b2, []);
    assert [b0, b1, b2] + [] == [b0, b1, b2];
    assert [v0, v1, v2, v3] + [] == [v0, v1, v2, v3];
  }

  lemma Digits64(a: Sextet, b: Sextet, c: Sextet, d: Sextet, v0: Sextet, v1: Sextet, v2: Sextet, v3: Sextet)
    requires 0x40000 * a + 0x1000 * b + 0x40 * c + d == 0x40000 * v0 + 0x1000 * v1 + 0x40 * v2 + v3
    ensures a == v0 && b == v1 && c == v2 && d == v3
  {
  }

  // ---------------------------------------------------------------- what is refused

  predicate InAlphabet(c: char) {
    'A' <= c <= 'Z' || 'a' <= c <= 'z' || '0' <= c <= '9' || c == '+' || c == '/'
  }

  predicate IsLineBreak(c: char) {
    c == '\r' || c == '\n'
  }

  /** The number of characters other than line breaks. */
  function Significant(s: string): nat {
    if s == [] then 0 else (if IsLineBreak(s[0]) then 0 else 1) + Significant(s[1..])
  }

  lemma {:induction false} LineBreaksGo(s: string)
    ensures |DropLineBreaks(s)| == Significant(s)
    ensures forall c :: c in DropLineBreaks(s) <==> c in s && !IsLineBreak(c)
  {
    if s != [] {
      LineBreaksGo(s[1..]);
      assert s == [s[0]] + s[1..];
    }
  }

  lemma DecodesAlphabet(c: char)
    ensures DecodeSextet(c).Some? <==> InAlphabet(c)
  {
  }

  lemma {:induction false} SextetsOfAlphabet(s: string)
    ensures Sextets(s).Some? <==> forall c | c in s :: InAlphabet(c)
    ensures Sextets(s).Some? ==> |Sextets(s).value| == |s|
  {
    if s != [] {
      DecodesAlphabet(s[0]);
      SextetsOfAlphabet(s[1..]);
      assert s == [s[0]] + s[1..];
    }
  }

  lemma {:induction false} BytesOfGroups(v: seq<Sextet>)
    ensures Bytes(v).Some? <==> |v| % 4 != 1
  {
    if |v| >= 4 {
      BytesOfGroups(v[4..]);
      FourLess(|v|);
    }
  }

  lemma FourLess(n: nat)
    requires n >= 4
    ensures (n - 4) % 4 == n % 4
  {
  }

  /** A text decodes if and only if all its characters but the line breaks belong to
      the alphabet, and their number does not leave a single one over. */
  lemma DecodesExactly(s: string)
    ensures Decode(s).Some? <==>
      (forall c | c in s :: InAlphabet(c) || IsLineBreak(c)) && Significant(s) % 4 != 1
  {
    LineBreaksGo(s);
    SextetsOfAlphabet(DropLineBreaks(s));
    if Sextets(DropLineBreaks(s)).Some? {
      BytesOfGroups(Sextets(DropLineBreaks(s)).value);
    }
  }

  // -------------------------------------------------------------- what is decoded

  lemma SextetBack(c: char)
    requires InAlphabet(c)
    ensures EncodeSextet(DecodeSextet(c).value) == c
  {
  }

  lemma {:induction false} LettersBack(s: string)
    requires Sextets(s).Some?
    ensures Letters(Sextets(s).value) == s
  {
    if s != [] {
      DecodesAlphabet(s[0]);
      SextetBack(s[0]);
      LettersBack(s[1..]);
      assert Sextets(s).value[1..] == Sextets(s[1..]).value;
    }
  }

  lemma GroupBack(v0: Sextet, v1: Sextet, v2: Sextet, v3: Sextet)
    ensures S0(B0(v0, v1)) == v0 && S1(B0(v0, v1), B1(v1, v2)) == v1
    ensures S2(B1(v1, v2), B2(v2, v3)) == v2 && S3(B2(v2, v3)) == v3
  {
  }

  lemma ShortBack(v0: Sextet, v1: Sextet, v2: Sextet)
    ensures S0(B0(v0, v1)) == v0 && S1(B0(v0, v1), B1(v1, v2)) == v1
  {
  }

  lemma SplitShort(v: seq<Sextet>)
    requires |v| < 4 && Bytes(v).Some?
    ensures |Split(Bytes(v).value)| == |v| && (v != [] ==> Split(Bytes(v).value)[..|v| - 1] == v[..|v| - 1])
  {
    if |v| == 2 {
      ShortBack(v[0], v[1], 0);
      assert Split(Bytes(v).value)[..1] == [v[0]];
    } else if |v| == 3 {
      ShortBack(v[0], v[1], v[2]);
      assert Split(Bytes(v).value)[..2] == [v[0], v[1]];
    }
  }

  /** Splitting the bytes again gives the sextets, but for unused low bits of the last. */
  lemma {:induction false} SplitBack(v: seq<Sextet>)
    requires Bytes(v).Some?
    ensures |Split(Bytes(v).value)| == |v| && (v != [] ==> Split(Bytes(v).value)[..|v| - 1] == v[..|v| - 1])
    ensures |v| % 4 == 0 ==> Split(Bytes(v).value) == v
  {
    if |v| < 4 {
      SplitShort(v);
    } else {
      SplitBack(v[4..]);
      FourLess(|v|);
      GroupBack(v[0], v[1], v[2], v[3]);
      SplitGroup(B0(v[0], v[1]), B1(v[1], v[2]), B2(v[2], v[3]), Bytes(v[4..]).value);
      FourFirst(v, Split(Bytes(v[4..]).value));
    }
  }

  lemma FourFirst(v: seq<Sextet>, rest: seq<Sextet>)
    requires |v| >= 4 && |rest| == |v| - 4 && (rest != [] ==> rest[..|rest| - 1] == v[4..][..|rest| - 1])
    ensures |[v[0], v[1], v[2], v[3]] + rest| == |v|
    ensures ([v[0], v[1], v[2], v[3]] + rest)[..|v| - 1] == v[..|v| - 1]
    ensures rest == v[4..] ==> [v[0], v[1], v[2], v[3]] + rest == v
  {
    var w := [v[0], v[1], v[2], v[3]] + rest;
    forall i | 0 <= i < |v| - 1 ensures w[i] == v[i] {
      if i >= 4 {
        assert rest[..|rest| - 1][i - 4] == v[4..][..|rest| - 1][i - 4];
      }
    }
  }

  lemma {:induction false} LettersTake(v: seq<Sextet>, n: nat)
    requires n <= |v|
    ensures |Letters(v)| == |v| && Letters(v)[..n] == Letters(v[..n])
  {
    LettersLength(v);
    if n > 0 {
      LettersTake(v[1..], n - 1);
      assert v[..n][1..] == v[1..][..n - 1];
      assert Letters(v) == [EncodeSextet(v[0])] + Letters(v[1..]);
    }
  }

  /** What decodes is the encoding of what it decodes to, line breaks and the unused
      low bits of the last letter aside. */
  lemma EncodeDecode(s: string)
    requires Decode(s).Some?
    ensures var letters, again := DropLineBreaks(s), Encode(Decode(s).value);
      && |again| == |letters|
      && (letters != [] ==> again[..|letters| - 1] == letters[..|letters| - 1])
      && (|letters| % 4 == 0 ==> again == letters)
  {
    var letters := DropLineBreaks(s);
    var v := Sextets(letters).value;
    var w := Split(Bytes(v).value);
    SextetsOfAlphabet(letters);
    LettersBack(letters);
    SplitBack(v);
    LettersLength(w);
    if letters != [] {
      LettersTake(v, |v| - 1);
      LettersTake(w, |v| - 1);
    }
  }
}
