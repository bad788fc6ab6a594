/** Decimal printing, the scanning verbs of fmt.Sscanf that the hash parser uses,
    and splitting at '$'. */
module Scanning {
  import opened Options
  import opened Text

  predicate IsDigit(c: char) {
    '0' <= c <= '9'
  }

  function Digit(d: nat): char
    requires d < 10
  {
    ('0' as int + d) as char
  }

  /** The verb %d for a non-negative number. */
  function Print(n: nat): string {
    if n < 10 then [Digit(n)] else Print(n / 10) + [Digit(n % 10)]
  }

  function Value(digits: string): nat
    requires forall i :: 0 <= i < |digits| ==> IsDigit(digits[i])
  {
    if digits == [] then 0
    else
      assert IsDigit(digits[|digits| - 1]);
      10 * Value(digits[..|digits| - 1]) + (digits[|digits| - 1] as int - '0' as int)
  }

  lemma {:induction false} PrintRoundTrip(n: nat)
    ensures Print(n) != []
    ensures forall i :: 0 <= i < |Print(n)| ==> IsDigit(Print(n)[i])
    ensures Value(Print(n)) == n
  {
    if n >= 10 {
      PrintRoundTrip(n / 10);
      assert Print(n)[..|Print(n)| - 1] == Print(n / 10);
    }
  }

  // ------------------------------------------------------------------- scanning

  /** Spaces before an operand are skipped; a newline there is an error. */
  function SkipSpace(s: string): Option<string> {
    if s == [] || !IsSpace(s[0]) then Some(s)
    else if s[0] == '\n' then None
    else SkipSpace(s[1..])
  }

  /** A literal of the format has to be matched exactly. */
  function Literal(s: string, lit: string): Option<string> {
    if lit <= s then Some(s[|lit|..]) else None
  }

  /** The length of the run of digits at the front. */
  function DigitRun(s: string): (n: nat)
    ensures n <= |s| && forall i :: 0 <= i < n ==> IsDigit(s[i])
    ensures n < |s| ==> !IsDigit(s[n])
  {
    if s == [] || !IsDigit(s[0]) then 0 else 1 + DigitRun(s[1..])
  }

  datatype Scanned = Scanned(value: int, rest: string)

  /** %d into an unsigned operand of which `limit` is the first value too large. */
  function ScanUnsigned(s: string, limit: nat): Option<Scanned> {
    match SkipSpace(s)
    case None => None
    case Some(t) =>
      var n := DigitRun(t);
      if n == 0 || Value(t[..n]) >= limit then None else Some(Scanned(Value(t[..n]), t[n..]))
  }

  const INT_LIMIT := 0x8000_0000_0000_0000

  /** %d into an int: an optional sign, and 64 bits. */
  function ScanInt(s: string): Option<Scanned> {
    match SkipSpace(s)
    case None => None
    case Some(t) =>
      var negative := t != [] && t[0] == '-';
      var u := if t != [] && (t[0] == '-' || t[0] == '+') then t[1..] else t;
      var n := DigitRun(u);
      if n == 0 then None
      else
        var v: int := if negative then -(Value(u[..n]) as int) else Value(u[..n]);
        if -INT_LIMIT <= v < INT_LIMIT then Some(Scanned(v, u[n..])) else None
  }

  /** What follows the number does not continue it. */
  predicate EndsNumber(rest: string) {
    rest == [] || !IsDigit(rest[0])
  }

  lemma {:induction false} DigitRunIs(digits: string, rest: string)
    requires (forall i :: 0 <= i < |digits| ==> IsDigit(digits[i])) && EndsNumber(rest)
    ensures DigitRun(digits + rest) == |digits|
  {
    if digits == [] {
      assert digits + rest == rest;
    } else {
      assert (digits + rest)[1..] == digits[1..] + rest;
      DigitRunIs(digits[1..], rest);
    }
  }

  lemma ScanPrinted(n: nat, rest: string, limit: nat)
    requires n < limit && EndsNumber(rest)
    ensures ScanUnsigned(Print(n) + rest, limit) == Some(Scanned(n, rest))
    ensures n < INT_LIMIT ==> ScanInt(Print(n) + rest) == Some(Scanned(n, rest))
  {
    PrintRoundTrip(n);
    var s := Print(n) + rest;
    assert s[0] == Print(n)[0] && SkipSpace(s) == Some(s);
    DigitRunIs(Print(n), rest);
    assert s[..|Print(n)|] == Print(n) && s[|Print(n)|..] == rest;
  }

  lemma ScanLiteral(lit: string, rest: string)
    ensures Literal(lit + rest, lit) == Some(rest)
  {
  }

  // ------------------------------------------------------ exactly what is scanned

  /** White space within a line. */
  predicate Blank(sp: string) {
    forall i | 0 <= i < |sp| :: IsSpace(sp[i]) && sp[i] != '\n'
  }

  predicate Digits(d: string) {
    d != [] && forall i :: 0 <= i < |d| ==> IsDigit(d[i])
  }

  /** The text is a number of this value, possibly with white space in front. */
  ghost predicate Numeral(text: string, v: nat) {
    exists sp, d :: text == sp + d && Blank(sp) && Digits(d) && Value(d) == v
  }

  lemma {:induction false} SkipBlank(sp: string, t: string)
    requires Blank(sp) && (t == [] || !IsSpace(t[0]))
    ensures SkipSpace(sp + t) == Some(t)
  {
    if sp == [] {
      assert sp + t == t;
    } else {
      assert (sp + t)[1..] == sp[1..] + t;
      SkipBlank(sp[1..], t);
    }
  }

  lemma {:induction false} Skipped(s: string) returns (sp: string)
    requires SkipSpace(s).Some?
    ensures Blank(sp) && s == sp + SkipSpace(s).value
  {
    if s == [] || !IsSpace(s[0]) {
      sp := [];
    } else {
      var rest := Skipped(s[1..]);
      sp := [s[0]] + rest;
      assert s == [s[0]] + s[1..];
    }
  }

  lemma ScanNumeral(sp: string, d: string, rest: string, limit: nat)
    requires Blank(sp) && Digits(d) && EndsNumber(rest) && Value(d) < limit
    ensures ScanUnsigned(sp + d + rest, limit) == Some(Scanned(Value(d), rest))
  {
    var t := d + rest;
    assert sp + d + rest == sp + t && t[0] == d[0];
    SkipBlank(sp, t);
    DigitRunIs(d, rest);
    assert t[..|d|] == d && t[|d|..] == rest;
  }

  lemma DigitsInFront(t: string)
    requires DigitRun(t) > 0
    ensures Digits(t[..DigitRun(t)]) && t == t[..DigitRun(t)] + t[DigitRun(t)..] && EndsNumber(t[DigitRun(t)..])
  {
  }

  lemma Regroup(a: string, b: string, c: string)
    ensures a + (b + c) == (a + b) + c
  {
  }

  lemma IsNumeral(sp: string, d: string)
    requires Blank(sp) && Digits(d)
    ensures Numeral(sp + d, Value(d))
  {
  }

  /** After the white space: the digits and what is left. */
  lemma AfterSpace(s: string, t: string, limit: nat) returns (d: string, rest: string)
    requires SkipSpace(s) == Some(t) && ScanUnsigned(s, limit).Some?
    ensures Digits(d) && t == d + rest && EndsNumber(rest) && Value(d) < limit
    ensures ScanUnsigned(s, limit) == Some(Scanned(Value(d), rest))
  {
    DigitsInFront(t);
    d, rest := t[..DigitRun(t)], t[DigitRun(t)..];
  }

  lemma ScannedNumeral(s: string, limit: nat) returns (text: string)
    requires ScanUnsigned(s, limit).Some?
    ensures var r := ScanUnsigned(s, limit).value;
      s == text + r.rest && 0 <= r.value < limit && Numeral(text, r.value) && EndsNumber(r.rest)
  {
    var sp := Skipped(s);
    var d, rest := AfterSpace(s, SkipSpace(s).value, limit);
    IsNumeral(sp, d);
    Regroup(sp, d, rest);
    text := sp + d;
  }

  /** A number is scanned if and only if the text begins with one, in range. */
  lemma ScansExactly(s: string, limit: nat, v: nat, rest: string)
    ensures ScanUnsigned(s, limit) == Some(Scanned(v, rest))
      <==> v < limit && EndsNumber(rest) && exists text :: s == text + rest && Numeral(text, v)
  {
    if ScanUnsigned(s, limit) == Some(Scanned(v, rest)) {
      var text := ScannedNumeral(s, limit);
    } else if v < limit && EndsNumber(rest) && exists text :: s == text + rest && Numeral(text, v) {
      var text :| s == text + rest && Numeral(text, v);
      var sp, d :| text == sp + d && Blank(sp) && Digits(d) && Value(d) == v;
      ScanNumeral(sp, d, rest, limit);
    }
  }

  /** The same with a plus sign allowed between white space and digits. */
  ghost predicate SignedNumeral(text: string, v: nat) {
    exists sp, sign, d :: text == sp + sign + d && Blank(sp) && sign in ["", "+"] && Digits(d) && Value(d) == v
  }

  lemma SignFollowed(sign: string, u: string)
    requires sign in ["", "+"] && u != [] && IsDigit(u[0])
    ensures var t := sign + u; t != [] && !IsSpace(t[0]) && t[0] != '-' && (if t[0] == '+' then t[1..] else t) == u
  {
    if sign == "" {
      assert sign + u == u;
    } else {
      assert (sign + u)[1..] == u;
    }
  }

  lemma DigitsThen(d: string, rest: string)
    requires Digits(d) && EndsNumber(rest)
    ensures DigitRun(d + rest) == |d| && (d + rest)[..|d|] == d && (d + rest)[|d|..] == rest && (d + rest)[0] == d[0]
  {
    DigitRunIs(d, rest);
  }

  lemma ScanSigned(sp: string, sign: string, d: string, rest: string)
    requires Blank(sp) && sign in ["", "+"] && Digits(d) && EndsNumber(rest) && Value(d) < INT_LIMIT
    ensures ScanInt(sp + (sign + (d + rest))) == Some(Scanned(Value(d), rest))
  {
    DigitsThen(d, rest);
    SignFollowed(sign, d + rest);
    SkipBlank(sp, sign + (d + rest));
  }

  lemma IsSignedNumeral(sp: string, sign: string, d: string)
    requires Blank(sp) && sign in ["", "+"] && Digits(d)
    ensures SignedNumeral(sp + sign + d, Value(d))
  {
  }

  /** After the white space: the sign, the digits and what is left. */
  lemma AfterSign(s: string, t: string) returns (sign: string, d: string, rest: string)
    requires SkipSpace(s) == Some(t) && ScanInt(s).Some? && ScanInt(s).value.value > 0
    ensures sign in ["", "+"] && Digits(d) && t == sign + (d + rest) && EndsNumber(rest)
    ensures ScanInt(s) == Some(Scanned(Value(d), rest)) && Value(d) < INT_LIMIT
  {
    var u: string;
    sign, u := SignOf(t);
    DigitsInFront(u);
    d, rest := u[..DigitRun(u)], u[DigitRun(u)..];
  }

  lemma ScannedSigned(s: string) returns (text: string)
    requires ScanInt(s).Some? && ScanInt(s).value.value > 0
    ensures var r := ScanInt(s).value;
      s == text + r.rest && r.value < INT_LIMIT && SignedNumeral(text, r.value) && EndsNumber(r.rest)
  {
    var sp := Skipped(s);
    var sign, d, rest := AfterSign(s, SkipSpace(s).value);
    IsSignedNumeral(sp, sign, d);
    Regroup(sp, sign, d + rest);
    Regroup(sp + sign, d, rest);
    text := sp + sign + d;
  }

  lemma SignOf(t: string) returns (sign: string, u: string)
    requires t != [] && t[0] != '-'
    ensures sign in ["", "+"] && t == sign + u && u == (if t[0] == '+' then t[1..] else t)
  {
    if t[0] == '+' {
      sign, u := "+", t[1..];
    } else {
      sign, u := "", t;
    }
  }

  lemma ScansSigned(s: string, text: string, v: nat, rest: string)
    requires v < INT_LIMIT && EndsNumber(rest) && s == text + rest && SignedNumeral(text, v)
    ensures ScanInt(s) == Some(Scanned(v, rest))
  {
    var sp, sign, d :| text == sp + sign + d && Blank(sp) && sign in ["", "+"] && Digits(d) && Value(d) == v;
    ScanSigned(sp, sign, d, rest);
    Regroup(sp, sign, d + rest);
    Regroup(sp + sign, d, rest);
  }

  /** A positive int is scanned if and only if the text begins with one. */
  lemma ScansIntExactly(s: string, v: nat, rest: string)
    requires 0 < v < INT_LIMIT
    ensures ScanInt(s) == Some(Scanned(v, rest))
      <==> EndsNumber(rest) && exists text :: s == text + rest && SignedNumeral(text, v)
  {
    if ScanInt(s) == Some(Scanned(v, rest)) {
      var text := ScannedSigned(s);
    } else if text :| s == text + rest && SignedNumeral(text, v) {
      if EndsNumber(rest) {
        ScansSigned(s, text, v, rest);
      }
    }
  }

  // ------------------------------------------------------------------- splitting

  /** strings.Split(s, "$") */
  function Fields(s: string): (fields: seq<string>)
    ensures fields != []
  {
    if s == [] then [[]]
    else
      var rest := Fields(s[1..]);
      if s[0] == '$' then [[]] + rest else [[s[0]] + rest[0]] + rest[1..]
  }

  lemma {:induction false} FirstField(a: string, rest: string)
    requires '$' !in a
    ensures Fields(a + "$" + rest) == [a] + Fields(rest)
  {
    if a == [] {
      assert a + "$" + rest == "$" + rest;
      assert ("$" + rest)[1..] == rest;
    } else {
      assert (a + "$" + rest)[1..] == a[1..] + "$" + rest;
      FirstField(a[1..], rest);
      assert [a[0]] + a[1..] == a;
    }
  }

  lemma {:induction false} OnlyField(a: string)
    requires '$' !in a
    ensures Fields(a) == [a]
  {
    if a != [] {
      OnlyField(a[1..]);
      assert [a[0]] + a[1..] == a;
    }
  }

  /** The fields joined by '$' again. */
  function Joined(fields: seq<string>): string
    requires fields != []
  {
    if |fields| == 1 then fields[0] else fields[0] + "$" + Joined(fields[1..])
  }

  /** The fields of a text are the one way to cut it at every '$' and nowhere else. */
  lemma {:induction false} FieldsExactly(s: string, fields: seq<string>)
    requires fields != [] && forall i | 0 <= i < |fields| :: '$' !in fields[i]
    ensures Fields(s) == fields <==> s == Joined(fields)
    decreases |s|
  {
    CutsJoin(s);
    if s == Joined(fields) {
      JoinedSplits(fields);
    }
  }

  lemma {:induction false} JoinedSplits(fields: seq<string>)
    requires fields != [] && forall i | 0 <= i < |fields| :: '$' !in fields[i]
    ensures Fields(Joined(fields)) == fields
  {
    if |fields| == 1 {
      OnlyField(fields[0]);
    } else {
      JoinedSplits(fields[1..]);
      FirstField(fields[0], Joined(fields[1..]));
      assert fields == [fields[0]] + fields[1..];
    }
  }

  lemma {:induction false} CutsJoin(s: string)
    ensures Joined(Fields(s)) == s
    ensures forall i | 0 <= i < |Fields(s)| :: '$' !in Fields(s)[i]
  {
    if s != [] {
      var rest := Fields(s[1..]);
      CutsJoin(s[1..]);
      assert s == [s[0]] + s[1..];
      if s[0] == '$' {
        assert ([[]] + rest)[1..] == rest;
      } else {
        var fields := [[s[0]] + rest[0]] + rest[1..];
        assert fields[1..] == rest[1..];
      }
    }
  }
}
