/** The encoded form of argon2id password hashes: its printer and its parser. */
module PasswordHash {
  import opened Options
  import opened Scanning
  import opened Base64

  const ARGON2_VERSION := 19
  const UINT32_LIMIT := 0x1_0000_0000
  const UINT8_LIMIT := 0x100

  type UInt32 = x: int | 0 <= x < UINT32_LIMIT
  type UInt8 = x: int | 0 <= x < UINT8_LIMIT

  datatype Params = Params(
    memory: UInt32, iterations: UInt32, parallelism: UInt8, saltLength: UInt32, keyLength: UInt32)

  /** argon2.IDKey(password, salt, iterations, memory, parallelism, keyLength) is
      not modelled, except that it panics on some iterations, parallelism and key
      length, and that otherwise the key has the length asked for. */
  datatype Argon2 = Argon2(
    idKey: (seq<Byte>, seq<Byte>, UInt32, UInt32, UInt8, UInt32) -> seq<Byte>,
    panics: (UInt32, UInt8, UInt32) -> bool)
  {
    ghost predicate FixedLength() {
      forall p, s, t, m, par, len :: !panics(t, par, len) ==> |idKey(p, s, t, m, par, len)| == len
    }
  }

  // -------------------------------------------------------------------- printing

  function PrintVersion(junk: string): string {
    "v=" + Print(ARGON2_VERSION) + junk
  }

  function PrintParams(m: nat, t: nat, p: nat, junk: string): string {
    "m=" + Print(m) + ",t=" + Print(t) + ",p=" + Print(p) + junk
  }

  function PrintHash(version: string, params: string, salt: seq<Byte>, key: seq<Byte>): string {
    "" + "$" + ("argon2id" + "$" + (version + "$" + (params + "$" + (Encode(salt) + "$" + Encode(key)))))
  }

  function Key(argon2: Argon2, params: Params, salt: seq<Byte>, password: seq<Byte>): seq<Byte> {
    argon2.idKey(password, salt, params.iterations, params.memory, params.parallelism, params.keyLength)
  }

  /** `Hash`, given the random salt; None when argon2 panics. */
  function Hash(argon2: Argon2, params: Params, salt: seq<Byte>, password: seq<Byte>): Option<string> {
    if argon2.panics(params.iterations, params.parallelism, params.keyLength) then None
    else
      Some(PrintHash(PrintVersion(""), PrintParams(params.memory, params.iterations, params.parallelism, ""),
                     salt, Key(argon2, params, salt, password)))
  }

  // --------------------------------------------------------------------- parsing

  datatype Parsed =
    | NotArgon2id                  // treated as a mismatch
    | Malformed                    // an error
    | Stored(memory: UInt32, iterations: UInt32, parallelism: UInt8, salt: seq<Byte>, key: seq<Byte>)

  /** fmt.Sscanf(s, "v=%d", &version); what follows is not looked at. */
  function ScanVersion(s: string): Option<int> {
    match Literal(s, "v=")
    case None => None
    case Some(t) =>
      match ScanInt(t)
      case None => None
      case Some(r) => Some(r.value)
  }

  datatype Costs = Costs(memory: UInt32, iterations: UInt32, parallelism: UInt8)

  function ScanField(s: string, lit: string, limit: nat): Option<Scanned> {
    match Literal(s, lit)
    case None => None
    case Some(t) => ScanUnsigned(t, limit)
  }

  /** fmt.Sscanf(s, "m=%d,t=%d,p=%d", &memory, &iterations, &parallelism) */
  function ScanParams(s: string): Option<Costs> {
    match ScanField(s, "m=", UINT32_LIMIT)
    case None => None
    case Some(m) =>
      match ScanField(m.rest, ",t=", UINT32_LIMIT)
      case None => None
      case Some(t) =>
        match ScanField(t.rest, ",p=", UINT8_LIMIT)
        case None => None
        case Some(p) =>
          if 0 <= m.value < UINT32_LIMIT && 0 <= t.value < UINT32_LIMIT && 0 <= p.value < UINT8_LIMIT
          then Some(Costs(m.value, t.value, p.value)) else None
  }

  function ParseFields(version: string, params: string, salt: string, key: string): Parsed {
    if ScanVersion(version) != Some(ARGON2_VERSION) then Malformed
    else
      match (ScanParams(params), Decode(salt), Decode(key))
      case (Some(c), Some(s), Some(k)) => Stored(c.memory, c.iterations, c.parallelism, s, k)
      case _ => Malformed
  }

  function Parse(encoded: string): Parsed {
    var parts := Fields(encoded);
    if |parts| != 6 || parts[1] != "argon2id" then NotArgon2id
    else ParseFields(parts[2], parts[3], parts[4], parts[5])
  }

  datatype Verdict = Match | Mismatch | Error | Panic

  function Judge(argon2: Argon2, password: seq<Byte>, parsed: Parsed): Verdict {
    match parsed
    case NotArgon2id => Mismatch
    case Malformed => Error
    case Stored(m, t, p, salt, key) =>
      if argon2.panics(t, p, |key| % UINT32_LIMIT) then Panic
      else if argon2.idKey(password, salt, t, m, p, |key| % UINT32_LIMIT) == key then Match
      else Mismatch
  }

  function Verify(argon2: Argon2, password: seq<Byte>, encoded: string): Verdict {
    Judge(argon2, password, Parse(encoded))
  }

  // -------------------------------------------------------------------- theorems

  lemma NoDollar(n: nat)
    ensures '$' !in Print(n)
  {
    PrintRoundTrip(n);
  }

  lemma ScanPrintedVersion(junk: string)
    requires EndsNumber(junk)
    ensures ScanVersion(PrintVersion(junk)) == Some(ARGON2_VERSION)
  {
    var digits := Print(ARGON2_VERSION) + junk;
    ScanPrinted(ARGON2_VERSION, junk, UINT32_LIMIT);
    assert PrintVersion(junk) == "v=" + digits;
    ScanLiteral("v=", digits);
  }

  lemma ScanPrintedField(lit: string, n: nat, rest: string, limit: nat)
    requires n < limit && EndsNumber(rest)
    ensures ScanField(lit + (Print(n) + rest), lit, limit) == Some(Scanned(n, rest))
  {
    ScanLiteral(lit, Print(n) + rest);
    ScanPrinted(n, rest, limit);
  }

  lemma Regroup(a: string, b: string, c: string, d: string, e: string, f: string, g: string)
    ensures a + b + c + d + e + f + g == a + (b + (c + (d + (e + (f + g)))))
  {
  }

  lemma ScanPrintedParams(m: UInt32, t: UInt32, p: UInt8, junk: string)
    requires EndsNumber(junk)
    ensures ScanParams(PrintParams(m, t, p, junk)) == Some(Costs(m, t, p))
  {
    var s3 := ",p=" + (Print(p) + junk);
    var s2 := ",t=" + (Print(t) + s3);
    Regroup("m=", Print(m), ",t=", Print(t), ",p=", Print(p), junk);
    ScanPrintedField("m=", m, s2, UINT32_LIMIT);
    ScanPrintedField(",t=", t, s3, UINT32_LIMIT);
    ScanPrintedField(",p=", p, junk, UINT8_LIMIT);
  }

  lemma LastFields(salt: seq<Byte>, key: seq<Byte>)
    ensures Fields(Encode(salt) + "$" + Encode(key)) == [Encode(salt), Encode(key)]
  {
    DecodeEncode(salt);
    DecodeEncode(key);
    OnlyField(Encode(key));
    FirstField(Encode(salt), Encode(key));
  }

  lemma TwoFields(a: string, b: string, rest: string)
    requires '$' !in a && '$' !in b
    ensures Fields(a + "$" + (b + "$" + rest)) == [a, b] + Fields(rest)
  {
    FirstField(a, b + "$" + rest);
    FirstField(b, rest);
  }

  /** The printed form splits into exactly six fields. */
  lemma PrintedFields(version: string, params: string, salt: seq<Byte>, key: seq<Byte>)
    requires '$' !in version && '$' !in params
    ensures Fields(PrintHash(version, params, salt, key))
      == ["", "argon2id", version, params, Encode(salt), Encode(key)]
  {
    var last := Encode(salt) + "$" + Encode(key);
    LastFields(salt, key);
    TwoFields(version, params, last);
    TwoFields("", "argon2id", version + "$" + (params + "$" + last));
  }

  lemma ParseSix(encoded: string, v: string, ps: string, es: string, ek: string)
    requires Fields(encoded) == ["", "argon2id", v, ps, es, ek]
    ensures Parse(encoded) == ParseFields(v, ps, es, ek)
  {
    var parts := Fields(encoded);
    assert parts[1] == "argon2id" && parts[2] == v && parts[3] == ps && parts[4] == es && parts[5] == ek;
  }

  lemma ParseGoodFields(v: string, ps: string, salt: seq<Byte>, key: seq<Byte>, c: Costs)
    requires ScanVersion(v) == Some(ARGON2_VERSION) && ScanParams(ps) == Some(c)
    ensures ParseFields(v, ps, Encode(salt), Encode(key)) == Stored(c.memory, c.iterations, c.parallelism, salt, key)
  {
    DecodeEncode(salt);
    DecodeEncode(key);
  }

  lemma VersionHasNoDollar(junk: string)
    requires '$' !in junk
    ensures '$' !in PrintVersion(junk)
  {
    NoDollar(ARGON2_VERSION);
  }

  lemma ParamsHaveNoDollar(m: nat, t: nat, p: nat, junk: string)
    requires '$' !in junk
    ensures '$' !in PrintParams(m, t, p, junk)
  {
    NoDollar(m);
    NoDollar(t);
    NoDollar(p);
  }

  /** Parsing undoes printing, for all parameters, salts and keys.  What stands
      behind the version or behind the parameters, if no digit, is ignored. */
  lemma ParsePrinted(m: UInt32, t: UInt32, p: UInt8, salt: seq<Byte>, key: seq<Byte>, junk: string, more: string)
    requires EndsNumber(junk) && EndsNumber(more) && '$' !in junk && '$' !in more
    ensures Parse(PrintHash(PrintVersion(junk), PrintParams(m, t, p, more), salt, key)) == Stored(m, t, p, salt, key)
  {
    var v, ps := PrintVersion(junk), PrintParams(m, t, p, more);
    VersionHasNoDollar(junk);
    ParamsHaveNoDollar(m, t, p, more);
    ScanPrintedVersion(junk);
    ScanPrintedParams(m, t, p, more);
    PrintedFields(v, ps, salt, key);
    ParseSix(PrintHash(v, ps, salt, key), v, ps, Encode(salt), Encode(key));
    ParseGoodFields(v, ps, salt, key, Costs(m, t, p));
  }

  lemma ParseHash(argon2: Argon2, params: Params, salt: seq<Byte>, password: seq<Byte>)
    requires Hash(argon2, params, salt, password).Some?
    ensures var key := Key(argon2, params, salt, password);
      Parse(Hash(argon2, params, salt, password).value)
        == Stored(params.memory, params.iterations, params.parallelism, salt, key)
  {
    var key := Key(argon2, params, salt, password);
    ParsePrinted(params.memory, params.iterations, params.parallelism, salt, key, "", "");
  }

  lemma JudgeStored(argon2: Argon2, params: Params, salt: seq<Byte>, password: seq<Byte>, attempt: seq<Byte>)
    requires argon2.FixedLength() && Hash(argon2, params, salt, password).Some?
    ensures var key := Key(argon2, params, salt, password);
      Judge(argon2, attempt, Stored(params.memory, params.iterations, params.parallelism, salt, key))
        == if Key(argon2, params, salt, attempt) == key then Match else Mismatch
  {
    assert |Key(argon2, params, salt, password)| == params.keyLength;
  }

  /** A password verifies against its own hash, and another one exactly if it
      derives the same key; verification of a fresh hash neither fails nor panics.
      There is a hash unless argon2 panics on the parameters. */
  lemma VerifyHash(argon2: Argon2, params: Params, salt: seq<Byte>, password: seq<Byte>, attempt: seq<Byte>)
    requires argon2.FixedLength()
    ensures Hash(argon2, params, salt, password).Some?
      <==> !argon2.panics(params.iterations, params.parallelism, params.keyLength)
    ensures var hash := Hash(argon2, params, salt, password);
      hash.Some? ==>
        && Verify(argon2, password, hash.value) == Match
        && (Verify(argon2, attempt, hash.value) == Match || Verify(argon2, attempt, hash.value) == Mismatch)
        && (Verify(argon2, attempt, hash.value) == Match <==>
              argon2.idKey(attempt, salt, params.iterations, params.memory, params.parallelism, params.keyLength)
              == argon2.idKey(password, salt, params.iterations, params.memory, params.parallelism, params.keyLength))
  {
    if Hash(argon2, params, salt, password).Some? {
      ParseHash(argon2, params, salt, password);
      JudgeStored(argon2, params, salt, password, password);
      JudgeStored(argon2, params, salt, password, attempt);
    }
  }

  /** The text of a hash, piece by piece. */
  lemma HashText(argon2: Argon2, params: Params, salt: seq<Byte>, password: seq<Byte>)
    ensures var hash := Hash(argon2, params, salt, password);
      var key := argon2.idKey(password, salt, params.iterations, params.memory, params.parallelism, params.keyLength);
      hash.Some? ==>
        Fields(hash.value) == [
          "", "argon2id", "v=" + Print(19),
          "m=" + Print(params.memory) + ",t=" + Print(params.iterations) + ",p=" + Print(params.parallelism),
          Encode(salt), Encode(key)]
  {
    VersionHasNoDollar("");
    ParamsHaveNoDollar(params.memory, params.iterations, params.parallelism, "");
    PrintedFields(PrintVersion(""), PrintParams(params.memory, params.iterations, params.parallelism, ""),
                  salt, Key(argon2, params, salt, password));
    NothingBehind("v=" + Print(19));
    NothingBehind("m=" + Print(params.memory) + ",t=" + Print(params.iterations) + ",p=" + Print(params.parallelism));
  }

  lemma NothingBehind(s: string)
    ensures s + "" == s
  {
  }

  predicate SixFieldsOfArgon2id(encoded: string) {
    |Fields(encoded)| == 6 && Fields(encoded)[1] == "argon2id"
  }

  /** "v=", white space, possibly a plus sign, 19 in decimal, and nothing that goes on
      with the number; what follows is free. */
  ghost predicate IsVersionField(field: string) {
    exists text, rest :: VersionReads(field, text, rest)
  }

  ghost predicate VersionReads(field: string, text: string, rest: string) {
    field == "v=" + (text + rest) && SignedNumeral(text, 19) && EndsNumber(rest)
  }

  /** "m=", ",t=" and ",p=", each with a decimal number behind white space, the first two
      of 32 bits, the last of 8; what follows is free. */
  ghost predicate IsCostField(field: string, costs: Costs) {
    exists m, t, p, rest :: CostsRead(field, costs, m, t, p, rest)
  }

  ghost predicate CostsRead(field: string, costs: Costs, m: string, t: string, p: string, rest: string) {
    && field == "m=" + (m + (",t=" + (t + (",p=" + (p + rest))))) && EndsNumber(rest)
    && Numeral(m, costs.memory) && Numeral(t, costs.iterations) && Numeral(p, costs.parallelism)
  }

  /** Letters, digits, plus and slash, and line breaks; no single letter left over. */
  predicate IsBase64Field(field: string) {
    (forall c | c in field :: InAlphabet(c) || IsLineBreak(c)) && Significant(field) % 4 != 1
  }

  /** The hash has six fields of this scheme, and each of the last four can be read. */
  ghost predicate Readable(encoded: string) {
    && SixFieldsOfArgon2id(encoded)
    && var parts := Fields(encoded);
       && IsVersionField(parts[2]) && (exists costs :: IsCostField(parts[3], costs))
       && IsBase64Field(parts[4]) && IsBase64Field(parts[5])
  }

  lemma VersionScans(field: string)
    ensures ScanVersion(field) == Some(ARGON2_VERSION) <==> IsVersionField(field)
  {
    if ScanVersion(field) == Some(ARGON2_VERSION) {
      var s := field[2..];
      assert field == "v=" + s;
      var r := ScanInt(s).value;
      ScansIntExactly(s, 19, r.rest);
      var text :| s == text + r.rest && SignedNumeral(text, 19);
      assert VersionReads(field, text, r.rest);
    }
    if IsVersionField(field) {
      var text, rest :| VersionReads(field, text, rest);
      ScanLiteral("v=", text + rest);
      ScansIntExactly(text + rest, 19, rest);
    }
  }

  lemma FieldScans(s: string, lit: string, limit: nat, v: nat, text: string, rest: string)
    requires s == lit + (text + rest) && Numeral(text, v) && v < limit && EndsNumber(rest)
    ensures ScanField(s, lit, limit) == Some(Scanned(v, rest))
  {
    ScanLiteral(lit, text + rest);
    ScansExactly(text + rest, limit, v, rest);
  }

  lemma FieldScanned(s: string, lit: string, limit: nat) returns (text: string)
    requires ScanField(s, lit, limit).Some?
    ensures var r := ScanField(s, lit, limit).value;
      s == lit + (text + r.rest) && 0 <= r.value < limit && Numeral(text, r.value) && EndsNumber(r.rest)
  {
    text := ScannedNumeral(s[|lit|..], limit);
    assert s == lit + s[|lit|..];
  }

  lemma CostsScan(field: string, costs: Costs)
    ensures ScanParams(field) == Some(costs) <==> IsCostField(field, costs)
  {
    if ScanParams(field) == Some(costs) {
      var r1 := ScanField(field, "m=", UINT32_LIMIT).value;
      var r2 := ScanField(r1.rest, ",t=", UINT32_LIMIT).value;
      var r3 := ScanField(r2.rest, ",p=", UINT8_LIMIT).value;
      var m := FieldScanned(field, "m=", UINT32_LIMIT);
      var t := FieldScanned(r1.rest, ",t=", UINT32_LIMIT);
      var p := FieldScanned(r2.rest, ",p=", UINT8_LIMIT);
      assert CostsRead(field, costs, m, t, p, r3.rest);
    }
    if IsCostField(field, costs) {
      var m, t, p, rest :| CostsRead(field, costs, m, t, p, rest);
      CostsReadScan(field, costs, m, t, p, rest);
    }
  }

  lemma CostsReadScan(field: string, costs: Costs, m: string, t: string, p: string, rest: string)
    requires CostsRead(field, costs, m, t, p, rest)
    ensures ScanParams(field) == Some(costs)
  {
    var s3 := ",p=" + (p + rest);
    var s2 := ",t=" + (t + s3);
    FieldScans(field, "m=", UINT32_LIMIT, costs.memory, m, s2);
    FieldScans(s2, ",t=", UINT32_LIMIT, costs.iterations, t, s3);
    FieldScans(s3, ",p=", UINT8_LIMIT, costs.parallelism, p, rest);
  }

  /** What Verify makes of a text is decided by its characters.  The comment says that
      malformed hashes merely do not match; that holds if and only if the number of
      fields or the scheme is wrong.  Six fields of the scheme of which one cannot be
      read are an error, and nothing else is; readable ones make Verify panic exactly
      if argon2 does. */
  lemma MalformedIsMismatchExactly(argon2: Argon2, attempt: seq<Byte>, encoded: string)
    ensures !Readable(encoded) ==> (Verify(argon2, attempt, encoded) == Mismatch <==> !SixFieldsOfArgon2id(encoded))
    ensures Verify(argon2, attempt, encoded) == Error <==> SixFieldsOfArgon2id(encoded) && !Readable(encoded)
    ensures Parse(encoded).Stored? <==> Readable(encoded)
    ensures Verify(argon2, attempt, encoded) == Panic <==>
      var parsed := Parse(encoded);
      parsed.Stored? && argon2.panics(parsed.iterations, parsed.parallelism, |parsed.key| % UINT32_LIMIT)
  {
    if SixFieldsOfArgon2id(encoded) {
      var parts := Fields(encoded);
      assert Parse(encoded) == ParseFields(parts[2], parts[3], parts[4], parts[5]);
      FieldsAreRead(parts[2], parts[3], parts[4], parts[5]);
    }
  }

  /** The verdict on a readable hash compares the key it holds with the one derived from
      the attempt under the salt and the costs it holds. */
  lemma VerdictIs(argon2: Argon2, attempt: seq<Byte>, encoded: string, costs: Costs)
    requires Readable(encoded) && IsCostField(Fields(encoded)[3], costs)
    ensures var salt, key := Decode(Fields(encoded)[4]), Decode(Fields(encoded)[5]);
      && salt.Some? && key.Some?
      && var length: UInt32 := |key.value| % UINT32_LIMIT;
         !argon2.panics(costs.iterations, costs.parallelism, length) ==>
           (Verify(argon2, attempt, encoded) == Match <==>
              argon2.idKey(attempt, salt.value, costs.iterations, costs.memory, costs.parallelism, length) == key.value)
  {
    var parts := Fields(encoded);
    FieldsAreRead(parts[2], parts[3], parts[4], parts[5]);
    CostsScan(parts[3], costs);
    assert Parse(encoded) == ParseFields(parts[2], parts[3], parts[4], parts[5]);
  }

  lemma FieldsAreRead(version: string, params: string, salt: string, key: string)
    ensures ParseFields(version, params, salt, key).Stored?
      <==> IsVersionField(version) && (exists costs :: IsCostField(params, costs))
           && IsBase64Field(salt) && IsBase64Field(key)
    ensures !ParseFields(version, params, salt, key).Stored? ==> ParseFields(version, params, salt, key).Malformed?
  {
    VersionScans(version);
    DecodesExactly(salt);
    DecodesExactly(key);
    if ScanParams(params).Some? {
      CostsScan(params, ScanParams(params).value);
    } else if costs :| IsCostField(params, costs) {
      CostsScan(params, costs);
      assert false;
    }
  }

  /** A well-formed hash of another argon2 version is such an error. */
  lemma OtherVersionIsError(argon2: Argon2, v: nat, params: string, salt: seq<Byte>, key: seq<Byte>, attempt: seq<Byte>)
    requires v != ARGON2_VERSION && v < INT_LIMIT && '$' !in params
    ensures Verify(argon2, attempt, PrintHash("v=" + Print(v), params, salt, key)) == Error
  {
    var version := "v=" + Print(v);
    NoDollar(v);
    PrintedFields(version, params, salt, key);
    ParseSix(PrintHash(version, params, salt, key), version, params, Encode(salt), Encode(key));
    ScanLiteral("v=", Print(v));
    ScanPrinted(v, "", UINT32_LIMIT + v);
    assert Print(v) + "" == Print(v);
  }

  /** Equal encodings come from equal parameters, salts and keys. */
  lemma PrintIsInjective(
    m: UInt32, t: UInt32, p: UInt8, salt: seq<Byte>, key: seq<Byte>,
    m': UInt32, t': UInt32, p': UInt8, salt': seq<Byte>, key': seq<Byte>)
    requires PrintHash(PrintVersion(""), PrintParams(m, t, p, ""), salt, key)
      == PrintHash(PrintVersion(""), PrintParams(m', t', p', ""), salt', key')
    ensures m == m' && t == t' && p == p' && salt == salt' && key == key'
  {
    ParsePrinted(m, t, p, salt, key, "", "");
    ParsePrinted(m', t', p', salt', key', "", "");
  }

  /** Hashing under two different salts gives two different encodings. */
  lemma FreshSaltFreshHash(argon2: Argon2, params: Params, salt: seq<Byte>, salt': seq<Byte>, password: seq<Byte>)
    requires salt != salt' && Hash(argon2, params, salt, password).Some?
    ensures Hash(argon2, params, salt, password) != Hash(argon2, params, salt', password)
  {
    ParseHash(argon2, params, salt, password);
    ParseHash(argon2, params, salt', password);
  }

  const DEFAULT_PARAMS := Params(64 * 1024, 3, 2, 16, 32)

  lemma PrintNext(n: nat, digits: string, d: nat)
    requires Print(n) == digits && n > 0 && d < 10
    ensures Print(10 * n + d) == digits + [Digit(d)]
  {
  }

  lemma PrintMemory()
    ensures Print(65536) == "65536"
  {
    PrintNext(6, "6", 5);
    PrintNext(65, "65", 5);
    PrintNext(655, "655", 3);
    PrintNext(6553, "6553", 6);
  }

  lemma PrintVersionNumber()
    ensures Print(19) == "19"
  {
    PrintNext(1, "1", 9);
  }

  lemma HashBegins(version: string, params: string, salt: seq<Byte>, key: seq<Byte>)
    ensures "$argon2id$" + version + "$" + params + "$" <= PrintHash(version, params, salt, key)
  {
    var rest := Encode(salt) + "$" + Encode(key);
    assert PrintHash(version, params, salt, key) == "$argon2id$" + version + "$" + params + "$" + rest;
  }

  /** How every hash made with the default parameters begins. */
  lemma DefaultPrefix(argon2: Argon2, salt: seq<Byte>, password: seq<Byte>)
    ensures PrintVersion("") == "v=19" && PrintParams(64 * 1024, 3, 2, "") == "m=65536,t=3,p=2"
    ensures var hash := Hash(argon2, DEFAULT_PARAMS, salt, password);
      hash.Some? ==> "$argon2id$" + "v=19" + "$" + "m=65536,t=3,p=2" + "$" <= hash.value
  {
    PrintVersionNumber();
    PrintMemory();
    assert Print(3) == "3" && Print(2) == "2";
    HashBegins(PrintVersion(""), PrintParams(64 * 1024, 3, 2, ""), salt, Key(argon2, DEFAULT_PARAMS, salt, password));
  }
}
