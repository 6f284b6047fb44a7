/** The stored password string: how it is printed, how it is parsed, and that the two agree. Argon2 and bcrypt
    are parameters; a string is a sequence of one-byte characters. */
module Password {
  import opened Text
  import opened Schema

  type Byte = b: int | 0 <= b < 256

  // ---------------------------------------------------------------- unpadded base64

  function Symbol(n: int): (c: char)
    requires 0 <= n < 64
    ensures Sextet(c) == n
  {
    if n < 26 then (n + 'A' as int) as char
    else if n < 52 then (n - 26 + 'a' as int) as char
    else if n < 62 then (n - 52 + '0' as int) as char
    else if n == 62 then '+' else '/'
  }

  /** The value of a symbol; -1 for any other character. */
  function Sextet(c: char): (n: int)
    ensures -1 <= n < 64
  {
    if 'A' <= c <= 'Z' then c as int - 'A' as int
    else if 'a' <= c <= 'z' then c as int - 'a' as int + 26
    else if '0' <= c <= '9' then c as int - '0' as int + 52
    else if c == '+' then 62 else if c == '/' then 63 else -1
  }

  /** Base64 as in section 4 of RFC 4648, without padding (section 3.2). */
  function Encode(bytes: seq<Byte>): string {
    if |bytes| == 0 then ""
    else if |bytes| == 1 then [Symbol(bytes[0] / 4), Symbol(bytes[0] % 4 * 16)]
    else if |bytes| == 2 then
      [Symbol(bytes[0] / 4), Symbol(bytes[0] % 4 * 16 + bytes[1] / 16), Symbol(bytes[1] % 16 * 4)]
    else
      [Symbol(bytes[0] / 4), Symbol(bytes[0] % 4 * 16 + bytes[1] / 16), Symbol(bytes[1] % 16 * 4 + bytes[2] / 64),
       Symbol(bytes[2] % 64)] + Encode(bytes[3..])
  }

  /** Line ends are skipped wherever they stand. */
  function WithoutLineEnds(s: string): string {
    if s == "" then "" else (if s[0] in {'\r', '\n'} then "" else [s[0]]) + WithoutLineEnds(s[1..])
  }

  predicate Sextets(a: int, b: int, c: int, d: int) {
    0 <= a < 64 && 0 <= b < 64 && 0 <= c < 64 && 0 <= d < 64
  }

  /** The three bytes of four sextets. */
  function Bytes(a: int, b: int, c: int, d: int): (Byte, Byte, Byte)
    requires Sextets(a, b, c, d)
  {
    (a * 4 + b / 16, b % 16 * 16 + c / 4, c % 4 * 64 + d)
  }

  /** Groups of four symbols; the unused low bits of a last short group are not looked at. */
  function DecodeGroups(s: string): Option<seq<Byte>> {
    if s == "" then Some([])
    else if |s| == 1 || Sextet(s[0]) < 0 || Sextet(s[1]) < 0 then None
    else if |s| == 2 then Some([Bytes(Sextet(s[0]), Sextet(s[1]), 0, 0).0])
    else if Sextet(s[2]) < 0 then None
    else if |s| == 3 then
      var r := Bytes(Sextet(s[0]), Sextet(s[1]), Sextet(s[2]), 0);
      Some([r.0, r.1])
    else if Sextet(s[3]) < 0 then None
    else
      var r := Bytes(Sextet(s[0]), Sextet(s[1]), Sextet(s[2]), Sextet(s[3]));
      match DecodeGroups(s[4..])
      case Some(rest) => Some([r.0, r.1, r.2] + rest)
      case None => None
  }

  function Decode(s: string): Option<seq<Byte>> {
    DecodeGroups(WithoutLineEnds(s))
  }

  lemma {:induction false} DecodeOfEncode(bytes: seq<Byte>)
    ensures DecodeGroups(Encode(bytes)) == Some(bytes)
  {
    hide Symbol, Sextet;
    if |bytes| > 2 {
      DecodeOfEncode(bytes[3..]);
      assert Encode(bytes)[4..] == Encode(bytes[3..]);
      Quartet(bytes[0], bytes[1], bytes[2]);
      assert bytes == [bytes[0], bytes[1], bytes[2]] + bytes[3..];
    } else if |bytes| == 2 {
      Quartet(bytes[0], bytes[1], 0);
      assert bytes == [bytes[0], bytes[1]];
    } else if |bytes| == 1 {
      Quartet(bytes[0], 0, 0);
      assert bytes == [bytes[0]];
    }
  }

  /** Three bytes come back from their four sextets. */
  lemma Quartet(a: Byte, b: Byte, c: Byte)
    ensures a / 4 * 4 + (a % 4 * 16 + b / 16) / 16 == a
    ensures (a % 4 * 16 + b / 16) % 16 * 16 + (b % 16 * 4 + c / 64) / 4 == b
    ensures (b % 16 * 4 + c / 64) % 4 * 64 + c % 64 == c
  {
  }

  predicate Plain(s: string) {
    forall i :: 0 <= i < |s| ==> Sextet(s[i]) >= 0
  }

  lemma {:induction false} EncodeIsPlain(bytes: seq<Byte>)
    ensures Plain(Encode(bytes))
  {
    hide Symbol, Sextet;
    if |bytes| > 2 {
      EncodeIsPlain(bytes[3..]);
    }
  }

  lemma {:induction false} PlainHasNoLineEnds(s: string)
    requires forall i :: 0 <= i < |s| ==> s[i] !in {'\r', '\n'}
    ensures WithoutLineEnds(s) == s
  {
    if s != "" {
      PlainHasNoLineEnds(s[1..]);
    }
  }

  /** Every byte string is read back from its text. */
  lemma Base64RoundTrip(bytes: seq<Byte>)
    ensures Decode(Encode(bytes)) == Some(bytes)
    ensures '$' !in Encode(bytes)
  {
    hide Encode;
    EncodeIsPlain(bytes);
    PlainHasNoLineEnds(Encode(bytes));
    DecodeOfEncode(bytes);
  }

  // ---------------------------------------------------------------- decimals

  predicate IsDigit(c: char) { '0' <= c <= '9' }

  function Decimal(n: nat): (s: string)
    ensures s != "" && forall i :: 0 <= i < |s| ==> IsDigit(s[i])
  {
    if n < 10 then ["0123456789"[n]] else Decimal(n / 10) + ["0123456789"[n % 10]]
  }

  function Number(digits: string): nat
    requires forall i :: 0 <= i < |digits| ==> IsDigit(digits[i])
  {
    if digits == "" then 0 else
      var last := digits[|digits| - 1];
      assert IsDigit(last);
      10 * Number(digits[..|digits| - 1]) + (last as int - '0' as int)
  }

  lemma {:induction false} NumberOfDecimal(n: nat)
    ensures Number(Decimal(n)) == n
  {
    if n >= 10 {
      NumberOfDecimal(n / 10);
      assert Decimal(n)[..|Decimal(n)| - 1] == Decimal(n / 10);
    } else {
      assert Decimal(n)[..0] == "";
    }
  }

  /** The digits a string begins with. */
  function LeadingDigits(s: string): (d: string)
    ensures |d| <= |s| && d == s[..|d|] && forall i :: 0 <= i < |d| ==> IsDigit(d[i])
  {
    if s != "" && IsDigit(s[0]) then [s[0]] + LeadingDigits(s[1..]) else ""
  }

  lemma {:induction false} DigitsLead(digits: string, rest: string)
    requires forall i :: 0 <= i < |digits| ==> IsDigit(digits[i])
    requires rest == "" || !IsDigit(rest[0])
    ensures LeadingDigits(digits + rest) == digits
  {
    if digits == "" {
      assert digits + rest == rest;
    } else {
      assert (digits + rest)[1..] == digits[1..] + rest;
      DigitsLead(digits[1..], rest);
    }
  }

  /** %d of fmt.Sscanf into an unsigned number below `bound`: blanks but no line end, then digits. Answers the rest. */
  function ScanNumber(s: string, bound: nat): Option<(nat, string)> {
    if s != "" && IsSpace(s[0]) && s[0] != '\n' then ScanNumber(s[1..], bound)
    else
      var d := LeadingDigits(s);
      if d == "" || Number(d) >= bound then None else Some((Number(d), s[|d|..]))
  }

  function ScanText(s: string, text: string): Option<string> {
    if text <= s then Some(s[|text|..]) else None
  }

  /** strconv.Atoi: an optional sign, then digits only. */
  function Atoi(s: string): Option<int> {
    var digits := if s != "" && s[0] in {'+', '-'} then s[1..] else s;
    if digits == "" || LeadingDigits(digits) != digits || Number(digits) > 0x7fff_ffff_ffff_ffff then None
    else Some(if s[0] == '-' then 0 - Number(digits) else Number(digits) as int)
  }

  // ---------------------------------------------------------------- the string

  const UINT32: nat := 0x1_0000_0000
  const UINT8: nat := 256

  datatype Params = Params(memory: nat, iterations: nat, parallelism: nat, keyLength: nat) {
    predicate Fits() { memory < UINT32 && iterations < UINT32 && parallelism < UINT8 && keyLength < UINT32 }
  }

  function PrintCosts(p: Params): string {
    "m=" + Decimal(p.memory) + ",t=" + Decimal(p.iterations) + ",p=" + Decimal(p.parallelism)
  }

  function Field(s: string, rest: string): string {
    s + "$" + rest
  }

  /** A stored string of the given texts. */
  function Written(first: string, version: string, costs: string, salt: string, digest: string): string {
    Field(first, Field("argon2id", Field(version, Field(costs, Field(salt, digest)))))
  }

  function Print(p: Params, salt: seq<Byte>, digest: seq<Byte>): string {
    Written("", "v=19", PrintCosts(p), Encode(salt), Encode(digest))
  }

  /** Sscanf with m=%d,t=%d,p=%d: what follows the last number is not looked at. */
  function ScanCosts(s: string): Option<(nat, nat, nat)> {
    match ScanText(s, "m=") case None => None case Some(s1) =>
    match ScanNumber(s1, UINT32) case None => None case Some((memory, s2)) =>
    match ScanText(s2, ",t=") case None => None case Some(s3) =>
    match ScanNumber(s3, UINT32) case None => None case Some((iterations, s4)) =>
    match ScanText(s4, ",p=") case None => None case Some(s5) =>
    match ScanNumber(s5, UINT8) case None => None case Some((parallelism, _)) =>
      Some((memory, iterations, parallelism))
  }

  function TrimPrefix(s: string, prefix: string): string {
    if prefix <= s then s[|prefix|..] else s
  }

  datatype Decoded = Decoded(params: Params, salt: seq<Byte>, digest: seq<Byte>)

  function DecodeHash(encoded: string): Option<Decoded> {
    var parts := Split(encoded, '$');
    if |parts| != 6 || parts[1] != "argon2id" || Atoi(TrimPrefix(parts[2], "v=")) != Some(19) then None
    else
      match ScanCosts(parts[3]) case None => None case Some((memory, iterations, parallelism)) =>
      match Decode(parts[4]) case None => None case Some(salt) =>
      match Decode(parts[5]) case None => None case Some(digest) =>
        Some(Decoded(Params(memory, iterations, parallelism, |digest| % UINT32), salt, digest))
  }

  predicate IsLegacyBcrypt(encoded: string) {
    "$2a$" <= encoded || "$2b$" <= encoded || "$2y$" <= encoded
  }

  /** Argon2id: password, salt and costs to a key of the length asked for. */
  type Kdf = (string, seq<Byte>, Params) -> seq<Byte>

  ghost predicate GivesLength(kdf: Kdf) {
    forall password, salt, p :: |kdf(password, salt, p)| == p.keyLength
  }

  /** `salt` is what the random source gave. */
  function Hash(kdf: Kdf, p: Params, salt: seq<Byte>, password: string): Result<string> {
    if password == "" then Err(InvalidInput) else Ok(Print(p, salt, kdf(password, salt, p)))
  }

  function Verify(kdf: Kdf, bcrypt: (string, string) -> Result<bool>, password: string, encoded: string): Result<bool> {
    if IsLegacyBcrypt(encoded) then bcrypt(encoded, password)
    else
      match DecodeHash(encoded)
      case None => Err(InvalidInput)
      case Some(d) => Ok(kdf(password, d.salt, d.params) == d.digest)
  }

  // ---------------------------------------------------------------- splitting what was printed

  lemma SplitField(s: string, rest: string)
    requires '$' !in s
    ensures Split(Field(s, rest), '$') == [s] + Split(rest, '$')
  {
    SplitFirst(s, rest, '$');
  }

  lemma WrittenFields(first: string, version: string, costs: string, salt: string, digest: string)
    requires '$' !in first && '$' !in version && '$' !in costs && '$' !in salt && '$' !in digest
    ensures Split(Written(first, version, costs, salt, digest), '$')
            == [first, "argon2id", version, costs, salt, digest]
  {
    hide Split, Field;
    SplitNothing(digest, '$');
    SplitField(salt, digest);
    SplitField(costs, Field(salt, digest));
    SplitField(version, Field(costs, Field(salt, digest)));
    SplitField("argon2id", Field(version, Field(costs, Field(salt, digest))));
    SplitField(first, Field("argon2id", Field(version, Field(costs, Field(salt, digest)))));
  }

  lemma ScanPrinted(n: nat, bound: nat, rest: string)
    requires n < bound && (rest == "" || !IsDigit(rest[0]))
    ensures ScanNumber(Decimal(n) + rest, bound) == Some((n, rest))
  {
    var s := Decimal(n) + rest;
    DigitsLead(Decimal(n), rest);
    NumberOfDecimal(n);
    assert s[0] == Decimal(n)[0] && IsDigit(s[0]) && !IsSpace(s[0]);
    assert s[|Decimal(n)|..] == rest;
  }

  lemma ScanAfter(text: string, s: string)
    ensures ScanText(text + s, text) == Some(s)
  {
    assert text <= text + s && (text + s)[|text|..] == s;
  }

  lemma CostsRoundTrip(p: Params)
    requires p.Fits()
    ensures ScanCosts(PrintCosts(p)) == Some((p.memory, p.iterations, p.parallelism))
  {
    hide Decimal, ScanNumber, ScanText;
    var last := ",p=" + (Decimal(p.parallelism) + "");
    var middle := ",t=" + (Decimal(p.iterations) + last);
    var all := "m=" + (Decimal(p.memory) + middle);
    assert PrintCosts(p) == all;
    ScanAfter("m=", Decimal(p.memory) + middle);
    ScanPrinted(p.memory, UINT32, middle);
    ScanAfter(",t=", Decimal(p.iterations) + last);
    ScanPrinted(p.iterations, UINT32, last);
    ScanAfter(",p=", Decimal(p.parallelism) + "");
    ScanPrinted(p.parallelism, UINT8, "");
  }

  lemma CostsArePlain(p: Params)
    ensures '$' !in PrintCosts(p)
  {
    assert forall n :: '$' !in Decimal(n);
  }

  lemma VersionIsRead()
    ensures Atoi(TrimPrefix("v=19", "v=")) == Some(19)
  {
    assert Decimal(19) == Decimal(1) + ['9'] && Decimal(1) == ['1'];
    assert TrimPrefix("v=19", "v=") == "19" == Decimal(19);
    NumberOfDecimal(19);
    DigitsLead("19", "");
    assert "19" + "" == "19";
  }

  /** The printed string gives back the parameters, the salt and the digest, and is never taken for bcrypt. */
  lemma HashRoundTrip(p: Params, salt: seq<Byte>, digest: seq<Byte>)
    requires p.Fits() && |digest| == p.keyLength
    ensures DecodeHash(Print(p, salt, digest)) == Some(Decoded(p, salt, digest))
    ensures !IsLegacyBcrypt(Print(p, salt, digest))
  {
    hide Encode, Decode, ScanCosts, PrintCosts, Split, Atoi, TrimPrefix;
    Base64RoundTrip(salt);
    Base64RoundTrip(digest);
    CostsArePlain(p);
    CostsRoundTrip(p);
    VersionIsRead();
    WrittenFields("", "v=19", PrintCosts(p), Encode(salt), Encode(digest));
    assert Print(p, salt, digest)[1] == 'a';
  }

  /** A password verifies against its own hash; another one exactly when Argon2 gives it the same key. */
  lemma VerifyOfHash(kdf: Kdf, bcrypt: (string, string) -> Result<bool>, p: Params, salt: seq<Byte>, password: string,
                     candidate: string)
    requires GivesLength(kdf) && p.Fits()
    ensures password == "" ==> Hash(kdf, p, salt, password) == Err(InvalidInput)
    ensures password != "" ==>
      && Hash(kdf, p, salt, password).Ok?
      && var encoded := Hash(kdf, p, salt, password).value;
         && Verify(kdf, bcrypt, password, encoded) == Ok(true)
         && Verify(kdf, bcrypt, candidate, encoded) == Ok(kdf(candidate, salt, p) == kdf(password, salt, p))
  {
    hide Print, DecodeHash;
    HashRoundTrip(p, salt, kdf(password, salt, p));
  }

  // ---------------------------------------------------------------- which strings are printed

  /** Unpadded base64 as Encode writes it: no line ends, and the unused low bits of a short last group are zero. */
  predicate CanonicalBase64(s: string) {
    && (forall i :: 0 <= i < |s| ==> s[i] !in {'\r', '\n'})
    && (|s| % 4 == 2 ==> Sextet(s[|s| - 1]) % 16 == 0)
    && (|s| % 4 == 3 ==> Sextet(s[|s| - 1]) % 4 == 0)
  }

  lemma SymbolOfSextet(c: char)
    requires Sextet(c) >= 0
    ensures Symbol(Sextet(c)) == c
  {
  }

  /** The four sextets again. */
  lemma SextetsOfBytes(a: int, b: int, c: int, d: int)
    requires Sextets(a, b, c, d)
    ensures var r := Bytes(a, b, c, d);
            && r.0 / 4 == a && r.0 % 4 * 16 + r.1 / 16 == b && r.1 % 16 * 4 + r.2 / 64 == c && r.2 % 64 == d
            && r.0 % 4 * 16 == b - b % 16 && r.1 % 16 * 4 == c - c % 4
  {
  }

  lemma DecodeFour(s: string)
    requires |s| >= 4 && DecodeGroups(s).Some?
    ensures Sextet(s[0]) >= 0 && Sextet(s[1]) >= 0 && Sextet(s[2]) >= 0 && Sextet(s[3]) >= 0
    ensures DecodeGroups(s[4..]).Some?
    ensures var r := Bytes(Sextet(s[0]), Sextet(s[1]), Sextet(s[2]), Sextet(s[3]));
            DecodeGroups(s).value == [r.0, r.1, r.2] + DecodeGroups(s[4..]).value
  {
    hide Sextet, Bytes;
  }

  lemma EncodeThree(x: Byte, y: Byte, z: Byte, rest: seq<Byte>)
    ensures Encode([x, y, z] + rest)
            == [Symbol(x / 4), Symbol(x % 4 * 16 + y / 16), Symbol(y % 16 * 4 + z / 64), Symbol(z % 64)] + Encode(rest)
  {
    hide Symbol;
    assert ([x, y, z] + rest)[3..] == rest;
  }

  /** The bytes read from groups print as those groups exactly when the unused bits are zero. */
  lemma {:induction false} EncodeOfDecode(s: string)
    requires DecodeGroups(s).Some?
    ensures Encode(DecodeGroups(s).value) == s <==>
            (|s| % 4 == 2 ==> Sextet(s[|s| - 1]) % 16 == 0) && (|s| % 4 == 3 ==> Sextet(s[|s| - 1]) % 4 == 0)
  {
    hide Symbol, Sextet, Bytes, Encode, DecodeGroups;
    if |s| >= 4 {
      DecodeFour(s);
      EncodeOfDecode(s[4..]);
      OneGroup(s);
      assert s == [s[0], s[1], s[2], s[3]] + s[4..];
    } else {
      ShortGroup(s);
    }
  }

  lemma ShortGroup(s: string)
    requires |s| < 4 && DecodeGroups(s).Some?
    ensures Encode(DecodeGroups(s).value) == s <==>
            (|s| == 2 ==> Sextet(s[1]) % 16 == 0) && (|s| == 3 ==> Sextet(s[2]) % 4 == 0)
  {
    hide Symbol, Sextet, Bytes, Encode, DecodeGroups;
    if |s| == 3 {
      TwoBytes(s);
      SextetsOfBytes(Sextet(s[0]), Sextet(s[1]), Sextet(s[2]), 0);
      var r := Bytes(Sextet(s[0]), Sextet(s[1]), Sextet(s[2]), 0);
      EncodeTwo(r.0, r.1);
      SymbolOfSextet(s[0]);
      SymbolOfSextet(s[1]);
      SymbolOfSextet(s[2]);
      SameSymbol(Sextet(s[2]) - Sextet(s[2]) % 4, Sextet(s[2]));
    } else if |s| == 2 {
      OneByte(s);
      SextetsOfBytes(Sextet(s[0]), Sextet(s[1]), 0, 0);
      var r := Bytes(Sextet(s[0]), Sextet(s[1]), 0, 0);
      EncodeOne(r.0);
      SymbolOfSextet(s[0]);
      SymbolOfSextet(s[1]);
      SameSymbol(Sextet(s[1]) - Sextet(s[1]) % 16, Sextet(s[1]));
    } else {
      EncodeNothing(s);
    }
  }

  lemma SameSymbol(a: int, b: int)
    requires 0 <= a < 64 && 0 <= b < 64
    ensures Symbol(a) == Symbol(b) <==> a == b
  {
    hide Symbol;
    assert Sextet(Symbol(a)) == a && Sextet(Symbol(b)) == b;
  }

  lemma EncodeNothing(s: string)
    requires |s| < 2 && DecodeGroups(s).Some?
    ensures Encode(DecodeGroups(s).value) == s
  {
  }

  lemma EncodeTwo(x: Byte, y: Byte)
    ensures Encode([x, y]) == [Symbol(x / 4), Symbol(x % 4 * 16 + y / 16), Symbol(y % 16 * 4)]
  {
    hide Symbol;
  }

  lemma EncodeOne(x: Byte)
    ensures Encode([x]) == [Symbol(x / 4), Symbol(x % 4 * 16)]
  {
    hide Symbol;
  }

  lemma TwoBytes(s: string)
    requires |s| == 3 && DecodeGroups(s).Some?
    ensures Sextet(s[0]) >= 0 && Sextet(s[1]) >= 0 && Sextet(s[2]) >= 0
    ensures var r := Bytes(Sextet(s[0]), Sextet(s[1]), Sextet(s[2]), 0); DecodeGroups(s).value == [r.0, r.1]
  {
    hide Sextet, Bytes;
  }

  lemma OneByte(s: string)
    requires |s| == 2 && DecodeGroups(s).Some?
    ensures Sextet(s[0]) >= 0 && Sextet(s[1]) >= 0
    ensures var r := Bytes(Sextet(s[0]), Sextet(s[1]), 0, 0); DecodeGroups(s).value == [r.0]
  {
    hide Sextet, Bytes;
  }

  lemma OneGroup(s: string)
    requires |s| >= 4 && DecodeGroups(s).Some? && DecodeGroups(s[4..]).Some?
    ensures Encode(DecodeGroups(s).value) == [s[0], s[1], s[2], s[3]] + Encode(DecodeGroups(s[4..]).value)
  {
    hide Symbol, Sextet, Bytes, Encode, DecodeGroups;
    DecodeFour(s);
    var r := Bytes(Sextet(s[0]), Sextet(s[1]), Sextet(s[2]), Sextet(s[3]));
    SextetsOfBytes(Sextet(s[0]), Sextet(s[1]), Sextet(s[2]), Sextet(s[3]));
    EncodeThree(r.0, r.1, r.2, DecodeGroups(s[4..]).value);
    SymbolOfSextet(s[0]);
    SymbolOfSextet(s[1]);
    SymbolOfSextet(s[2]);
    SymbolOfSextet(s[3]);
  }

  lemma Base64IsPrinted(s: string)
    requires Decode(s).Some?
    ensures Encode(Decode(s).value) == s <==> CanonicalBase64(s)
  {
    hide Encode, DecodeGroups;
    if Encode(Decode(s).value) == s {
      EncodeIsPlain(Decode(s).value);
      assert forall i :: 0 <= i < |s| ==> Sextet(s[i]) >= 0;
      PlainHasNoLineEnds(s);
      EncodeOfDecode(s);
    } else if CanonicalBase64(s) {
      PlainHasNoLineEnds(s);
      EncodeOfDecode(s);
    }
  }

  /** A decimal without leading zeros. */
  predicate CanonicalNumber(s: string) {
    s != "" && (forall i :: 0 <= i < |s| ==> IsDigit(s[i])) && (|s| > 1 ==> s[0] != '0')
  }

  lemma {:induction false} DecimalIsCanonical(n: nat)
    ensures CanonicalNumber(Decimal(n)) && (n > 0 ==> Decimal(n)[0] != '0')
  {
    if n >= 10 { DecimalIsCanonical(n / 10); }
  }

  lemma DecimalAppends(m: nat, d: nat)
    requires 0 < m && d < 10
    ensures Decimal(10 * m + d) == Decimal(m) + ["0123456789"[d]]
  {
    assert (10 * m + d) / 10 == m && (10 * m + d) % 10 == d;
  }

  lemma DigitOf(c: char)
    requires IsDigit(c)
    ensures "0123456789"[c as int - '0' as int] == c
  {
  }

  lemma NumberAppends(s: string)
    requires s != "" && forall i :: 0 <= i < |s| ==> IsDigit(s[i])
    ensures IsDigit(s[|s| - 1])
    ensures Number(s) == 10 * Number(s[..|s| - 1]) + (s[|s| - 1] as int - '0' as int)
  {
  }

  lemma {:induction false} DecimalOfNumber(s: string)
    requires CanonicalNumber(s)
    ensures Decimal(Number(s)) == s && (s[0] != '0' ==> Number(s) > 0)
  {
    hide Decimal, Number;
    var n := |s| - 1;
    NumberAppends(s);
    DigitOf(s[n]);
    assert s == s[..n] + [s[n]];
    var d := s[n] as int - '0' as int;
    if n > 0 {
      DecimalOfNumber(s[..n]);
      DecimalAppends(Number(s[..n]), d);
    } else {
      OneDigit(d);
    }
  }

  lemma OneDigit(d: nat)
    requires d < 10
    ensures Number("") == 0 && Decimal(d) == ["0123456789"[d]]
  {
  }

  lemma ScanCanonical(a: string, bound: nat, rest: string)
    requires CanonicalNumber(a) && (rest == "" || !IsDigit(rest[0]))
    ensures ScanNumber(a + rest, bound) == if Number(a) >= bound then None else Some((Number(a), rest))
  {
    var s := a + rest;
    DigitsLead(a, rest);
    assert s[0] == a[0] && IsDigit(a[0]) && !IsSpace(s[0]);
    assert s[|a|..] == rest;
  }

  /** The cost field as it is printed: three decimals without leading zeros behind their letters, and nothing else. */
  predicate CanonicalCosts(s: string) {
    var parts := Split(s, ',');
    && |parts| == 3
    && "m=" <= parts[0] && CanonicalNumber(parts[0][2..])
    && "t=" <= parts[1] && CanonicalNumber(parts[1][2..])
    && "p=" <= parts[2] && CanonicalNumber(parts[2][2..])
  }

  /** The cost field made of three texts. */
  function CostsOf(m: string, t: string, p: string): string {
    "m=" + (m + (",t=" + (t + (",p=" + (p + "")))))
  }

  lemma ScanOfCosts(m: string, t: string, p: string)
    requires CanonicalNumber(m) && CanonicalNumber(t) && CanonicalNumber(p)
    ensures ScanCosts(CostsOf(m, t, p))
            == if Number(m) < UINT32 && Number(t) < UINT32 && Number(p) < UINT8
               then Some((Number(m), Number(t), Number(p))) else None
  {
    hide ScanNumber, ScanText;
    var s5 := p + "";
    var s3 := t + (",p=" + s5);
    var s1 := m + (",t=" + s3);
    ScanAfter("m=", s1);
    ScanCanonical(m, UINT32, ",t=" + s3);
    ScanAfter(",t=", s3);
    ScanCanonical(t, UINT32, ",p=" + s5);
    ScanAfter(",p=", s5);
    ScanCanonical(p, UINT8, "");
  }

  lemma SplitOfCosts(m: string, t: string, p: string)
    requires ',' !in m && ',' !in t && ',' !in p
    ensures Split(CostsOf(m, t, p), ',') == ["m=" + m, "t=" + t, "p=" + p]
  {
    var last := "p=" + p;
    var middle := ("t=" + t) + [','] + last;
    SplitNothing(last, ',');
    SplitFirst("t=" + t, last, ',');
    SplitFirst("m=" + m, middle, ',');
    assert CostsOf(m, t, p) == ("m=" + m) + [','] + middle;
  }

  lemma CanonicalHasNoComma(s: string)
    requires CanonicalNumber(s)
    ensures ',' !in s
  {
  }

  lemma CostsArePrinted(s: string)
    requires ScanCosts(s).Some?
    ensures var (m, t, p) := ScanCosts(s).value;
            CostsOf(Decimal(m), Decimal(t), Decimal(p)) == s <==> CanonicalCosts(s)
  {
    hide ScanCosts, CanonicalNumber, Split, Decimal, Number;
    var (m, t, p) := ScanCosts(s).value;
    var (dm, dt, dp) := (Decimal(m), Decimal(t), Decimal(p));
    DecimalIsCanonical(m);
    DecimalIsCanonical(t);
    DecimalIsCanonical(p);
    if CostsOf(dm, dt, dp) == s {
      CanonicalHasNoComma(dm);
      CanonicalHasNoComma(dt);
      CanonicalHasNoComma(dp);
      SplitOfCosts(dm, dt, dp);
      assert ("m=" + dm)[2..] == dm && ("t=" + dt)[2..] == dt && ("p=" + dp)[2..] == dp;
    } else if CanonicalCosts(s) {
      CanonicalCostsAreOf(s);
      var parts := Split(s, ',');
      var (a, b, c) := (parts[0][2..], parts[1][2..], parts[2][2..]);
      ScanOfCosts(a, b, c);
      DecimalOfNumber(a);
      DecimalOfNumber(b);
      DecimalOfNumber(c);
    }
  }

  lemma CanonicalCostsAreOf(s: string)
    requires CanonicalCosts(s)
    ensures var parts := Split(s, ','); s == CostsOf(parts[0][2..], parts[1][2..], parts[2][2..])
  {
    hide CanonicalNumber, Split;
    var parts := Split(s, ',');
    JoinOfSplit(s, ',');
    assert parts == [parts[0], parts[1], parts[2]];
    assert parts[0] == "m=" + parts[0][2..] && parts[1] == "t=" + parts[1][2..] && parts[2] == "p=" + parts[2][2..];
    assert parts[0..] == parts && parts[2..] == [parts[2]];
    JoinTail(parts, 1, ",");
    JoinTail(parts, 0, ",");
  }

  lemma PrintedCosts(p: Params)
    ensures PrintCosts(p) == CostsOf(Decimal(p.memory), Decimal(p.iterations), Decimal(p.parallelism))
  {
    hide Decimal;
  }

  /** A stored string as Hash writes it, said of the text alone. */
  predicate Canonical(s: string) {
    var parts := Split(s, '$');
    && |parts| == 6 && parts[0] == "" && parts[2] == "v=19"
    && CanonicalCosts(parts[3]) && CanonicalBase64(parts[4]) && CanonicalBase64(parts[5])
  }

  lemma SixFields(s: string)
    requires |Split(s, '$')| == 6
    ensures var f := Split(s, '$'); s == Field(f[0], Field(f[1], Field(f[2], Field(f[3], Field(f[4], f[5])))))
  {
    hide Split;
    var f := Split(s, '$');
    JoinOfSplit(s, '$');
    assert f[5..] == [f[5]];
    JoinTail(f, 4, "$");
    JoinTail(f, 3, "$");
    JoinTail(f, 2, "$");
    JoinTail(f, 1, "$");
    JoinTail(f, 0, "$");
    assert f[0..] == f;
  }

  /** Which of the strings that decode are printed: exactly the canonical ones. */
  lemma PrintedIsCanonical(s: string)
    requires DecodeHash(s).Some?
    ensures var d := DecodeHash(s).value; Print(d.params, d.salt, d.digest) == s <==> Canonical(s)
  {
    hide Split, ScanCosts, Decode, Atoi, TrimPrefix, Encode, PrintCosts, CanonicalCosts, CanonicalBase64, Field;
    var d := DecodeHash(s).value;
    var f := Split(s, '$');
    CostsArePrinted(f[3]);
    PrintedCosts(d.params);
    Base64IsPrinted(f[4]);
    Base64IsPrinted(f[5]);
    SixFields(s);
    if Print(d.params, d.salt, d.digest) == s {
      CostsArePlain(d.params);
      EncodeIsPlain(d.salt);
      EncodeIsPlain(d.digest);
      PlainHasNoDollar(Encode(d.salt));
      PlainHasNoDollar(Encode(d.digest));
      WrittenFields("", "v=19", PrintCosts(d.params), Encode(d.salt), Encode(d.digest));
    }
  }

  lemma PlainHasNoDollar(s: string)
    requires Plain(s)
    ensures '$' !in s
  {
  }

  // ---------------------------------------------------------------- the other strings that decode

  lemma DecodeWritten(first: string, version: string, costs: string, salt: string, digest: string)
    requires '$' !in first && '$' !in version && '$' !in costs && '$' !in salt && '$' !in digest
    ensures DecodeHash(Written(first, version, costs, salt, digest))
            == if Atoi(TrimPrefix(version, "v=")) == Some(19) && ScanCosts(costs).Some? && Decode(salt).Some?
                  && Decode(digest).Some?
               then
                 var (m, t, p) := ScanCosts(costs).value;
                 var bytes := Decode(digest).value;
                 Some(Decoded(Params(m, t, p, |bytes| % UINT32), Decode(salt).value, bytes))
               else None
  {
    hide Split, Written, ScanCosts, Decode, Atoi, TrimPrefix;
    WrittenFields(first, version, costs, salt, digest);
  }

  /** What follows the first number of the cost field, and the field with another first number and ending. */
  function AfterMemory(p: Params, tail: string): string {
    ",t=" + (Decimal(p.iterations) + (",p=" + (Decimal(p.parallelism) + tail)))
  }

  function Costs(memory: string, p: Params, tail: string): string {
    "m=" + (memory + AfterMemory(p, tail))
  }

  lemma ScanVaried(memory: string, p: Params, tail: string)
    requires p.Fits() && (tail == "" || !IsDigit(tail[0]))
    requires ScanNumber(memory + AfterMemory(p, tail), UINT32) == Some((p.memory, AfterMemory(p, tail)))
    ensures ScanCosts(Costs(memory, p, tail)) == Some((p.memory, p.iterations, p.parallelism))
  {
    hide Decimal, ScanNumber, ScanText;
    var last := Decimal(p.parallelism) + tail;
    ScanAfter("m=", memory + AfterMemory(p, tail));
    ScanAfter(",t=", Decimal(p.iterations) + (",p=" + last));
    ScanPrinted(p.iterations, UINT32, ",p=" + last);
    ScanAfter(",p=", last);
    ScanPrinted(p.parallelism, UINT8, tail);
  }

  lemma {:induction false} ZeroLeads(s: string)
    requires forall i :: 0 <= i < |s| ==> IsDigit(s[i])
    ensures (forall i :: 0 <= i < |"0" + s| ==> IsDigit(("0" + s)[i])) && Number("0" + s) == Number(s)
  {
    assert forall i :: 0 <= i < |"0" + s| ==> IsDigit(("0" + s)[i]);
    if s == "" {
      assert "0" + s == "0" && "0"[..0] == "";
    } else {
      var init := s[..|s| - 1];
      ZeroLeads(init);
      assert ("0" + s)[..|s|] == "0" + init;
    }
  }

  /** Blanks and zeros before a number, and any text after the last one, are passed over. */
  lemma LaxCosts(p: Params)
    requires p.Fits()
    ensures var all := Some((p.memory, p.iterations, p.parallelism));
            && ScanCosts(Costs(" " + Decimal(p.memory), p, "")) == all
            && ScanCosts(Costs("0" + Decimal(p.memory), p, "")) == all
            && ScanCosts(Costs(Decimal(p.memory), p, "x")) == all
  {
    hide ScanCosts, Decimal, ScanNumber;
    var d, rest := Decimal(p.memory), AfterMemory(p, "");
    ScanPrinted(p.memory, UINT32, rest);
    ScanPrinted(p.memory, UINT32, AfterMemory(p, "x"));
    BlankLeads(d + rest);
    assert (" " + d) + rest == " " + (d + rest);
    ZeroScans(p.memory, rest);
    ScanVaried(" " + d, p, "");
    ScanVaried("0" + d, p, "");
    ScanVaried(d, p, "x");
  }

  lemma BlankLeads(s: string)
    ensures ScanNumber(" " + s, UINT32) == ScanNumber(s, UINT32)
  {
    assert (" " + s)[1..] == s;
  }

  lemma ZeroScans(n: nat, rest: string)
    requires n < UINT32 && rest != "" && !IsDigit(rest[0])
    ensures ScanNumber(("0" + Decimal(n)) + rest, UINT32) == Some((n, rest))
  {
    var digits := "0" + Decimal(n);
    ZeroLeads(Decimal(n));
    NumberOfDecimal(n);
    DigitsLead(digits, rest);
    assert (digits + rest)[0] == '0' && (digits + rest)[|digits|..] == rest;
  }

  /** The text of bytes whose last group is two symbols, with one of its unused bits set. */
  function WithUnusedBit(bytes: seq<Byte>): string
    requires |bytes| % 3 == 1
  {
    if |bytes| == 1 then [Symbol(bytes[0] / 4), Symbol(bytes[0] % 4 * 16 + 1)]
    else Encode(bytes[..3]) + WithUnusedBit(bytes[3..])
  }

  lemma {:induction false} UnusedBitIsIgnored(bytes: seq<Byte>)
    requires |bytes| % 3 == 1
    ensures DecodeGroups(WithUnusedBit(bytes)) == Some(bytes) && Plain(WithUnusedBit(bytes))
  {
    hide Symbol, Sextet, DecodeGroups, Bytes, Encode;
    var s := WithUnusedBit(bytes);
    if |bytes| == 1 {
      LastBit(bytes[0]);
      assert bytes == [bytes[0]];
    } else {
      var x, y, z := bytes[0], bytes[1], bytes[2];
      UnusedBitIsIgnored(bytes[3..]);
      assert bytes[..3] == [x, y, z] && bytes == [x, y, z] + bytes[3..];
      OneGroupText(x, y, z);
      GroupDecodes(x, y, z, WithUnusedBit(bytes[3..]), bytes[3..]);
    }
  }

  lemma OneGroupText(x: Byte, y: Byte, z: Byte)
    ensures Encode([x, y, z])
            == [Symbol(x / 4), Symbol(x % 4 * 16 + y / 16), Symbol(y % 16 * 4 + z / 64), Symbol(z % 64)]
    ensures Plain(Encode([x, y, z]))
  {
    hide Symbol, Sextet;
    assert [x, y, z][3..] == [] && Encode([]) == "";
  }

  lemma LastBit(x: Byte)
    ensures DecodeGroups([Symbol(x / 4), Symbol(x % 4 * 16 + 1)]) == Some([x])
  {
    hide Symbol, Sextet;
  }

  lemma GroupDecodes(x: Byte, y: Byte, z: Byte, rest: string, bytes: seq<Byte>)
    requires DecodeGroups(rest) == Some(bytes)
    ensures var s := [Symbol(x / 4), Symbol(x % 4 * 16 + y / 16), Symbol(y % 16 * 4 + z / 64), Symbol(z % 64)];
            DecodeGroups(s + rest) == Some([x, y, z] + bytes)
  {
    hide Symbol, Sextet;
    var s := [Symbol(x / 4), Symbol(x % 4 * 16 + y / 16), Symbol(y % 16 * 4 + z / 64), Symbol(z % 64)] + rest;
    assert s[4..] == rest;
    Quartet(x, y, z);
  }

  lemma AtoiOfDigits(sign: string, digits: string)
    requires (sign == "" || sign == "+") && digits != "" && (forall i :: 0 <= i < |digits| ==> IsDigit(digits[i]))
    requires Number(digits) <= 0x7fff_ffff_ffff_ffff
    ensures Atoi(sign + digits) == Some(Number(digits))
  {
    hide Number, LeadingDigits;
    DigitsLead(digits, "");
    assert digits + "" == digits;
    if sign == "" {
      assert sign + digits == digits && IsDigit(digits[0]);
    } else {
      assert (sign + digits)[1..] == digits;
    }
  }

  lemma Nineteen()
    ensures Number("19") == 19 && Number("019") == 19
  {
    assert Decimal(19) == Decimal(1) + ['9'] && Decimal(1) == ['1'];
    NumberOfDecimal(19);
    ZeroLeads("19");
    assert "0" + "19" == "019";
  }

  lemma LaxVersions()
    ensures Atoi(TrimPrefix("19", "v=")) == Some(19) && Atoi(TrimPrefix("v=+19", "v=")) == Some(19)
    ensures Atoi(TrimPrefix("v=019", "v=")) == Some(19)
  {
    hide Atoi, Number;
    Nineteen();
    AtoiOfDigits("", "19");
    AtoiOfDigits("+", "19");
    AtoiOfDigits("", "019");
    assert "" + "19" == "19" && "+" + "19" == "+19" && "" + "019" == "019";
    assert "v="[0] != "19"[0];
    assert TrimPrefix("19", "v=") == "19";
    assert TrimPrefix("v=+19", "v=") == "+19";
    assert TrimPrefix("v=019", "v=") == "019";
  }

  lemma LineEndIsSkipped(s: string)
    requires Plain(s)
    ensures Decode(s + "\n") == DecodeGroups(s) && '$' !in s + "\n"
  {
    PlainHasNoLineEnds(s);
    LineEndAtEnd(s);
  }

  lemma {:induction false} LineEndAtEnd(s: string)
    ensures WithoutLineEnds(s + "\n") == WithoutLineEnds(s)
  {
    if s == "" {
      assert s + "\n" == "\n" && "\n"[1..] == "";
    } else {
      assert (s + "\n")[1..] == s[1..] + "\n";
      LineEndAtEnd(s[1..]);
    }
  }

  lemma LaxHeads(p: Params, salt: seq<Byte>, digest: seq<Byte>)
    requires p.Fits() && |digest| == p.keyLength
    ensures var d, c, s, g := Some(Decoded(p, salt, digest)), PrintCosts(p), Encode(salt), Encode(digest);
            && DecodeHash(Written("x", "v=19", c, s, g)) == d
            && DecodeHash(Written("", "19", c, s, g)) == d
            && DecodeHash(Written("", "v=+19", c, s, g)) == d
            && DecodeHash(Written("", "v=019", c, s, g)) == d
  {
    hide Encode, Decode, ScanCosts, PrintCosts, Atoi, TrimPrefix, Written, DecodeHash;
    var c, s, g := PrintCosts(p), Encode(salt), Encode(digest);
    Base64RoundTrip(salt);
    Base64RoundTrip(digest);
    CostsArePlain(p);
    CostsRoundTrip(p);
    VersionIsRead();
    LaxVersions();
    DecodeWritten("x", "v=19", c, s, g);
    DecodeWritten("", "19", c, s, g);
    DecodeWritten("", "v=+19", c, s, g);
    DecodeWritten("", "v=019", c, s, g);
  }

  lemma LaxMiddles(p: Params, salt: seq<Byte>, digest: seq<Byte>)
    requires p.Fits() && |digest| == p.keyLength
    ensures var d, s, g := Some(Decoded(p, salt, digest)), Encode(salt), Encode(digest);
            && DecodeHash(Written("", "v=19", Costs(" " + Decimal(p.memory), p, ""), s, g)) == d
            && DecodeHash(Written("", "v=19", Costs("0" + Decimal(p.memory), p, ""), s, g)) == d
            && DecodeHash(Written("", "v=19", Costs(Decimal(p.memory), p, "x"), s, g)) == d
  {
    hide Encode, Decode, ScanCosts, Atoi, TrimPrefix, Costs, Written, DecodeHash, Decimal;
    var s, g := Encode(salt), Encode(digest);
    Base64RoundTrip(salt);
    Base64RoundTrip(digest);
    VersionIsRead();
    LaxCosts(p);
    PlainCosts(p);
    DecodeWritten("", "v=19", Costs(" " + Decimal(p.memory), p, ""), s, g);
    DecodeWritten("", "v=19", Costs("0" + Decimal(p.memory), p, ""), s, g);
    DecodeWritten("", "v=19", Costs(Decimal(p.memory), p, "x"), s, g);
  }

  lemma LaxSalt(p: Params, salt: seq<Byte>, digest: seq<Byte>, text: string)
    requires p.Fits() && |digest| == p.keyLength && Decode(text) == Some(salt) && '$' !in text
    ensures DecodeHash(Written("", "v=19", PrintCosts(p), text, Encode(digest))) == Some(Decoded(p, salt, digest))
  {
    hide Encode, Decode, ScanCosts, PrintCosts, Atoi, TrimPrefix, Written, DecodeHash;
    Base64RoundTrip(digest);
    CostsArePlain(p);
    CostsRoundTrip(p);
    VersionIsRead();
    DecodeWritten("", "v=19", PrintCosts(p), text, Encode(digest));
  }

  lemma LaxSaltTexts(salt: seq<Byte>)
    ensures Decode(Encode(salt) + "\n") == Some(salt) && '$' !in Encode(salt) + "\n"
    ensures |salt| % 3 == 1 ==> Decode(WithUnusedBit(salt)) == Some(salt) && '$' !in WithUnusedBit(salt)
  {
    hide Encode, Decode, DecodeGroups, WithUnusedBit;
    EncodeIsPlain(salt);
    DecodeOfEncode(salt);
    LineEndIsSkipped(Encode(salt));
    if |salt| % 3 == 1 {
      UnusedBitIsIgnored(salt);
      PlainHasNoDollar(WithUnusedBit(salt));
      PlainHasNoLineEnds(WithUnusedBit(salt));
      DecodePlain(WithUnusedBit(salt));
    }
  }

  /** The ways in which the parser is laxer than the printer, each for every hash: all these strings decode like the
      printed one. The unused bits are those of a salt like that of Hash, whose length leaves one byte over. */
  lemma LaxStringsDecodeAlike(p: Params, salt: seq<Byte>, digest: seq<Byte>)
    requires p.Fits() && |digest| == p.keyLength
    ensures var d, c, s, g := Some(Decoded(p, salt, digest)), PrintCosts(p), Encode(salt), Encode(digest);
            && DecodeHash(Written("x", "v=19", c, s, g)) == d
            && DecodeHash(Written("", "19", c, s, g)) == d
            && DecodeHash(Written("", "v=+19", c, s, g)) == d
            && DecodeHash(Written("", "v=019", c, s, g)) == d
            && DecodeHash(Written("", "v=19", Costs(" " + Decimal(p.memory), p, ""), s, g)) == d
            && DecodeHash(Written("", "v=19", Costs("0" + Decimal(p.memory), p, ""), s, g)) == d
            && DecodeHash(Written("", "v=19", Costs(Decimal(p.memory), p, "x"), s, g)) == d
            && DecodeHash(Written("", "v=19", c, s + "\n", g)) == d
            && (|salt| % 3 == 1 ==> DecodeHash(Written("", "v=19", c, WithUnusedBit(salt), g)) == d)
  {
    hide Encode, Decode, PrintCosts, Costs, Written, DecodeHash, WithUnusedBit, Decimal;
    LaxHeads(p, salt, digest);
    LaxMiddles(p, salt, digest);
    LaxSaltTexts(salt);
    LaxSalt(p, salt, digest, Encode(salt) + "\n");
    if |salt| % 3 == 1 { LaxSalt(p, salt, digest, WithUnusedBit(salt)); }
  }

  lemma DecodePlain(s: string)
    requires WithoutLineEnds(s) == s
    ensures Decode(s) == DecodeGroups(s)
  {
  }

  lemma PlainCosts(p: Params)
    ensures '$' !in Costs(" " + Decimal(p.memory), p, "") && '$' !in Costs("0" + Decimal(p.memory), p, "")
    ensures '$' !in Costs(Decimal(p.memory), p, "x")
  {
    assert forall n :: '$' !in Decimal(n);
  }

  lemma CostsDiffer(p: Params)
    ensures Costs(" " + Decimal(p.memory), p, "") != PrintCosts(p)
    ensures Costs("0" + Decimal(p.memory), p, "") != PrintCosts(p)
    ensures Costs(Decimal(p.memory), p, "x") != PrintCosts(p)
  {
    hide Decimal;
    var d := Decimal(p.memory);
    assert PrintCosts(p) == Costs(d, p, "");
    assert |Costs(" " + d, p, "")| == |Costs(d, p, "")| + 1 == |Costs("0" + d, p, "")|;
    assert |Costs(d, p, "x")| == |Costs(d, p, "")| + 1;
  }

  lemma {:induction false} UnusedBitDiffers(bytes: seq<Byte>)
    requires |bytes| % 3 == 1
    ensures WithUnusedBit(bytes) != Encode(bytes)
  {
    hide Symbol, Encode;
    if |bytes| == 1 {
      EncodeOne(bytes[0]);
      assert bytes == [bytes[0]];
      SameSymbol(bytes[0] % 4 * 16, bytes[0] % 4 * 16 + 1);
    } else {
      var x, y, z := bytes[0], bytes[1], bytes[2];
      UnusedBitDiffers(bytes[3..]);
      OneGroupText(x, y, z);
      EncodeThree(x, y, z, bytes[3..]);
      assert bytes[..3] == [x, y, z] && bytes == [x, y, z] + bytes[3..];
      assert WithUnusedBit(bytes)[4..] == WithUnusedBit(bytes[3..]) && Encode(bytes)[4..] == Encode(bytes[3..]);
    }
  }

  lemma WrittenDiffers(first: string, version: string, costs: string, salt: string, p: Params, bytes: seq<Byte>,
                       digest: seq<Byte>)
    requires '$' !in first && '$' !in version && '$' !in costs && '$' !in salt
    requires first != "" || version != "v=19" || costs != PrintCosts(p) || salt != Encode(bytes)
    ensures Written(first, version, costs, salt, Encode(digest)) != Print(p, bytes, digest)
  {
    hide Split, Written, Encode, PrintCosts;
    Base64RoundTrip(bytes);
    Base64RoundTrip(digest);
    CostsArePlain(p);
    WrittenFields(first, version, costs, salt, Encode(digest));
    WrittenFields("", "v=19", PrintCosts(p), Encode(bytes), Encode(digest));
  }

  /** None of those strings is the printed one; so, by PrintedIsCanonical, none is canonical. */
  lemma LaxStringsAreOthers(p: Params, salt: seq<Byte>, digest: seq<Byte>)
    ensures var printed, c, s, g := Print(p, salt, digest), PrintCosts(p), Encode(salt), Encode(digest);
            && Written("x", "v=19", c, s, g) != printed
            && Written("", "19", c, s, g) != printed
            && Written("", "v=+19", c, s, g) != printed
            && Written("", "v=019", c, s, g) != printed
            && Written("", "v=19", Costs(" " + Decimal(p.memory), p, ""), s, g) != printed
            && Written("", "v=19", Costs("0" + Decimal(p.memory), p, ""), s, g) != printed
            && Written("", "v=19", Costs(Decimal(p.memory), p, "x"), s, g) != printed
            && Written("", "v=19", c, s + "\n", g) != printed
            && (|salt| % 3 == 1 ==> Written("", "v=19", c, WithUnusedBit(salt), g) != printed)
  {
    hide Encode, PrintCosts, Costs, Written, Print, WithUnusedBit, Decimal, Decode;
    var c, s := PrintCosts(p), Encode(salt);
    Base64RoundTrip(salt);
    CostsArePlain(p);
    PlainCosts(p);
    CostsDiffer(p);
    LaxSaltTexts(salt);
    assert |s + "\n"| == |s| + 1;
    assert |"v=019"| == |"v=+19"| == 5;
    WrittenDiffers("x", "v=19", c, s, p, salt, digest);
    WrittenDiffers("", "19", c, s, p, salt, digest);
    WrittenDiffers("", "v=+19", c, s, p, salt, digest);
    WrittenDiffers("", "v=019", c, s, p, salt, digest);
    WrittenDiffers("", "v=19", Costs(" " + Decimal(p.memory), p, ""), s, p, salt, digest);
    WrittenDiffers("", "v=19", Costs("0" + Decimal(p.memory), p, ""), s, p, salt, digest);
    WrittenDiffers("", "v=19", Costs(Decimal(p.memory), p, "x"), s, p, salt, digest);
    WrittenDiffers("", "v=19", c, s + "\n", p, salt, digest);
    if |salt| % 3 == 1 {
      UnusedBitDiffers(salt);
      WrittenDiffers("", "v=19", c, WithUnusedBit(salt), p, salt, digest);
    }
  }
}
