/** UUIDv7 packing: 48 bits of time, then random bits under the version and variant marks. */
module Uuid {
  import opened Order

  // ---------------------------------------------------------------- bytes

  type Byte = b: int | 0 <= b < 256

  /** The low bytes of a number, most significant first. */
  function TimeBytes(n: nat, count: nat): (bytes: seq<Byte>)
    ensures |bytes| == count
  {
    if count == 0 then [] else TimeBytes(n / 256, count - 1) + [n % 256]
  }

  /** The low four bits under the version 7. */
  function Versioned(b: Byte): Byte { b % 16 + 0x70 }

  /** The low six bits under the variant 10. */
  function Varied(b: Byte): Byte { b % 64 + 0x80 }

  /** The sixteen bytes: time, version with random bits, random, variant with random bits, random. */
  function Packed(millis: nat, random: seq<Byte>): (bytes: seq<Byte>)
    requires |random| == 16
    ensures |bytes| == 16
  {
    TimeBytes(millis, 6) + [Versioned(random[6]), random[7], Varied(random[8])] + random[9..]
  }

  function HexDigit(n: int): char
    requires 0 <= n < 16
  {
    "0123456789abcdef"[n]
  }

  function HexByte(b: Byte): string {
    [HexDigit(b / 16), HexDigit(b % 16)]
  }

  function Hex(bytes: seq<Byte>): (s: string)
    ensures |s| == 2 * |bytes|
  {
    if bytes == [] then "" else Hex(bytes[..|bytes| - 1]) + HexByte(bytes[|bytes| - 1])
  }

  function Hyphenated(hex: string): (s: string)
    requires |hex| == 32
  {
    hex[..8] + "-" + hex[8..12] + "-" + hex[12..16] + "-" + hex[16..20] + "-" + hex[20..]
  }

  function Text(millis: nat, random: seq<Byte>): string
    requires |random| == 16
  {
    Hyphenated(Hex(Packed(millis, random)))
  }

  /** Bytes 5 to 0 are overwritten with the time from the right, then two bytes are masked in place. */
  method NewUUIDv7(random: seq<Byte>, now: nat) returns (id: string)
    requires |random| == 16
    ensures id == Text(now, random)
  {
    var b := new Byte[16](i requires 0 <= i < 16 => random[i]);
    var millis := now;
    for i := 6 downto 0
      invariant TimeBytes(now, 6) == TimeBytes(millis, i) + b[i..6]
      invariant b[6..] == random[6..]
    {
      b[i] := millis % 256;
      assert b[i..6] == [b[i]] + b[i + 1..6];
      assert TimeBytes(millis, i + 1) == TimeBytes(millis / 256, i) + [b[i]];
      millis := millis / 256;
    }
    assert TimeBytes(millis, 0) + b[0..6] == b[..6];
    assert b[6] == random[6..][0] && b[8] == random[6..][2] && b[7] == random[6..][1];
    assert b[9..] == random[6..][3..] == random[9..];
    b[6] := b[6] % 16 + 0x70;
    b[8] := b[8] % 64 + 0x80;
    assert b[..] == b[..6] + [b[6], b[7], b[8]] + b[9..];
    id := Hyphenated(Hex(b[..]));
  }

  // ---------------------------------------------------------------- marks

  lemma MaskedValues(b: Byte)
    ensures Versioned(b) / 16 == 7 && Versioned(b) % 16 == b % 16
    ensures Varied(b) / 64 == 2 && Varied(b) % 64 == b % 64
    ensures 8 <= Varied(b) / 16 < 12
  {
  }

  // ---------------------------------------------------------------- the time digits

  function Pow16(k: nat): (p: nat)
    ensures p > 0
  {
    if k == 0 then 1 else 16 * Pow16(k - 1)
  }

  /** The low hexadecimal digits of a number, most significant first. */
  function Digits(n: nat, count: nat): (s: string)
    ensures |s| == count
  {
    if count == 0 then "" else Digits(n / 16, count - 1) + [HexDigit(n % 16)]
  }

  lemma {:induction false} HexJoins(a: seq<Byte>, b: seq<Byte>)
    ensures Hex(a + b) == Hex(a) + Hex(b)
  {
    if b == [] {
      assert a + b == a;
    } else {
      assert (a + b)[..|a + b| - 1] == a + b[..|b| - 1];
      HexJoins(a, b[..|b| - 1]);
    }
  }

  lemma {:induction false} HexOfTime(n: nat, count: nat)
    ensures Hex(TimeBytes(n, count)) == Digits(n, 2 * count)
  {
    if count > 0 {
      var bytes := TimeBytes(n, count);
      HexOfTime(n / 256, count - 1);
      assert bytes[..count - 1] == TimeBytes(n / 256, count - 1);
      assert (n / 16) / 16 == n / 256 && (n % 256) / 16 == (n / 16) % 16 && (n % 256) % 16 == n % 16;
      assert Digits(n, 2 * count) == Digits(n / 16, 2 * count - 1) + [HexDigit(n % 16)];
      assert Digits(n / 16, 2 * count - 1) == Digits(n / 256, 2 * count - 2) + [HexDigit((n / 16) % 16)];
    }
  }

  /** The twelve time digits, then the random part. */
  lemma HexOfPacked(millis: nat, random: seq<Byte>)
    requires |random| == 16
    ensures Hex(Packed(millis, random))[..12] == Digits(millis, 12)
  {
    var rest := [Versioned(random[6]), random[7], Varied(random[8])] + random[9..];
    assert Packed(millis, random) == TimeBytes(millis, 6) + rest;
    HexJoins(TimeBytes(millis, 6), rest);
    HexOfTime(millis, 6);
  }

  function Value(s: string): nat {
    if s == "" then 0 else 16 * Value(s[..|s| - 1]) + DigitValue(s[|s| - 1])
  }

  function DigitValue(c: char): nat {
    if '0' <= c <= '9' then c as int - '0' as int
    else if 'a' <= c <= 'f' then c as int - 'a' as int + 10
    else 0
  }

  lemma {:induction false} ValueOfDigits(n: nat, count: nat)
    ensures Value(Digits(n, count)) == n % Pow16(count)
  {
    if count > 0 {
      ValueOfDigits(n / 16, count - 1);
      NextDigit(n, Pow16(count - 1));
      assert Digits(n, count)[..count - 1] == Digits(n / 16, count - 1);
    }
  }

  lemma ProductGrows(a: nat, b: nat, d: nat)
    requires a < b
    ensures a * d + d <= b * d
  {
    assert b * d == (a + 1) * d + (b - a - 1) * d;
  }

  /** Quotient and remainder are unique. */
  lemma Division(n: nat, q: nat, d: nat, r: nat)
    requires n == q * d + r && r < d
    ensures n / d == q && n % d == r
  {
    assert n == (n / d) * d + n % d;
    if n / d < q { ProductGrows(n / d, q, d); }
    if q < n / d { ProductGrows(q, n / d, d); }
  }

  /** One digit more: quotient and remainder by sixteen times a number. */
  lemma NextDigit(n: nat, p: nat)
    requires p > 0
    ensures n / (16 * p) == n / 16 / p
    ensures n % (16 * p) == 16 * (n / 16 % p) + n % 16
  {
    var m := n / 16;
    var q, r := m / p, m % p;
    assert m == q * p + r;
    assert n == 16 * m + n % 16;
    assert 16 * (q * p) == q * (16 * p);
    Division(n, q, 16 * p, 16 * r + n % 16);
  }

  /** The time read back from a printed identifier. */
  function TimeOf(id: string): nat
    requires |id| == 36
  {
    Value(id[..8] + id[9..13])
  }

  lemma TimeText(millis: nat, random: seq<Byte>)
    requires |random| == 16
    ensures var id := Text(millis, random);
            |id| == 36 && id[..8] == Digits(millis, 12)[..8] && id[8] == '-' && id[9..13] == Digits(millis, 12)[8..]
  {
    HexOfPacked(millis, random);
    var hex := Hex(Packed(millis, random));
    assert hex[..8] == hex[..12][..8] && hex[8..12] == hex[..12][8..];
  }

  /** The time of an identifier can be read back, up to 48 bits. */
  lemma TimeIsRecovered(millis: nat, random: seq<Byte>)
    requires |random| == 16
    ensures |Text(millis, random)| == 36 && TimeOf(Text(millis, random)) == millis % 0x1_0000_0000_0000
  {
    TimeText(millis, random);
    assert Digits(millis, 12)[..8] + Digits(millis, 12)[8..] == Digits(millis, 12);
    ValueOfDigits(millis, 12);
    assert Pow16(12) == 0x1_0000_0000_0000;
  }

  /** The shape of section 4 of RFC 9562, with version 7 and the variant of section 4.1. */
  lemma ShapeIsRight(millis: nat, random: seq<Byte>)
    requires |random| == 16
    ensures var id := Text(millis, random);
            && |id| == 36 && id[8] == id[13] == id[18] == id[23] == '-'
            && id[14] == '7' && id[19] in {'8', '9', 'a', 'b'}
  {
    var bytes := Packed(millis, random);
    MaskedValues(random[6]);
    MaskedValues(random[8]);
    HexAt(bytes, 6);
    HexAt(bytes, 8);
    assert bytes[6] == Versioned(random[6]) && bytes[8] == Varied(random[8]);
    var hex := Hex(bytes);
    assert hex[12] == hex[12..14][0] && hex[16] == hex[16..18][0];
    assert HexDigit(8) == '8' && HexDigit(9) == '9' && HexDigit(10) == 'a' && HexDigit(11) == 'b';
  }

  lemma {:induction false} HexAt(bytes: seq<Byte>, i: nat)
    requires i < |bytes|
    ensures Hex(bytes)[2 * i..2 * i + 2] == HexByte(bytes[i])
  {
    var init := bytes[..|bytes| - 1];
    if i < |init| {
      HexAt(init, i);
      assert Hex(bytes)[2 * i..2 * i + 2] == Hex(init)[2 * i..2 * i + 2];
    }
  }

  // ---------------------------------------------------------------- order

  lemma {:induction false} LessAfter(p: string, a: string, b: string)
    requires Less(a, b)
    ensures Less(p + a, p + b)
  {
    if p == "" {
      assert p + a == a && p + b == b;
    } else {
      LessAfter(p[1..], a, b);
      assert (p + a)[1..] == p[1..] + a && (p + b)[1..] == p[1..] + b;
    }
  }

  lemma {:induction false} DigitsAscend(n: nat, m: nat, count: nat, x: string, y: string)
    requires n < m < Pow16(count)
    ensures Less(Digits(n, count) + x, Digits(m, count) + y)
  {
    var dn, dm := [HexDigit(n % 16)] + x, [HexDigit(m % 16)] + y;
    assert Digits(n, count) + x == Digits(n / 16, count - 1) + dn;
    assert Digits(m, count) + y == Digits(m / 16, count - 1) + dm;
    if n / 16 < m / 16 {
      DigitsAscend(n / 16, m / 16, count - 1, dn, dm);
    } else {
      assert n % 16 < m % 16;
      assert Less(dn, dm);
      LessAfter(Digits(n / 16, count - 1), dn, dm);
    }
  }

  lemma {:induction false} DigitsSplit(n: nat, count: nat, low: nat)
    requires low <= count
    ensures Digits(n, count)[..count - low] == Digits(n / Pow16(low), count - low)
    ensures Digits(n, count)[count - low..] == Digits(n, low)
  {
    if low > 0 {
      DigitsSplit(n / 16, count - 1, low - 1);
      NextDigit(n, Pow16(low - 1));
      assert Digits(n, count)[..count - low] == Digits(n / 16, count - 1)[..count - low];
      assert Digits(n, count)[count - low..] == Digits(n / 16, count - 1)[count - low..] + [HexDigit(n % 16)];
    }
  }

  /** A later millisecond gives a greater identifier, whatever the random bits. */
  lemma LaterIsGreater(early: nat, late: nat, random: seq<Byte>, other: seq<Byte>)
    requires |random| == 16 && |other| == 16 && early < late < 0x1_0000_0000_0000
    ensures Less(Text(early, random), Text(late, other))
  {
    hide Text, Digits, Less;
    var a, b := Text(early, random), Text(late, other);
    TimeText(early, random);
    TimeText(late, other);
    TimeTextParts(a, early);
    TimeTextParts(b, late);
    var p := 0x1_0000;
    if early / p < late / p {
      assert Pow16(8) == 0x1_0000_0000;
      DigitsAscend(early / p, late / p, 8, a[8..], b[8..]);
    } else {
      assert Pow16(4) == p;
      DigitsAscend(early % p, late % p, 4, a[13..], b[13..]);
      LessAfter(a[..9], Digits(early % p, 4) + a[13..], Digits(late % p, 4) + b[13..]);
    }
  }

  lemma TimeTextParts(a: string, millis: nat)
    requires |a| == 36 && a[..8] == Digits(millis, 12)[..8] && a[8] == '-' && a[9..13] == Digits(millis, 12)[8..]
    ensures a == Digits(millis / 0x1_0000, 8) + a[8..]
    ensures a[..9] == Digits(millis / 0x1_0000, 8) + "-"
    ensures a == a[..9] + (Digits(millis % 0x1_0000, 4) + a[13..])
  {
    hide Digits;
    assert Pow16(4) == 0x1_0000;
    DigitsSplit(millis, 12, 4);
    LowDigits(millis, 4);
    assert a[..8] == Digits(millis / 0x1_0000, 8) && a[9..13] == Digits(millis % 0x1_0000, 4);
    assert a == a[..8] + a[8..] && a[..9] == a[..8] + [a[8]] && a == a[..9] + (a[9..13] + a[13..]);
  }

  lemma {:induction false} LowDigits(n: nat, count: nat)
    ensures Digits(n, count) == Digits(n % Pow16(count), count)
  {
    if count > 0 {
      var p := Pow16(count - 1);
      NextDigit(n, p);
      var low := n % (16 * p);
      assert low / 16 == n / 16 % p && low % 16 == n % 16;
      LowDigits(n / 16, count - 1);
    }
  }
}
