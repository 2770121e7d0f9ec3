/** The identity of a node (node.c, sram_setup.c, and the identity branch of main.c): a 16-byte identifier, its
    text form as in section 4 of RFC 9562, and how it is kept across reboots. */
module Node {

  type byte = x: int | 0 <= x < 256
  type Uuid = s: seq<byte> | |s| == 16 witness seq(16, _ => 0)

  const UUID_STR_LEN: nat := 37

  // ----- generate_id

  /** The identifier made at uptime `ts` (a uint64_t, in milliseconds) from two 32-bit random numbers.  The
      version nibble is or-ed into an empty high nibble. */
  function GeneratedId(ts: nat, r1: nat, r2: nat): Uuid {
    [ts / 0x100_0000_0000 % 256, ts / 0x1_0000_0000 % 256, ts / 0x100_0000 % 256, ts / 0x1_0000 % 256,
     ts / 0x100 % 256, ts % 256,
     ts / 0x1000 % 16 + 0x60, ts / 0x10 % 256,
     r1 / 0x100_0000 % 256, r1 / 0x1_0000 % 256, r1 / 0x100 % 256, r1 % 256,
     r2 / 0x100_0000 % 256, r2 / 0x1_0000 % 256, r2 / 0x100 % 256, r2 % 256]
  }

  /** The version is 6. */
  predicate Version6(u: Uuid) {
    u[6] / 16 == 6
  }

  lemma GeneratedIsVersion6(ts: nat, r1: nat, r2: nat)
    ensures Version6(GeneratedId(ts, r1, r2))
  {
  }

  /** n written in base 256, most significant digit first. */
  function Digits4(n: nat): (d: (byte, byte, byte, byte)) {
    (n / 0x100_0000 % 256, n / 0x1_0000 % 256, n / 0x100 % 256, n % 256)
  }

  /** The number of four bytes, the most significant first. */
  function Number(a: int, b: int, c: int, d: int): int {
    ((a * 256 + b) * 256 + c) * 256 + d
  }

  lemma Digits4Value(n: nat)
    requires n < 0x1_0000_0000
    ensures var (a, b, c, d) := Digits4(n); Number(a, b, c, d) == n
  {
    var n1 := n / 256;
    var n2 := n1 / 256;
    Quotients(n);
    assert n == n1 * 256 + n % 256;
    assert n1 == n2 * 256 + n1 % 256;
    assert n2 == n2 / 256 * 256 + n2 % 256;
    assert n2 / 256 < 256;
  }

  lemma Quotients(n: nat)
    ensures n / 0x1_0000 == n / 256 / 256 && n / 0x100_0000 == n / 256 / 256 / 256
  {
  }

  /** The identifier has the variant bits of section 4.1 of RFC 9562, the top two of byte 8, exactly if the top two bits
      of the first random number happen to be 10: nothing sets them. */
  lemma VariantIff(ts: nat, r1: nat, r2: nat)
    requires r1 < 0x1_0000_0000
    ensures GeneratedId(ts, r1, r2)[8] / 64 == 2 <==> r1 / 0x4000_0000 == 2
  {
    var b := r1 / 0x100_0000;
    assert GeneratedId(ts, r1, r2)[8] == b;
    assert r1 == b * 0x100_0000 + r1 % 0x100_0000;
  }

  /** An identifier without the variant. */
  lemma VariantNotSet(ts: nat, r2: nat)
    ensures GeneratedId(ts, 0, r2)[8] / 64 != 2
  {
    VariantIff(ts, 0, r2);
  }

  /** The number of the low half of one byte, and another. */
  function Twelve(high: int, low: int): int {
    high % 16 * 256 + low
  }

  /** The fields of a generated identifier: 48 bits of the uptime, the version and 12 bits of the uptime without its
      lowest four, and the two random numbers, all with the most significant byte first. */
  predicate HasFields(u: Uuid, ts: nat, r1: nat, r2: nat) {
    && Stamp(u) == ts % 0x1_0000_0000_0000
    && u[6] / 16 == 6 && Twelve(u[6], u[7]) == ts / 16 % 4096
    && Number(u[8], u[9], u[10], u[11]) == r1
    && Number(u[12], u[13], u[14], u[15]) == r2
  }

  lemma GeneratedFields(ts: nat, r1: nat, r2: nat)
    requires r1 < 0x1_0000_0000 && r2 < 0x1_0000_0000
    ensures HasFields(GeneratedId(ts, r1, r2), ts, r1, r2)
  {
    StampField(ts, r1, r2);
    MiddleField(ts, r1, r2);
    RandomFields(ts, r1, r2);
  }

  lemma StampField(ts: nat, r1: nat, r2: nat)
    ensures Stamp(GeneratedId(ts, r1, r2)) == ts % 0x1_0000_0000_0000
  {
    TimestampBytes(ts);
    var u, v := GeneratedId(ts, 0, 0), GeneratedId(ts, r1, r2);
    assert u[0] == v[0] && u[1] == v[1] && u[2] == v[2] && u[3] == v[3] && u[4] == v[4] && u[5] == v[5];
  }

  lemma MiddleField(ts: nat, r1: nat, r2: nat)
    ensures var u := GeneratedId(ts, r1, r2); u[6] / 16 == 6 && Twelve(u[6], u[7]) == ts / 16 % 4096
  {
    var u, x := GeneratedId(ts, r1, r2), ts / 0x1000 % 16;
    VersionByte(x);
    TwelveBits(ts / 16);
    Sixteenths(ts);
  }

  lemma VersionByte(x: nat)
    requires x < 16
    ensures (x + 0x60) / 16 == 6 && (x + 0x60) % 16 == x
  {
  }

  lemma Sixteenths(ts: nat)
    ensures ts / 16 / 256 == ts / 0x1000
  {
  }

  lemma TwelveBits(n: nat)
    ensures n / 256 % 16 * 256 + n % 256 == n % 4096
  {
    var q := n / 256;
    Remainder12(n, q / 16, q % 16 * 256 + n % 256);
  }

  lemma Remainder12(n: nat, q: nat, r: nat)
    requires n == q * 4096 + r && r < 4096
    ensures n % 4096 == r
  {
  }

  lemma RandomFields(ts: nat, r1: nat, r2: nat)
    requires r1 < 0x1_0000_0000 && r2 < 0x1_0000_0000
    ensures var u := GeneratedId(ts, r1, r2);
      && Number(u[8], u[9], u[10], u[11]) == r1
      && Number(u[12], u[13], u[14], u[15]) == r2
  {
    var u := GeneratedId(ts, r1, r2);
    assert (u[8], u[9], u[10], u[11]) == Digits4(r1) && (u[12], u[13], u[14], u[15]) == Digits4(r2);
    Digits4Value(r1);
    Digits4Value(r2);
  }

  /** Two generated identifiers are equal exactly when both random numbers are and the uptimes agree modulo
      2^48 milliseconds. */
  lemma SameGeneratedId(ts: nat, r1: nat, r2: nat, ts': nat, r1': nat, r2': nat)
    requires r1 < 0x1_0000_0000 && r2 < 0x1_0000_0000 && r1' < 0x1_0000_0000 && r2' < 0x1_0000_0000
    ensures GeneratedId(ts, r1, r2) == GeneratedId(ts', r1', r2')
       <==> ts % 0x1_0000_0000_0000 == ts' % 0x1_0000_0000_0000 && r1 == r1' && r2 == r2'
  {
    var u, v := GeneratedId(ts, r1, r2), GeneratedId(ts', r1', r2');
    Digits4Value(r1);
    Digits4Value(r1');
    Digits4Value(r2);
    Digits4Value(r2');
    TimestampBytes(ts);
    TimestampBytes(ts');
    if u == v {
      assert u[0] == v[0] && u[1] == v[1] && u[2] == v[2] && u[3] == v[3] && u[4] == v[4] && u[5] == v[5];
      assert u[8] == v[8] && u[9] == v[9] && u[10] == v[10] && u[11] == v[11];
      assert u[12] == v[12] && u[13] == v[13] && u[14] == v[14] && u[15] == v[15];
    }
    if ts % 0x1_0000_0000_0000 == ts' % 0x1_0000_0000_0000 {
      TimestampDigits(ts);
      TimestampDigits(ts');
    }
  }

  /** The number in the first six bytes. */
  function Stamp(u: Uuid): int {
    u[0] as int * 0x100_0000_0000 + u[1] as int * 0x1_0000_0000 + u[2] as int * 0x100_0000
    + u[3] as int * 0x1_0000 + u[4] as int * 0x100 + u[5] as int
  }

  lemma StampUnique(u: Uuid, v: Uuid)
    requires Stamp(u) == Stamp(v)
    ensures u[0] == v[0] && u[1] == v[1] && u[2] == v[2] && u[3] == v[3] && u[4] == v[4] && u[5] == v[5]
  {
  }

  /** The six timestamp bytes give the uptime modulo 2^48. */
  lemma TimestampBytes(ts: nat)
    ensures Stamp(GeneratedId(ts, 0, 0)) == ts % 0x1_0000_0000_0000
  {
    var t1 := ts / 0x100;
    var t2 := t1 / 0x100;
    var t3 := t2 / 0x100;
    var t4 := t3 / 0x100;
    var t5 := t4 / 0x100;
    Shifts(ts);
    assert ts == t5 / 0x100 * 0x1_0000_0000_0000 + t5 % 0x100 * 0x100_0000_0000 + t4 % 0x100 * 0x1_0000_0000
              + t3 % 0x100 * 0x100_0000 + t2 % 0x100 * 0x1_0000 + t1 % 0x100 * 0x100 + ts % 0x100;
    Remainder(ts, t5 / 0x100, ts - t5 / 0x100 * 0x1_0000_0000_0000);
  }

  lemma Shifts(ts: nat)
    ensures ts / 0x1_0000 == ts / 0x100 / 0x100
    ensures ts / 0x100_0000 == ts / 0x100 / 0x100 / 0x100
    ensures ts / 0x1_0000_0000 == ts / 0x100 / 0x100 / 0x100 / 0x100
    ensures ts / 0x100_0000_0000 == ts / 0x100 / 0x100 / 0x100 / 0x100 / 0x100
  {
  }

  lemma Remainder(n: nat, q: nat, r: nat)
    requires n == q * 0x1_0000_0000_0000 + r && r < 0x1_0000_0000_0000
    ensures n % 0x1_0000_0000_0000 == r
  {
  }

  /** The bytes made of the uptime depend on it modulo 2^48 only. */
  lemma TimestampDigits(ts: nat)
    ensures GeneratedId(ts, 0, 0) == GeneratedId(ts % 0x1_0000_0000_0000, 0, 0)
  {
    var q, t := ts / 0x1_0000_0000_0000, ts % 0x1_0000_0000_0000;
    TimestampBytes(ts);
    TimestampBytes(t);
    Remainder(t, 0, t);
    StampUnique(GeneratedId(ts, 0, 0), GeneratedId(t, 0, 0));
    Nibbles(ts, q, t);
    SameBytes(ts, t);
  }

  lemma SameBytes(n: nat, r: nat)
    requires var u, v := GeneratedId(n, 0, 0), GeneratedId(r, 0, 0);
      u[0] == v[0] && u[1] == v[1] && u[2] == v[2] && u[3] == v[3] && u[4] == v[4] && u[5] == v[5]
    requires n / 0x10 % 0x100 == r / 0x10 % 0x100 && n / 0x1000 % 0x10 == r / 0x1000 % 0x10
    ensures GeneratedId(n, 0, 0) == GeneratedId(r, 0, 0)
  {
  }

  lemma Nibbles(n: nat, q: nat, r: nat)
    requires n == q * 0x1_0000_0000_0000 + r
    ensures n / 0x10 % 0x100 == r / 0x10 % 0x100 && n / 0x1000 % 0x10 == r / 0x1000 % 0x10
  {
    Shift4(n, q, r);
    Shift12(n, q, r);
    Mod256(n / 0x10, q * 0x10_0000_0000, r / 0x10);
    Mod16(n / 0x1000, q * 0x1_0000_0000, r / 0x1000);
  }

  lemma Shift4(n: nat, q: nat, r: nat)
    requires n == q * 0x1_0000_0000_0000 + r
    ensures n / 0x10 == q * 0x1000_0000_0000 + r / 0x10
  {
  }

  lemma Shift12(n: nat, q: nat, r: nat)
    requires n == q * 0x1_0000_0000_0000 + r
    ensures n / 0x1000 == q * 0x10_0000_0000 + r / 0x1000
  {
  }

  lemma Mod256(n: nat, q: nat, r: nat)
    requires n == q * 0x100 + r
    ensures n % 0x100 == r % 0x100
  {
  }

  lemma Mod16(n: nat, q: nat, r: nat)
    requires n == q * 0x10 + r
    ensures n % 0x10 == r % 0x10
  {
  }

  // ----- uuid_to_str

  /** A digit of `%x`. */
  function HexDigit(n: nat): char
    requires n < 16
  {
    "0123456789abcdef"[n]
  }

  function DigitValue(c: char): nat {
    if '0' <= c <= '9' then c as int - '0' as int
    else if 'a' <= c <= 'f' then c as int - 'a' as int + 10
    else if 'A' <= c <= 'F' then c as int - 'A' as int + 10
    else 0
  }

  lemma DigitRoundTrip(n: nat)
    requires n < 16
    ensures DigitValue(HexDigit(n)) == n && IsHex(HexDigit(n)) && HexDigit(n) != '-'
    ensures HexDigit(n) == '6' <==> n == 6
  {
  }

  /** Bytes in `%02x`. */
  function Hex(b: seq<byte>): string {
    if b == [] then "" else [HexDigit(b[0] / 16), HexDigit(b[0] % 16)] + Hex(b[1..])
  }

  predicate DashAt(i: int) {
    i == 8 || i == 13 || i == 18 || i == 23
  }

  /** The position in the text of the first digit of byte k. */
  function Position(k: nat): nat {
    2 * k + (if k < 4 then 0 else if k < 6 then 1 else if k < 8 then 2 else if k < 10 then 3 else 4)
  }

  lemma {:induction false} HexAt(b: seq<byte>, k: nat)
    requires k < |b|
    ensures |Hex(b)| == 2 * |b|
    ensures Hex(b)[2 * k] == HexDigit(b[k] / 16) && Hex(b)[2 * k + 1] == HexDigit(b[k] % 16)
  {
    HexLength(b);
    if k > 0 {
      HexAt(b[1..], k - 1);
    }
  }

  lemma {:induction false} HexLength(b: seq<byte>)
    ensures |Hex(b)| == 2 * |b|
  {
    if b != [] {
      HexLength(b[1..]);
    }
  }

  /** The byte whose digit is at position i. */
  function Covering(i: nat): (k: nat)
    requires i < 36 && !DashAt(i)
    ensures k < 16 && (i == Position(k) || i == Position(k) + 1)
  {
    if i < 8 then i / 2 else if i < 13 then (i - 1) / 2 else if i < 18 then (i - 2) / 2
    else if i < 23 then (i - 3) / 2 else (i - 4) / 2
  }

  lemma CoveringOf(k: nat)
    requires k < 16
    ensures Position(k) + 1 < 36 && !DashAt(Position(k)) && !DashAt(Position(k) + 1)
    ensures Covering(Position(k)) == k == Covering(Position(k) + 1)
  {
  }

  function CharAt(u: Uuid, i: nat): char
    requires i < 36
  {
    if DashAt(i) then '-'
    else
      var k := Covering(i);
      if i == Position(k) then HexDigit(u[k] / 16) else HexDigit(u[k] % 16)
  }

  /** The text form. */
  function Text(u: Uuid): (t: string)
    ensures |t| == UUID_STR_LEN - 1
  {
    seq(UUID_STR_LEN - 1, i requires 0 <= i < UUID_STR_LEN - 1 => CharAt(u, i))
  }

  /** The text is what the format string says: the bytes in `%02x`, in groups of 4, 2, 2, 2 and 6, with a
      dash between the groups. */
  lemma TextGroups(u: Uuid)
    ensures Text(u)[..8] == Hex(u[..4]) && Text(u)[9..13] == Hex(u[4..6]) && Text(u)[14..18] == Hex(u[6..8])
    ensures Text(u)[19..23] == Hex(u[8..10]) && Text(u)[24..] == Hex(u[10..])
    ensures Text(u)[8] == Text(u)[13] == Text(u)[18] == Text(u)[23] == '-'
  {
    hide Hex, HexDigit;
    Group(u, 0, 4);
    Group(u, 4, 6);
    Group(u, 6, 8);
    Group(u, 8, 10);
    Group(u, 10, 16);
    assert Text(u)[24..] == Text(u)[24..36];
    assert u[10..] == u[10..16] && u[..4] == u[0..4];
  }

  lemma Group(u: Uuid, a: nat, b: nat)
    requires a < b <= 16 && forall k :: a <= k < b ==> Position(k) == Position(a) + 2 * (k - a)
    ensures Position(a) + 2 * (b - a) <= 36
    ensures Text(u)[Position(a)..Position(a) + 2 * (b - a)] == Hex(u[a..b])
  {
    hide Text, CharAt, HexDigit, Hex;
    assert Position(b - 1) == Position(a) + 2 * (b - 1 - a);
    CoveringOf(b - 1);
    HexLength(u[a..b]);
    var at, text, hex := Position(a), Text(u), Hex(u[a..b]);
    forall i | 0 <= i < 2 * (b - a) ensures text[at + i] == hex[i] {
      var n := i / 2;
      assert i == 2 * n || i == 2 * n + 1;
      assert Position(a + n) == at + 2 * n && u[a..b][n] == u[a + n];
      ByteText(u, a + n);
      HexAt(u[a..b], n);
    }
    assert |text[at..at + 2 * (b - a)]| == |hex|;
  }

  /** The digits of byte k. */
  lemma ByteText(u: Uuid, k: nat)
    requires k < 16
    ensures Position(k) + 1 < 36
    ensures Text(u)[Position(k)] == HexDigit(u[k] / 16) && Text(u)[Position(k) + 1] == HexDigit(u[k] % 16)
  {
    hide HexDigit;
    CoveringOf(k);
  }

  /** The identifier a text stands for. */
  function Parsed(s: string): Uuid
    requires |s| == UUID_STR_LEN - 1
  {
    assert forall k: nat :: k < 16 ==> Position(k) + 1 < 36;
    seq(16, k requires 0 <= k < 16 =>
      (DigitValue(s[Position(k)]) * 16 + DigitValue(s[Position(k) + 1])) % 256)
  }

  /** The text form loses nothing: reading it back gives the identifier. */
  lemma TextRoundTrip(u: Uuid)
    ensures Parsed(Text(u)) == u
  {
    hide Text, CharAt, HexDigit, DigitValue, IsHex;
    forall k: nat | k < 16 ensures Parsed(Text(u))[k] == u[k] {
      ByteText(u, k);
      DigitRoundTrip(u[k] / 16);
      DigitRoundTrip(u[k] % 16);
    }
  }

  lemma TextInjective(u: Uuid, v: Uuid)
    requires Text(u) == Text(v)
    ensures u == v
  {
    TextRoundTrip(u);
    TextRoundTrip(v);
  }

  // ----- is_valid_uuid_v6

  predicate IsHex(c: char) {
    '0' <= c <= '9' || 'a' <= c <= 'f' || 'A' <= c <= 'F'
  }

  /** t is s with some of its letters a to f in capitals. */
  predicate WithCapitals(s: string, t: string) {
    |t| == |s| && forall i :: 0 <= i < |s| ==> t[i] == s[i] || ('a' <= s[i] <= 'f' && t[i] == 'A' + (s[i] - 'a'))
  }

  /** Capitals are accepted like small letters. */
  lemma CapitalsAccepted(s: string, t: string)
    requires WithCapitals(s, t) && ValidV6(s)
    ensures ValidV6(t)
  {
    forall i | 0 <= i < |s| ensures if DashAt(i) then t[i] == '-' else IsHex(t[i]) {
    }
  }

  /** A version-6 identifier in the text form of RFC 9562. */
  predicate ValidV6(s: string) {
    && |s| == UUID_STR_LEN - 1
    && (forall i :: 0 <= i < |s| ==> if DashAt(i) then s[i] == '-' else IsHex(s[i]))
    && s[14] == '6'
  }

  method IsValidUuidV6(uuid: string) returns (valid: bool)
    ensures valid <==> ValidV6(uuid)
  {
    if |uuid| != UUID_STR_LEN - 1 {
      return false;
    }
    for i := 0 to UUID_STR_LEN - 1
      invariant forall k :: 0 <= k < i ==> if DashAt(k) then uuid[k] == '-' else IsHex(uuid[k])
    {
      if i == 8 || i == 13 || i == 18 || i == 23 {
        if uuid[i] != '-' {
          return false;
        }
      } else {
        if !IsHex(uuid[i]) {
          return false;
        }
      }
    }
    if uuid[14] != '6' {
      return false;
    }
    return true;
  }

  /** The text of an identifier is accepted exactly when the high half of its byte 6 is 6. */
  lemma TextValidIff(u: Uuid)
    ensures ValidV6(Text(u)) <==> Version6(u)
  {
    CoveringOf(6);
    DigitRoundTrip(u[6] / 16);
    forall i | 0 <= i < 36 && !DashAt(i) ensures IsHex(Text(u)[i]) {
      var k := Covering(i);
      DigitRoundTrip(u[k] / 16);
      DigitRoundTrip(u[k] % 16);
    }
  }

  /** Every accepted text in lower case is the text of an identifier. */
  lemma ValidLowercaseIsText(s: string)
    requires ValidV6(s) && forall i :: 0 <= i < |s| ==> !('A' <= s[i] <= 'F')
    ensures Text(Parsed(s)) == s
  {
    forall i | 0 <= i < 36 ensures Text(Parsed(s))[i] == s[i] {
      if !DashAt(i) {
        DigitAt(s, Covering(i));
      }
    }
  }

  lemma DigitAt(s: string, k: nat)
    requires ValidV6(s) && k < 16 && forall i :: 0 <= i < |s| ==> !('A' <= s[i] <= 'F')
    ensures Position(k) + 1 < 36
    ensures HexDigit(Parsed(s)[k] / 16) == s[Position(k)] && HexDigit(Parsed(s)[k] % 16) == s[Position(k) + 1]
  {
    hide HexDigit, DigitValue, IsHex;
    CoveringOf(k);
    ValueRoundTrip(s[Position(k)]);
    ValueRoundTrip(s[Position(k) + 1]);
    HighLow(DigitValue(s[Position(k)]), DigitValue(s[Position(k) + 1]));
  }

  lemma ValueRoundTrip(c: char)
    requires IsHex(c) && !('A' <= c <= 'F')
    ensures DigitValue(c) < 16 && HexDigit(DigitValue(c)) == c
  {
  }

  lemma HighLow(h: nat, l: nat)
    requires h < 16 && l < 16
    ensures (h * 16 + l) % 256 == h * 16 + l && (h * 16 + l) / 16 == h && (h * 16 + l) % 16 == l
  {
  }

  /** Sixteen bytes written one by one. */
  lemma Assembled(u: Uuid, ts: nat, r1: nat, r2: nat)
    requires (u[0], u[1], u[2], u[3]) == Stamp4(ts) && (u[4], u[5], u[6], u[7]) == Low4(ts)
    requires (u[8], u[9], u[10], u[11]) == Digits4(r1) && (u[12], u[13], u[14], u[15]) == Digits4(r2)
    ensures u == GeneratedId(ts, r1, r2)
  {
    assert u == [u[0], u[1], u[2], u[3], u[4], u[5], u[6], u[7],
                 u[8], u[9], u[10], u[11], u[12], u[13], u[14], u[15]];
  }

  /** The first four bytes made of the uptime. */
  function Stamp4(ts: nat): (byte, byte, byte, byte) {
    (ts / 0x100_0000_0000 % 256, ts / 0x1_0000_0000 % 256, ts / 0x100_0000 % 256, ts / 0x1_0000 % 256)
  }

  /** The four bytes after them. */
  function Low4(ts: nat): (byte, byte, byte, byte) {
    (ts / 0x100 % 256, ts % 256, ts / 0x1000 % 16 + 0x60, ts / 0x10 % 256)
  }

  // ----- the node and its backup memory

  /** What a boot meets: whether the backup memory's device is ready, the uptime and two random numbers. */
  datatype Start = Start(ready: bool, uptime: nat, random1: nat, random2: nat)

  /** The identity a boot ends up with, given what the backup memory holds. */
  function Identity(backup: Uuid, s: Start): Uuid {
    if s.ready && Version6(backup) then backup else GeneratedId(s.uptime, s.random1, s.random2)
  }

  class Node {
    const uuid: array<byte>
    var uuidStr: string
    const backupValue: array<byte>   // kept across reboots

    ghost predicate Valid()
      reads this, uuid, backupValue
    {
      uuid != backupValue && uuid.Length == 16 == backupValue.Length
    }

    constructor (backup: Uuid)
      ensures Valid() && backupValue[..] == backup && fresh(uuid) && fresh(backupValue)
    {
      uuid := new byte[16](_ => 0);
      backupValue := new byte[16](i requires 0 <= i < 16 => backup[i]);
      uuidStr := "";
      new;
      assert backupValue[..] == backup;
    }

    method GenerateId(uptime: nat, random1: nat, random2: nat)
      requires Valid()
      modifies uuid
      ensures uuid[..] == GeneratedId(uptime, random1, random2)
    {
      var bytes := new byte[16];
      bytes[0] := uptime / 0x100_0000_0000 % 256;
      bytes[1] := uptime / 0x1_0000_0000 % 256;
      bytes[2] := uptime / 0x100_0000 % 256;
      bytes[3] := uptime / 0x1_0000 % 256;
      bytes[4] := uptime / 0x100 % 256;
      bytes[5] := uptime % 256;
      bytes[6] := uptime / 0x1000 % 16 + 0x60;
      bytes[7] := uptime / 0x10 % 256;
      WriteBytes(bytes, 8, random1);
      WriteBytes(bytes, 12, random2);
      Assembled(bytes[..], uptime, random1, random2);
      Copy(uuid, bytes[..]);
    }

    /** The four bytes of a 32-bit number, the most significant first. */
    static method WriteBytes(bytes: array<byte>, at: nat, n: nat)
      requires at + 4 <= bytes.Length
      modifies bytes
      ensures forall i :: 0 <= i < bytes.Length && !(at <= i < at + 4) ==> bytes[i] == old(bytes[i])
      ensures (bytes[at], bytes[at + 1], bytes[at + 2], bytes[at + 3]) == Digits4(n)
    {
      bytes[at] := n / 0x100_0000 % 256;
      bytes[at + 1] := n / 0x1_0000 % 256;
      bytes[at + 2] := n / 0x100 % 256;
      bytes[at + 3] := n % 256;
    }

    /** memcpy of 16 bytes. */
    static method Copy(dest: array<byte>, src: Uuid)
      requires dest.Length == 16
      modifies dest
      ensures dest[..] == src
    {
      for i := 0 to 16
        invariant dest[..i] == src[..i]
      {
        dest[i] := src[i];
      }
    }

    method SramStore(ready: bool) returns (ret: int)
      requires Valid()
      modifies backupValue
      ensures backupValue[..] == if ready then uuid[..] else old(backupValue[..])
      ensures ret == if ready then 0 else -1
    {
      if !ready {
        return -1;
      }
      Copy(backupValue, uuid[..]);
      return 0;
    }

    /** The memory is copied into the node even if it holds no valid identifier. */
    method SramLoad(ready: bool) returns (ret: int)
      requires Valid()
      modifies this`uuidStr, uuid
      ensures ret == if ready && Version6(backupValue[..]) then 0 else -1
      ensures uuid[..] == if ready then backupValue[..] else old(uuid[..])
    {
      if !ready {
        return -1;
      }
      Copy(uuid, backupValue[..]);
      uuidStr := Text(uuid[..]);
      TextValidIff(uuid[..]);
      var valid := IsValidUuidV6(uuidStr);
      if !valid {
        return -1;
      }
      return 0;
    }

    /** The identity branch of main. */
    method Boot(s: Start)
      requires Valid()
      modifies this`uuidStr, uuid, backupValue
      ensures uuid[..] == Identity(old(backupValue[..]), s) && uuidStr == Text(uuid[..])
      ensures backupValue[..] == if s.ready then uuid[..] else old(backupValue[..])
    {
      var ret := SramLoad(s.ready);
      if ret != 0 {
        GenerateId(s.uptime, s.random1, s.random2);
        uuidStr := Text(uuid[..]);
        var stored := SramStore(s.ready);
      } else {
        uuidStr := Text(uuid[..]);
      }
    }
  }

  // ----- identity over reboots

  /** The identities of successive boots, starting from what the backup memory holds. */
  function Identities(backup: Uuid, boots: seq<Start>): (ids: seq<Uuid>)
    ensures |ids| == |boots|
    decreases |boots|
  {
    if boots == [] then []
    else
      var id := Identity(backup, boots[0]);
      [id] + Identities(if boots[0].ready then id else backup, boots[1..])
  }

  /** Stable identity: from whatever the backup memory holds, and whatever the clocks and random numbers are,
      all boots that find the device ready have the same identity and the same text. */
  lemma {:induction false} StableIdentity(backup: Uuid, boots: seq<Start>, i: nat, j: nat)
    requires i < j < |boots| && boots[i].ready && boots[j].ready
    ensures var ids := Identities(backup, boots);
      ids[i] == ids[j] && Text(ids[i]) == Text(ids[j]) && ValidV6(Text(ids[i]))
    decreases |boots|
  {
    var id := Identity(backup, boots[0]);
    GeneratedIsVersion6(boots[0].uptime, boots[0].random1, boots[0].random2);
    if i == 0 {
      TextValidIff(id);
      Settled(id, boots[1..], j - 1);
    } else {
      StableIdentity(if boots[0].ready then id else backup, boots[1..], i - 1, j - 1);
    }
  }

  /** Which identity a boot ends with: the one in the memory if the device is ready and it is of version 6, and
      otherwise a fresh one made of this boot's uptime and random numbers, in this order. */
  lemma IdentityIs(backup: Uuid, s: Start)
    requires s.random1 < 0x1_0000_0000 && s.random2 < 0x1_0000_0000
    ensures var u := Identity(backup, s);
      if s.ready && Version6(backup) then u == backup else HasFields(u, s.uptime, s.random1, s.random2)
  {
    hide HasFields, GeneratedId;
    GeneratedFields(s.uptime, s.random1, s.random2);
  }

  /** Once the memory holds a version-6 identifier, every boot that can read it takes that one. */
  lemma {:induction false} Settled(backup: Uuid, boots: seq<Start>, j: nat)
    requires Version6(backup) && j < |boots| && boots[j].ready
    ensures Identities(backup, boots)[j] == backup
  {
    if j > 0 {
      Settled(backup, boots[1..], j - 1);
    }
  }
}
