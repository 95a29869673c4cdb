/**
 Base64urlUInt (section 2 of RFC 7518): how the key sets of the ticket-agent and the
 mcp-server write the modulus and the exponent of an RSA key.
 */
module Base64Url {
  import opened Wrappers

  type Byte = x: int | 0 <= x < 256
  type Sextet = x: int | 0 <= x < 64

  // ----- integers and octets -----

  function BitLength(n: nat): nat {
    if n == 0 then 0 else 1 + BitLength(n / 2)
  }

  function Power(base: nat, k: nat): (p: nat)
    ensures base > 0 ==> p > 0
  {
    if k == 0 then 1 else base * Power(base, k - 1)
  }

  /** The last `length` octets of a number, most significant first. */
  function Octets(n: nat, length: nat): (b: seq<Byte>)
    ensures |b| == length
  {
    if length == 0 then [] else Octets(n / 256, length - 1) + [n % 256]
  }

  /** int.to_bytes(length, "big"), which raises OverflowError when the number does not fit. */
  function ToBytes(n: nat, length: nat): Option<seq<Byte>> {
    if n < Power(256, length) then Some(Octets(n, length)) else None
  }

  /** int.from_bytes(b, "big"). */
  function FromBytes(b: seq<Byte>): nat {
    if b == [] then 0 else 256 * FromBytes(b[..|b| - 1]) + b[|b| - 1]
  }

  // ----- base64url (section 5 of RFC 4648) -----

  function Letter(v: Sextet): (c: char)
    ensures Value(c) == Some(v) && c != '='
  {
    if v < 26 then 'A' + v as char
    else if v < 52 then 'a' + (v - 26) as char
    else if v < 62 then '0' + (v - 52) as char
    else if v == 62 then '-' else '_'
  }

  function Value(c: char): (v: Option<int>)
    ensures v.Some? ==> 0 <= v.value < 64 && c != '='
  {
    if 'A' <= c <= 'Z' then Some((c - 'A') as int)
    else if 'a' <= c <= 'z' then Some((c - 'a') as int + 26)
    else if '0' <= c <= '9' then Some((c - '0') as int + 52)
    else if c == '-' then Some(62)
    else if c == '_' then Some(63)
    else None
  }

  /** base64.urlsafe_b64encode. */
  function Encode(b: seq<Byte>): string {
    match |b|
    case 0 => ""
    case 1 => [Letter(b[0] / 4), Letter(b[0] % 4 * 16), '=', '=']
    case 2 => [Letter(b[0] / 4), Letter(b[0] % 4 * 16 + b[1] / 16), Letter(b[1] % 16 * 4), '=']
    case _ =>
      [Letter(b[0] / 4), Letter(b[0] % 4 * 16 + b[1] / 16), Letter(b[1] % 16 * 4 + b[2] / 64), Letter(b[2] % 64)]
      + Encode(b[3..])
  }

  /** Four characters of which the last `pads` are padding; bits that are left over must be zero. */
  function Quantum(q: string): Option<seq<Byte>>
    requires |q| == 4
  {
    match (Value(q[0]), Value(q[1]), Value(q[2]), Value(q[3]))
    case (Some(u), Some(v), Some(w), Some(x)) => Some([u * 4 + v / 16, v % 16 * 16 + w / 4, w % 4 * 64 + x])
    case (Some(u), Some(v), Some(w), None) =>
      if q[3] == '=' && w % 4 == 0 then Some([u * 4 + v / 16, v % 16 * 16 + w / 4]) else None
    case (Some(u), Some(v), None, None) =>
      if q[2] == '=' && q[3] == '=' && v % 16 == 0 then Some([u * 4 + v / 16]) else None
    case _ => None
  }

  /** A strict decoder (section 3.5 of RFC 4648): padding only in the last quantum. */
  function Decode(s: string): Option<seq<Byte>> {
    if s == "" then Some([])
    else if |s| < 4 then None
    else
      match (Quantum(s[..4]), Decode(s[4..]))
      case (Some(b), Some(rest)) => if |b| == 3 || rest == [] then Some(b + rest) else None
      case _ => None
  }

  /** bytes.rstrip(b"="). */
  function Stripped(s: string): string {
    if s != "" && s[|s| - 1] == '=' then Stripped(s[..|s| - 1]) else s
  }

  /** The padding that the length of an unpadded string calls for. */
  function Padded(s: string): string {
    match |s| % 4
    case 2 => s + "=="
    case 3 => s + "="
    case _ => s
  }

  // ----- the operation and its inverse -----

  /** _b64url_int. */
  function FromInt(n: nat): Option<string> {
    match ToBytes(n, (BitLength(n) + 7) / 8)
    case Some(b) => Some(Stripped(Encode(b)))
    case None => None
  }

  /** What section 2 of RFC 7518 has a reader do. */
  function ToInt(s: string): Option<nat> {
    match Decode(Padded(s))
    case Some(b) => Some(FromBytes(b))
    case None => None
  }

  // ----- octets -----

  lemma {:induction false} PowerSplits(k: nat)
    ensures Power(256, k) == Power(2, 8 * k)
  {
    if k > 0 {
      PowerSplits(k - 1);
      assert Power(2, 8 * k) == 2 * Power(2, 8 * k - 1) == 4 * Power(2, 8 * k - 2) == 8 * Power(2, 8 * k - 3)
          == 16 * Power(2, 8 * k - 4) == 32 * Power(2, 8 * k - 5) == 64 * Power(2, 8 * k - 6)
          == 128 * Power(2, 8 * k - 7) == 256 * Power(2, 8 * (k - 1));
    }
  }

  /** The bit length is the number of bits needed. */
  lemma {:induction false} BitLengthIsLeast(n: nat, k: nat)
    ensures n < Power(2, k) <==> k >= BitLength(n)
  {
    if n > 0 && k > 0 {
      BitLengthIsLeast(n / 2, k - 1);
    }
  }

  /** The octet length never overflows and is the smallest that does not. */
  lemma LengthIsMinimal(n: nat, length: nat)
    ensures ToBytes(n, length).Some? <==> length >= (BitLength(n) + 7) / 8
  {
    hide Power, BitLength;
    PowerSplits(length);
    BitLengthIsLeast(n, 8 * length);
  }

  lemma {:induction false} OctetsRoundTrip(n: nat, length: nat)
    requires n < Power(256, length)
    ensures FromBytes(Octets(n, length)) == n
  {
    if length > 0 {
      OctetsRoundTrip(n / 256, length - 1);
      var b := Octets(n, length);
      assert b[..length - 1] == Octets(n / 256, length - 1);
    }
  }

  lemma {:induction false} OctetsInTurn(b: seq<Byte>)
    ensures FromBytes(b) < Power(256, |b|)
    ensures Octets(FromBytes(b), |b|) == b
  {
    if b != [] {
      OctetsInTurn(b[..|b| - 1]);
      var n := FromBytes(b);
      assert n / 256 == FromBytes(b[..|b| - 1]) && n % 256 == b[|b| - 1];
      assert b == b[..|b| - 1] + [b[|b| - 1]];
    }
  }

  // ----- characters -----

  // ----- the code is the standard's -----

  /** Table 2 of RFC 4648: the capitals, the small letters, the digits, the hyphen and the underscore. */
  lemma LetterIsInTable(v: Sextet)
    ensures Letter(0) == 'A' && Letter(25) == 'Z' && Letter(26) == 'a' && Letter(51) == 'z'
    ensures Letter(52) == '0' && Letter(61) == '9' && Letter(62) == '-' && Letter(63) == '_'
    ensures v !in {25, 51, 61, 62, 63} ==> Letter(v + 1) as int == Letter(v) as int + 1
  {
  }

  /** The number that some characters of the table stand for in base 64. */
  function Digits(s: string): nat {
    if s == "" then 0
    else 64 * Digits(s[..|s| - 1]) + match Value(s[|s| - 1]) case Some(v) => v case None => 0
  }

  lemma {:induction false} DigitsConcat(a: string, b: string)
    ensures Digits(a + b) == Digits(a) * Power(64, |b|) + Digits(b)
  {
    if b == "" {
      assert a + b == a;
    } else {
      var n := |b| - 1;
      DigitsConcat(a, b[..n]);
      assert (a + b)[..|a + b| - 1] == a + b[..n];
      Regroup(Digits(a), Power(64, n), 64);
    }
  }

  lemma {:induction false} FromBytesConcat(a: seq<Byte>, b: seq<Byte>)
    ensures FromBytes(a + b) == FromBytes(a) * Power(256, |b|) + FromBytes(b)
  {
    if b == [] {
      assert a + b == a;
    } else {
      var n := |b| - 1;
      FromBytesConcat(a, b[..n]);
      assert (a + b)[..|a + b| - 1] == a + b[..n];
      Regroup(FromBytes(a), Power(256, n), 256);
    }
  }

  lemma Regroup(x: nat, y: nat, z: nat)
    ensures z * (x * y) == x * (z * y)
  {
  }

  lemma {:induction false} SamePower(k: nat)
    ensures Power(256, 3 * k) == Power(64, 4 * k)
  {
    if k > 0 {
      SamePower(k - 1);
      assert Power(256, 3 * k) == 256 * Power(256, 3 * k - 1) == 65536 * Power(256, 3 * k - 2)
             == 16777216 * Power(256, 3 * (k - 1));
      assert Power(64, 4 * k) == 64 * Power(64, 4 * k - 1) == 4096 * Power(64, 4 * k - 2)
             == 262144 * Power(64, 4 * k - 3) == 16777216 * Power(64, 4 * (k - 1));
    }
  }

  lemma DigitsAppend(s: string, v: Sextet)
    ensures Digits(s + [Letter(v)]) == 64 * Digits(s) + v
  {
    hide Letter, Value;
    assert (s + [Letter(v)])[..|s|] == s;
  }

  lemma DigitsOf(u: Sextet, v: Sextet, w: Sextet, x: Sextet)
    ensures Digits([Letter(u), Letter(v), Letter(w), Letter(x)]) == ((u * 64 + v) * 64 + w) * 64 + x
  {
    hide Letter, Value;
    DigitsAppend("", u);
    DigitsAppend([Letter(u)], v);
    DigitsAppend([Letter(u), Letter(v)], w);
    DigitsAppend([Letter(u), Letter(v), Letter(w)], x);
    assert Digits("") == 0 && "" + [Letter(u)] == [Letter(u)];
    assert [Letter(u)] + [Letter(v)] == [Letter(u), Letter(v)];
    assert [Letter(u), Letter(v)] + [Letter(w)] == [Letter(u), Letter(v), Letter(w)];
    assert [Letter(u), Letter(v), Letter(w)] + [Letter(x)] == [Letter(u), Letter(v), Letter(w), Letter(x)];
  }

  lemma GroupArithmetic(x: nat, y: nat, z: nat)
    ensures ((x / 4 * 64 + (x % 4 * 16 + y / 16)) * 64 + (y % 16 * 4 + z / 64)) * 64 + z % 64 == (x * 256 + y) * 256 + z
  {
    var a, b, c, d, e, f := x / 4, x % 4, y / 16, y % 16, z / 64, z % 64;
    assert x == a * 4 + b && y == c * 16 + d && z == e * 64 + f;
    assert ((a * 64 + (b * 16 + c)) * 64 + (d * 4 + e)) * 64 + f
           == ((a * 4 + b) * 256 + (c * 16 + d)) * 256 + (e * 64 + f);
  }

  lemma BytesAppend(b: seq<Byte>, x: Byte)
    ensures FromBytes(b + [x]) == 256 * FromBytes(b) + x
  {
    assert (b + [x])[..|b|] == b;
  }

  lemma ThreeBytes(x: Byte, y: Byte, z: Byte)
    ensures FromBytes([x, y, z]) == (x as nat * 256 + y) * 256 + z
  {
    BytesAppend([], x);
    BytesAppend([x], y);
    BytesAppend([x, y], z);
    assert [] + [x] == [x] && [x] + [y] == [x, y] && [x, y] + [z] == [x, y, z];
  }

  lemma GroupValue(b: seq<Byte>)
    requires |b| == 3
    ensures |Encode(b)| == 4 && Digits(Encode(b)) == FromBytes(b)
  {
    hide Letter, Value;
    assert b[3..] == [] && Encode([]) == "";
    DigitsOf(b[0] / 4, b[0] % 4 * 16 + b[1] / 16, b[1] % 16 * 4 + b[2] / 64, b[2] % 64);
    assert Encode(b) == [Letter(b[0] / 4), Letter(b[0] % 4 * 16 + b[1] / 16),
                         Letter(b[1] % 16 * 4 + b[2] / 64), Letter(b[2] % 64)];
    ThreeBytes(b[0], b[1], b[2]);
    assert b == [b[0], b[1], b[2]];
    GroupArithmetic(b[0], b[1], b[2]);
  }

  lemma {:induction false} EncodeSplits(b: seq<Byte>)
    requires |b| >= 3
    ensures Encode(b) == Encode(b[..3]) + Encode(b[3..])
  {
    hide Letter, Value;
    assert b[..3][3..] == [];
  }

  /** In whole groups the text is the octets' number, written in base 64 with the table's letters. */
  lemma {:induction false} WholeGroupsValue(b: seq<Byte>)
    requires |b| % 3 == 0
    ensures 3 * |Encode(b)| == 4 * |b| && Digits(Encode(b)) == FromBytes(b)
  {
    if b != [] {
      hide Encode, Digits, FromBytes, Power, Value, Letter;
      var first, rest := b[..3], b[3..];
      WholeGroupsValue(rest);
      GroupValue(first);
      EncodeSplits(b);
      assert b == first + rest;
      FromBytesConcat(first, rest);
      DigitsConcat(Encode(first), Encode(rest));
      SamePower(|rest| / 3);
      assert 3 * (|rest| / 3) == |rest| && 4 * (|rest| / 3) == |Encode(rest)|;
    }
  }

  /** One or two octets that are left over are read as if zero bits followed them (section 4 of RFC 4648). */
  lemma ShortGroups(x: Byte, y: Byte)
    ensures Encode([x]) == Encode([x, 0, 0])[..2] + "=="
    ensures Encode([x, y]) == Encode([x, y, 0])[..3] + "="
  {
    hide Letter, Value;
    assert [x, 0, 0][3..] == [] && [x, y, 0][3..] == [];
  }

  function Pads(b: seq<Byte>): nat {
    if |b| % 3 == 0 then 0 else 3 - |b| % 3
  }

  predicate Plain(s: string) {
    forall k | 0 <= k < |s| :: s[k] != '='
  }

  function Padding(k: nat): (s: string)
    ensures |s| == k
  {
    seq(k, _ => '=')
  }

  lemma EncodeGroup(b: seq<Byte>) returns (group: string)
    requires |b| >= 3
    ensures |group| == 4 && Plain(group) && Encode(b) == group + Encode(b[3..])
  {
    hide Letter, Value;
    group := [Letter(b[0] / 4), Letter(b[0] % 4 * 16 + b[1] / 16),
              Letter(b[1] % 16 * 4 + b[2] / 64), Letter(b[2] % 64)];
  }

  /** An encoding is plain text and then its padding, and its length is a multiple of four. */
  lemma {:induction false} EncodeShape(b: seq<Byte>) returns (body: string)
    ensures Plain(body) && (|body| + Pads(b)) % 4 == 0
    ensures Encode(b) == body + Padding(Pads(b))
  {
    if |b| < 3 {
      body := ShortShape(b);
    } else {
      hide *;
      var group := EncodeGroup(b);
      var rest := EncodeShape(b[3..]);
      PadsAgain(b);
      body := PlainJoin(group, rest);
      FourMore(|rest| + Pads(b));
      assert group + (rest + Padding(Pads(b))) == body + Padding(Pads(b));
    }
  }

  lemma PadsAgain(b: seq<Byte>)
    requires |b| >= 3
    ensures Pads(b[3..]) == Pads(b)
  {
  }

  lemma PlainJoin(a: string, b: string) returns (s: string)
    requires Plain(a) && Plain(b)
    ensures s == a + b && Plain(s)
  {
    s := a + b;
  }

  lemma FourMore(n: nat)
    requires n % 4 == 0
    ensures (4 + n) % 4 == 0
  {
  }

  lemma ShortShape(b: seq<Byte>) returns (body: string)
    requires |b| < 3
    ensures Plain(body) && (|body| + Pads(b)) % 4 == 0
    ensures Encode(b) == body + Padding(Pads(b))
  {
    hide Letter, Value;
    var s := Encode(b);
    body := s[..|s| - Pads(b)];
  }

  lemma {:induction false} StrippedDrops(s: string, pads: nat)
    requires Plain(s)
    ensures Stripped(s + Padding(pads)) == s
  {
    var t := s + Padding(pads);
    if pads > 0 {
      assert t[..|t| - 1] == s + Padding(pads - 1);
      StrippedDrops(s, pads - 1);
    } else {
      assert t == s;
    }
  }

  /** Padding can be restored from the length alone. */
  lemma PaddingIsRedundant(b: seq<Byte>)
    ensures Plain(Stripped(Encode(b)))
    ensures Padded(Stripped(Encode(b))) == Encode(b)
  {
    hide Encode, Stripped;
    var body := EncodeShape(b);
    StrippedDrops(body, Pads(b));
    if Pads(b) == 2 {
      assert |body| % 4 == 2 && Padding(2) == "==";
    } else if Pads(b) == 1 {
      assert |body| % 4 == 3 && Padding(1) == "=";
    } else {
      assert |body| % 4 == 0 && body + Padding(0) == body;
    }
  }

  /** A six-bit value that takes `low` bits from one octet and the rest from the next. */
  lemma Bits(x: Byte, y: Byte)
    ensures x / 4 * 4 + (x % 4 * 16 + y / 16) / 16 == x
    ensures (x % 4 * 16 + y / 16) % 16 == y / 16
    ensures y / 16 * 16 + (y % 16 * 4) / 4 == y && (y % 16 * 4) % 4 == 0
    ensures (x % 4 * 16) / 16 == x % 4 && (x % 4 * 16) % 16 == 0
    ensures (x % 16 * 4 + y / 64) / 4 == x % 16
    ensures (x % 16 * 4 + y / 64) % 4 * 64 + y % 64 == y
  {
  }

  lemma OneOctet(x: Byte)
    ensures |Encode([x])| == 4 && Quantum(Encode([x])) == Some([x])
  {
    hide Letter, Value;
    Bits(x, 0);
  }

  lemma TwoOctets(x: Byte, y: Byte)
    ensures |Encode([x, y])| == 4 && Quantum(Encode([x, y])) == Some([x, y])
  {
    hide Letter, Value;
    Bits(x, y);
  }

  lemma ThreeOctets(x: Byte, y: Byte, z: Byte)
    ensures |Encode([x, y, z])| == 4 && Quantum(Encode([x, y, z])) == Some([x, y, z])
  {
    hide Letter, Value;
    Bits(x, y);
    Bits(y, z);
    assert [x, y, z][3..] == [];
  }

  lemma QuantumRoundTrip(b: seq<Byte>)
    requires 1 <= |b| <= 3
    ensures |Encode(b)| == 4 && Quantum(Encode(b)) == Some(b)
  {
    hide Encode, Quantum;
    if |b| == 1 {
      OneOctet(b[0]);
      assert b == [b[0]];
    } else if |b| == 2 {
      TwoOctets(b[0], b[1]);
      assert b == [b[0], b[1]];
    } else {
      ThreeOctets(b[0], b[1], b[2]);
      assert b == [b[0], b[1], b[2]];
    }
  }

  lemma {:induction false} DecodeInverts(b: seq<Byte>)
    ensures Decode(Encode(b)) == Some(b)
  {
    if |b| >= 3 {
      DecodeInverts(b[3..]);
      QuantumRoundTrip(b[..3]);
      var s := Encode(b);
      assert s[..4] == Encode(b[..3]);
      assert s[4..] == Encode(b[3..]);
      assert b == b[..3] + b[3..];
    } else if b != [] {
      QuantumRoundTrip(b);
      var s := Encode(b);
      assert s[..4] == s && s[4..] == "";
      assert Decode("") == Some([]) && b + [] == b;
    }
  }

  // ----- the numbers of a key set -----

  /** Every number, however large, is written without padding and read back as itself. */
  lemma RoundTrip(n: nat)
    ensures FromInt(n).Some? && Plain(FromInt(n).value) && ToInt(FromInt(n).value) == Some(n)
  {
    var length := (BitLength(n) + 7) / 8;
    LengthIsMinimal(n, length);
    var b := Octets(n, length);
    PaddingIsRedundant(b);
    DecodeInverts(b);
    OctetsRoundTrip(n, length);
  }

  /** Different numbers are written differently. */
  lemma Injective(m: nat, n: nat)
    requires FromInt(m) == FromInt(n)
    ensures m == n
  {
    RoundTrip(m);
    RoundTrip(n);
  }

  /** Unequal octets are written differently. */
  lemma TextTellsOctets(b: seq<Byte>, c: seq<Byte>)
    requires Stripped(Encode(b)) == Stripped(Encode(c))
    ensures b == c
  {
    hide Encode, Stripped, Padded, Decode;
    PaddingIsRedundant(b);
    PaddingIsRedundant(c);
    DecodeInverts(b);
    DecodeInverts(c);
  }

  /**
   The unpadded text of some octets is what the code writes for the number they stand
   for, if and only if the first of them is not zero.
   */
  lemma CanonicalText(b: seq<Byte>)
    ensures FromInt(FromBytes(b)) == Some(Stripped(Encode(b))) <==> b == [] || b[0] != 0
  {
    hide Encode, Stripped, BitLength, Octets, FromBytes, Power;
    var n := FromBytes(b);
    var length := (BitLength(n) + 7) / 8;
    OctetsInTurn(b);
    LengthIsMinimal(n, |b|);
    LengthIsMinimal(n, length);
    if b != [] {
      LeadingOctet(b);
      LengthIsMinimal(n, |b| - 1);
    }
    if FromInt(n) == Some(Stripped(Encode(b))) {
      TextTellsOctets(Octets(n, length), b);
    }
  }

  lemma {:induction false} LeadingOctet(b: seq<Byte>)
    requires b != []
    ensures b[0] == 0 <==> FromBytes(b) < Power(256, |b| - 1)
  {
    if |b| > 1 {
      LeadingOctet(b[..|b| - 1]);
    }
  }

  /** The usual exponent is written as RFC 7517 shows it, and zero is written as nothing. */
  lemma KnownTexts()
    ensures FromInt(65537) == Some("AQAB")
    ensures FromInt(0) == Some("")
  {
    hide Encode, Stripped, BitLength, Octets;
    assert Power(256, 2) == 65536 && Power(256, 3) == 16777216;
    LengthIsMinimal(65537, 2);
    LengthIsMinimal(65537, 3);
    ExponentText();
    LengthIsMinimal(0, 0);
    PaddingIsRedundant([]);
    assert Octets(0, 0) == [];
    NothingText();
  }

  /** The least number of octets for a number, at least one. */
  function OctetCount(n: nat): nat {
    if n < 256 then 1 else 1 + OctetCount(n / 256)
  }

  /** Base64urlUInt as section 2 of RFC 7518 defines it; zero takes one octet. */
  function Rfc(n: nat): string {
    Stripped(Encode(Octets(n, OctetCount(n))))
  }

  lemma {:induction false} OctetCountIsLeast(n: nat, k: nat)
    requires k > 0
    ensures n < Power(256, k) <==> k >= OctetCount(n)
  {
    if k > 1 {
      OctetCountIsLeast(n / 256, k - 1);
    }
  }

  /** The code writes what the standard asks for if and only if the number is not zero. */
  lemma StandardUnlessZero(n: nat)
    ensures FromInt(n) == Some(Rfc(n)) <==> n != 0
  {
    hide Encode, Stripped, Octets, Power;
    var length, count := (BitLength(n) + 7) / 8, OctetCount(n);
    LengthIsMinimal(n, length);
    if n == 0 {
      if FromInt(n) == Some(Rfc(n)) {
        TextTellsOctets(Octets(0, 0), Octets(0, 1));
      }
    } else {
      LengthIsMinimal(n, count);
      OctetCountIsLeast(n, count);
      OctetCountIsLeast(n, length);
    }
  }

  lemma ExponentText()
    ensures Stripped(Encode(Octets(65537, 3))) == "AQAB"
  {
    hide Octets, Value;
    ThreeDigits(65537);
    var b: seq<Byte> := [1, 0, 1];
    assert Octets(65537, 3) == b;
    assert b[3..] == [];
    assert Encode(b) == [Letter(0), Letter(16), Letter(0), Letter(1)] + Encode([]) == "AQAB";
    PlainText(b);
  }

  /** Whole groups of three octets need no padding. */
  lemma PlainText(b: seq<Byte>)
    requires |b| % 3 == 0
    ensures Stripped(Encode(b)) == Encode(b)
  {
    hide Encode;
    var body := EncodeShape(b);
    StrippedDrops(body, 0);
    assert body + Padding(0) == body;
  }

  lemma ThreeDigits(n: nat)
    ensures Octets(n, 3) == [n / 256 / 256 % 256, n / 256 % 256, n % 256]
  {
    assert Octets(n / 256 / 256, 1) == [n / 256 / 256 % 256];
  }

  lemma NothingText()
    ensures Stripped(Encode([])) == ""
  {
  }
}
