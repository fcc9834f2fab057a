// Numbers as text: the decimal request IDs of the client (rpc/client.go, nextID) and the
// hexadecimal subscription IDs of the server (rpc/subscription.go, encodeID).
module Quantities {

  // ---------- Positional notation ----------

  type Base = b: nat | 2 <= b <= 16 witness 10

  function DigitChar(d: nat): char
    requires d < 16
  {
    "0123456789abcdef"[d]
  }

  function DigitValue(c: char): nat {
    if '0' <= c <= '9' then (c - '0') as int
    else if 'a' <= c <= 'f' then (c - 'a') as int + 10
    else 0
  }

  // The value of a digit string, most significant digit first.
  function Value(s: string, base: Base): nat {
    if s == [] then 0 else Value(s[..|s| - 1], base) * base + DigitValue(s[|s| - 1])
  }

  lemma DigitRoundTrip(d: nat)
    requires d < 16
    ensures DigitValue(DigitChar(d)) == d
  {
  }

  // strconv.AppendUint
  function Decimal(n: nat): (s: string)
    ensures s != []
  {
    if n < 10 then [DigitChar(n)] else Decimal(n / 10) + [DigitChar(n % 10)]
  }

  lemma {:induction false} DecimalRoundTrip(n: nat)
    ensures Value(Decimal(n), 10) == n
  {
    DigitRoundTrip(n % 10);
    var s := Decimal(n);
    if n >= 10 {
      DecimalRoundTrip(n / 10);
      assert s[..|s| - 1] == Decimal(n / 10);
    } else {
      assert s[..0] == [];
    }
  }

  // ---------- Request IDs ----------

  const UINT32 := 0x1_0000_0000

  // The ID given to the request that brings the counter, counted without wrap-around, to n.
  function RequestId(n: nat): (s: string)
    ensures s != []
  {
    Decimal(n % UINT32)
  }

  lemma SameRemainder(n: nat, m: nat)
    requires n < m
    ensures m - n < UINT32 ==> n % UINT32 != m % UINT32
    ensures m - n == UINT32 ==> n % UINT32 == m % UINT32
  {
    var q, p := n / UINT32, m / UINT32;
    assert n == q * UINT32 + n % UINT32 && m == p * UINT32 + m % UINT32;
  }

  // Two requests less than 2^32 apart have different IDs; exactly 2^32 apart they have not.
  lemma RequestIdsDiffer(n: nat, m: nat)
    requires n < m
    ensures m - n < UINT32 ==> RequestId(n) != RequestId(m)
    ensures m - n == UINT32 ==> RequestId(n) == RequestId(m)
  {
    SameRemainder(n, m);
    DecimalRoundTrip(n % UINT32);
    DecimalRoundTrip(m % UINT32);
  }

  // ---------- Subscription IDs ----------

  type Byte = b: nat | b < 256

  // hex.EncodeToString
  function HexEncode(b: seq<Byte>): (s: string)
    ensures |s| == 2 * |b|
    ensures forall c :: c in s ==> IsHexDigit(c)
  {
    if b == [] then []
    else HexEncode(b[..|b| - 1]) + [DigitChar(b[|b| - 1] / 16), DigitChar(b[|b| - 1] % 16)]
  }

  predicate IsHexDigit(c: char) {
    '0' <= c <= '9' || 'a' <= c <= 'f'
  }

  // strings.TrimLeft(s, "0")
  function TrimZeros(s: string): (t: string)
    ensures t != [] ==> t[0] != '0'
    ensures |t| <= |s| && s[|s| - |t|..] == t
  {
    if s != [] && s[0] == '0' then TrimZeros(s[1..]) else s
  }

  function EncodeId(b: seq<Byte>): string {
    var id := TrimZeros(HexEncode(b));
    "0x" + if id == "" then "0" else id
  }

  // The bytes read as one big-endian number.
  function BigEndian(b: seq<Byte>): nat {
    if b == [] then 0 else BigEndian(b[..|b| - 1]) * 256 + b[|b| - 1]
  }

  lemma {:induction false} HexValue(b: seq<Byte>)
    ensures Value(HexEncode(b), 16) == BigEndian(b)
  {
    if b != [] {
      var front, last := HexEncode(b[..|b| - 1]), b[|b| - 1];
      HexValue(b[..|b| - 1]);
      DigitRoundTrip(last / 16);
      DigitRoundTrip(last % 16);
      var s := HexEncode(b);
      assert s[..|s| - 1] == front + [DigitChar(last / 16)];
      assert (front + [DigitChar(last / 16)])[..|front|] == front;
    }
  }

  lemma {:induction false} ValueConcat(s: string, t: string, base: Base)
    requires Value(s, base) == 0
    ensures Value(s + t, base) == Value(t, base)
  {
    if t == [] {
      assert s + t == s;
    } else {
      ValueConcat(s, t[..|t| - 1], base);
      assert (s + t)[..|s + t| - 1] == s + t[..|t| - 1];
    }
  }

  lemma {:induction false} TrimValue(s: string)
    ensures Value(TrimZeros(s), 16) == Value(s, 16)
  {
    if s != [] && s[0] == '0' {
      TrimValue(s[1..]);
      var zero := [s[0]];
      assert zero[..0] == [];
      assert Value(zero, 16) == 0;
      ValueConcat(zero, s[1..], 16);
      assert s == zero + s[1..];
    }
  }

  // An ID is a minimal hex quantity: "0x", then hex digits without a leading zero except
  // for the number zero itself, whose value is that of the bytes.
  lemma EncodedQuantity(b: seq<Byte>)
    ensures var id := EncodeId(b);
            && |id| >= 3 && id[..2] == "0x"
            && (id[2] == '0' <==> id == "0x0")
            && (forall c :: c in id[2..] ==> IsHexDigit(c))
            && Value(id[2..], 16) == BigEndian(b)
  {
    var s := HexEncode(b);
    var t := TrimZeros(s);
    HexValue(b);
    TrimValue(s);
    var id := EncodeId(b);
    assert id[2..] == if t == "" then "0" else t;
    forall c | c in t ensures IsHexDigit(c) {
      assert c in s;
    }
    assert "0"[..0] == [];
    assert Value("0", 16) == 0;
  }

  lemma LastByte(p: nat, c: Byte, q: nat, d: Byte)
    requires p * 256 + c == q * 256 + d
    ensures p == q && c == d
  {
  }

  // Byte strings of one length with the same number are the same.
  lemma {:induction false} BigEndianInjective(a: seq<Byte>, b: seq<Byte>)
    requires |a| == |b| && BigEndian(a) == BigEndian(b)
    ensures a == b
  {
    if a != [] {
      var n := |a| - 1;
      LastByte(BigEndian(a[..n]), a[n], BigEndian(b[..n]), b[n]);
      BigEndianInjective(a[..n], b[..n]);
      assert a == a[..n] + [a[n]] && b == b[..n] + [b[n]];
    }
  }

  // Different random byte strings (16 bytes in the server) give different IDs.
  lemma EncodeIdInjective(a: seq<Byte>, b: seq<Byte>)
    requires |a| == |b| && EncodeId(a) == EncodeId(b)
    ensures a == b
  {
    EncodedQuantity(a);
    EncodedQuantity(b);
    BigEndianInjective(a, b);
  }
}
