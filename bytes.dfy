/** Byte-level vocabulary shared by every part of the protocol engine: the byte
    type, Python's slicing and stripping semantics on byte strings, and the
    small number-to-text conversions used in notices. */
module Bytes {

  type byte = x: int | 0 <= x < 256

  datatype Option<T> = None | Some(value: T)

  predicate InByte(x: int) { 0 <= x < 256 }

  /** A Python bool placed in bytes([...]) becomes 0 or 1. */
  function B(b: bool): (r: byte)
    ensures r == 1 <==> b
    ensures r == 0 <==> !b
  {
    if b then 1 else 0
  }

  predicate IsBool(x: byte) { x == 0 || x == 1 }

  /** int.to_bytes(2, byteorder='big') */
  function Be16(n: int): (r: seq<byte>)
    requires 0 <= n < 0x1_0000
    ensures |r| == 2 && r[0] as int * 256 + r[1] as int == n
  {
    [n / 256, n % 256]
  }

  lemma Be16Injective(m: int, n: int)
    requires 0 <= m < 0x1_0000 && 0 <= n < 0x1_0000
    requires Be16(m) == Be16(n)
    ensures m == n
  {
    assert Be16(m)[0] as int * 256 + Be16(m)[1] as int == m;
  }

  /** Python's s[i:] for a non-negative start: never fails, empty when i is past the end. */
  function From(s: seq<byte>, i: nat): (r: seq<byte>)
    ensures i <= |s| ==> r == s[i..]
    ensures i > |s| ==> r == []
  {
    if i <= |s| then s[i..] else []
  }

  /** Python's s[i:j] for non-negative bounds: clipped to the sequence. */
  function Slice(s: seq<byte>, i: nat, j: nat): (r: seq<byte>)
    ensures i <= j <= |s| ==> r == s[i..j]
    ensures |r| <= |s|
  {
    var hi := if j <= |s| then j else |s|;
    var lo := if i <= hi then i else hi;
    s[lo..hi]
  }

  /** Python's s[:-2]: everything but the last two bytes, empty when there are fewer than two. */
  function DropLast2(s: seq<byte>): (r: seq<byte>)
    ensures |s| >= 2 ==> r == s[..|s| - 2]
    ensures |s| < 2 ==> r == []
  {
    if |s| >= 2 then s[..|s| - 2] else []
  }

  /** .rstrip(chr(0)) on a decoded label. */
  function RStripNul(s: seq<byte>): (r: seq<byte>)
    ensures r <= s
    ensures r == [] || r[|r| - 1] != 0
  {
    if s == [] || s[|s| - 1] != 0 then s else RStripNul(s[..|s| - 1])
  }

  /** Only NUL bytes are removed, and a string without trailing NULs is kept. */
  lemma {:induction false} RStripNulRemovesOnlyNul(s: seq<byte>)
    ensures forall k :: |RStripNul(s)| <= k < |s| ==> s[k] == 0
    ensures s == [] || s[|s| - 1] != 0 ==> RStripNul(s) == s
  {
    if s != [] && s[|s| - 1] == 0 {
      RStripNulRemovesOnlyNul(s[..|s| - 1]);
    }
  }

  /** A run of NUL padding after a label that does not end in NUL is removed exactly. */
  lemma {:induction false} RStripNulPadding(a: seq<byte>, z: seq<byte>)
    requires a == [] || a[|a| - 1] != 0
    requires forall k :: 0 <= k < |z| ==> z[k] == 0
    ensures RStripNul(a + z) == a
    decreases |z|
  {
    if z != [] {
      assert (a + z)[..|a + z| - 1] == a + z[..|z| - 1];
      RStripNulPadding(a, z[..|z| - 1]);
    } else {
      assert a + z == a;
    }
  }

  /** The latin-1 characters Python's str.isspace() accepts. */
  predicate IsSpace(b: byte)
  {
    (0x09 <= b <= 0x0D) || (0x1C <= b <= 0x20) || b == 0x85 || b == 0xA0
  }

  function RStrip(s: seq<byte>): (r: seq<byte>)
    ensures r <= s
    ensures r == [] || !IsSpace(r[|r| - 1])
  {
    if s == [] || !IsSpace(s[|s| - 1]) then s else RStrip(s[..|s| - 1])
  }

  lemma {:induction false} RStripRemovesOnlySpace(s: seq<byte>)
    ensures forall k :: |RStrip(s)| <= k < |s| ==> IsSpace(s[k])
  {
    if s != [] && IsSpace(s[|s| - 1]) {
      RStripRemovesOnlySpace(s[..|s| - 1]);
    }
  }

  function LStrip(s: seq<byte>): (r: seq<byte>)
    ensures |r| <= |s| && r == s[|s| - |r|..]
    ensures r == [] || !IsSpace(r[0])
  {
    if s == [] || !IsSpace(s[0]) then s else LStrip(s[1..])
  }

  lemma {:induction false} LStripRemovesOnlySpace(s: seq<byte>)
    ensures forall k :: 0 <= k < |s| - |LStrip(s)| ==> IsSpace(s[k])
  {
    if s != [] && IsSpace(s[0]) {
      LStripRemovesOnlySpace(s[1..]);
    }
  }

  /** .strip() on a latin-1 decoded label: both ends lose their whitespace. */
  function Strip(s: seq<byte>): (r: seq<byte>)
    ensures r == [] || (!IsSpace(r[0]) && !IsSpace(r[|r| - 1]))
  {
    LStrip(RStrip(s))
  }

  lemma {:induction false} StripKeepsInner(s: seq<byte>)
    requires s != [] && !IsSpace(s[0]) && !IsSpace(s[|s| - 1])
    ensures Strip(s) == s
  {
  }

  /** bytes.decode('latin-1'): every byte is the character with the same code point. */
  function Latin1(s: seq<byte>): (r: string)
    ensures |r| == |s|
  {
    seq(|s|, k requires 0 <= k < |s| => s[k] as char)
  }

  const UpperHex := "0123456789ABCDEF"
  const LowerHex := "0123456789abcdef"

  /** f"{b:02X}" */
  function Hex2(b: byte): (r: string)
    ensures |r| == 2
  {
    [UpperHex[b / 16], UpperHex[b % 16]]
  }

  function HexDigitValue(c: char): int
  {
    if '0' <= c <= '9' then c as int - '0' as int
    else if 'A' <= c <= 'F' then c as int - 'A' as int + 10
    else -1
  }

  /** Reading an upper-case hex pair back gives the byte: distinct bytes print distinctly. */
  lemma Hex2RoundTrip(b: byte)
    ensures HexDigitValue(Hex2(b)[0]) * 16 + HexDigitValue(Hex2(b)[1]) == b
  {
    var hi, lo := b / 16, b % 16;
    assert HexDigitValue(UpperHex[hi]) == hi;
    assert HexDigitValue(UpperHex[lo]) == lo;
  }

  lemma Hex2Injective(a: byte, b: byte)
    requires Hex2(a) == Hex2(b)
    ensures a == b
  {
    Hex2RoundTrip(a);
    Hex2RoundTrip(b);
  }

  /** Python's hex(b) for a byte: "0x" and the lower-case digits without padding. */
  function PyHex(b: byte): (r: string)
    ensures 3 <= |r| <= 4 && r[..2] == "0x"
  {
    if b < 16 then "0x" + [LowerHex[b]] else "0x" + [LowerHex[b / 16], LowerHex[b % 16]]
  }

  /** str(n) for a natural number. */
  function Decimal(n: nat): (r: string)
    ensures |r| >= 1
  {
    if n < 10 then [('0' as int + n) as char] else Decimal(n / 10) + [('0' as int + n % 10) as char]
  }

  /** str(i) for any integer. */
  function IntToString(i: int): (r: string)
    ensures |r| >= 1
  {
    if i < 0 then "-" + Decimal(-i) else Decimal(i)
  }

  predicate IsDigit(c: char) { '0' <= c <= '9' }

  /** int(s), read on a string of ASCII digits. */
  function DigitsValue(s: string): int
  {
    if s == [] then 0 else DigitsValue(s[..|s| - 1]) * 10 + (s[|s| - 1] as int - '0' as int)
  }

  lemma {:induction false} DecimalDigits(n: nat)
    ensures forall k :: 0 <= k < |Decimal(n)| ==> IsDigit(Decimal(n)[k])
  {
    if n >= 10 {
      DecimalDigits(n / 10);
    }
  }

  lemma {:induction false} DecimalValue(n: nat)
    ensures DigitsValue(Decimal(n)) == n
  {
    var d := Decimal(n);
    if n >= 10 {
      DecimalValue(n / 10);
      assert d[..|d| - 1] == Decimal(n / 10);
    }
  }
}
