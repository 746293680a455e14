/**
 * Hexadecimal helpers of utils.js: fixed-width upper-case formatting of a
 * number (`toHex`) and parsing of a hex string into a byte buffer
 * (`strToBuffer`).
 */
module Utils {
  import opened JsString
  import opened Wrappers

  /** One element of a Node.js Buffer or Uint8Array. */
  type uint8 = x: int | 0 <= x < 256

  function Pow16(d: nat): (r: nat)
    ensures r >= 1
  {
    if d == 0 then 1 else 16 * Pow16(d - 1)
  }

  predicate IsHexDigit(c: char)
  {
    '0' <= c <= '9' || 'a' <= c <= 'f' || 'A' <= c <= 'F'
  }

  predicate IsUpperHexDigit(c: char)
  {
    '0' <= c <= '9' || 'A' <= c <= 'F'
  }

  predicate AllHex(s: string)
  {
    forall i :: 0 <= i < |s| ==> IsHexDigit(s[i])
  }

  function DigitValue(c: char): (v: nat)
    requires IsHexDigit(c)
    ensures v < 16
  {
    if '0' <= c <= '9' then c as int - '0' as int
    else if 'a' <= c <= 'f' then c as int - 'a' as int + 10
    else c as int - 'A' as int + 10
  }

  /** The value of a string of hex digits, most significant digit first. */
  function HexValue(s: string): (v: nat)
    requires AllHex(s)
  {
    if s == [] then 0 else HexValue(s[..|s| - 1]) * 16 + DigitValue(s[|s| - 1])
  }

  /** The digit `Number.prototype.toString(16)` writes for `v`: lower case. */
  function LowerDigit(v: nat): (c: char)
    requires v < 16
    ensures IsHexDigit(c) && DigitValue(c) == v
    ensures !('A' <= c <= 'Z')
  {
    if v < 10 then ('0' as int + v) as char else ('a' as int + v - 10) as char
  }

  /** `n.toString(16)` for a non-negative integer: the shortest lower-case hex digits of `n`. */
  function ToString16(n: nat): string
    decreases n
  {
    if n < 16 then [LowerDigit(n)] else ToString16(n / 16) + [LowerDigit(n % 16)]
  }

  function ToUpperChar(c: char): char
  {
    if 'a' <= c <= 'z' then (c as int - 32) as char else c
  }

  /** `s.toUpperCase()` restricted to what it does to ASCII letters. */
  function ToUpperCase(s: string): (u: string)
    ensures |u| == |s|
  {
    seq(|s|, i requires 0 <= i < |s| => ToUpperChar(s[i]))
  }

  /** `c.repeat(n)`. */
  function Repeat(c: char, n: nat): (r: string)
    ensures |r| == n
  {
    seq(n, _ => c)
  }

  /** `s.slice(-d)`: the last `d` characters, except that `slice(-0)` is `slice(0)`, the whole string. */
  function SliceFromEnd(s: string, d: nat): string
    requires d <= |s|
  {
    if d == 0 then s else s[|s| - d..]
  }

  /**
   * utils.js `toHex(number, digit)`: exactly `digit` characters (the whole hex
   * form when `digit` is 0), with no lower-case letter left.
   */
  function ToHex(n: nat, digits: nat): (r: string)
    ensures |r| == if digits == 0 then |ToString16(n)| else digits
    ensures forall i :: 0 <= i < |r| ==> !('a' <= r[i] <= 'z')
  {
    ToUpperCase(SliceFromEnd(Repeat('0', digits) + ToString16(n), digits))
  }

  // ---------------------------------------------------------------- toHex

  lemma {:induction false} ToString16Digits(n: nat)
    ensures var h := ToString16(n);
      |h| >= 1 && AllHex(h) && HexValue(h) == n && n < Pow16(|h|) &&
      forall i :: 0 <= i < |h| ==> !('A' <= h[i] <= 'Z')
    decreases n
  {
    if n >= 16 {
      ToString16Digits(n / 16);
      var h := ToString16(n);
      assert h[..|h| - 1] == ToString16(n / 16);
    }
  }

  lemma {:induction false} HexValueOfZeros(k: nat)
    ensures AllHex(Repeat('0', k)) && HexValue(Repeat('0', k)) == 0
  {
    if k > 0 {
      HexValueOfZeros(k - 1);
      assert Repeat('0', k)[..k - 1] == Repeat('0', k - 1);
    }
  }

  /** Leading zeros do not change the value of a hex string. */
  lemma {:induction false} HexValueZeroPadded(k: nat, t: string)
    requires AllHex(t)
    ensures AllHex(Repeat('0', k) + t) && HexValue(Repeat('0', k) + t) == HexValue(t)
    decreases |t|
  {
    HexValueOfZeros(k);
    if t == [] {
      assert Repeat('0', k) + t == Repeat('0', k);
    } else {
      var s := Repeat('0', k) + t;
      HexValueZeroPadded(k, t[..|t| - 1]);
      assert s[..|s| - 1] == Repeat('0', k) + t[..|t| - 1];
    }
  }

  lemma ModUnique(x: int, q: int, r: int, n: int)
    requires n > 0 && 0 <= r < n && x == q * n + r
    ensures x % n == r
  {
    var q', r' := x / n, x % n;
    assert (q - q') * n == r' - r;
    if q > q' {
      MulAtLeast(q - q', n);
    } else if q < q' {
      MulAtLeast(q' - q, n);
    }
  }

  lemma MulAtLeast(k: int, n: int)
    requires k >= 1 && n > 0
    ensures k * n >= n
  {
  }

  lemma ModStep(a: nat, l: nat, m: nat)
    requires l < 16 && m >= 1
    ensures (a * 16 + l) % (16 * m) == (a % m) * 16 + l
  {
    var q, r := a / m, a % m;
    assert a * 16 + l == q * (16 * m) + (r * 16 + l);
    ModUnique(a * 16 + l, q, r * 16 + l, 16 * m);
  }

  /** The last `d` digits of a hex string hold its value modulo 16^d. */
  lemma {:induction false} HexValueSuffix(s: string, d: nat)
    requires AllHex(s) && d <= |s|
    ensures AllHex(s[|s| - d..]) && HexValue(s[|s| - d..]) == HexValue(s) % Pow16(d)
    decreases d
  {
    var t := s[|s| - d..];
    if d == 0 {
      assert t == [];
    } else {
      var init := s[..|s| - 1];
      HexValueSuffix(init, d - 1);
      assert t[..|t| - 1] == init[|init| - (d - 1)..];
      assert t[|t| - 1] == s[|s| - 1];
      ModStep(HexValue(init), DigitValue(s[|s| - 1]), Pow16(d - 1));
    }
  }

  lemma {:induction false} UpperCaseKeepsValue(s: string)
    requires AllHex(s)
    ensures AllHex(ToUpperCase(s)) && HexValue(ToUpperCase(s)) == HexValue(s)
    decreases |s|
  {
    if s != [] {
      UpperCaseKeepsValue(s[..|s| - 1]);
      assert ToUpperCase(s)[..|s| - 1] == ToUpperCase(s[..|s| - 1]);
    }
  }

  /**
   * For `d >= 1`, `toHex(n, d)` is exactly `d` upper-case hex digits whose
   * value is `n` modulo 16^d: the low `d` hex digits of `n`.
   */
  lemma ToHexDigits(n: nat, d: nat)
    requires d >= 1
    ensures |ToHex(n, d)| == d
    ensures forall i :: 0 <= i < d ==> IsUpperHexDigit(ToHex(n, d)[i])
    ensures AllHex(ToHex(n, d)) && HexValue(ToHex(n, d)) == n % Pow16(d)
  {
    var h := ToString16(n);
    var padded := Repeat('0', d) + h;
    ToString16Digits(n);
    HexValueZeroPadded(d, h);
    HexValueSuffix(padded, d);
    var tail := padded[|padded| - d..];
    UpperCaseKeepsValue(tail);
    var u := ToHex(n, d);
    assert u == ToUpperCase(tail);
    forall i | 0 <= i < d
      ensures IsUpperHexDigit(u[i])
    {
      assert IsHexDigit(tail[i]);
    }
  }

  /** Reading `toHex(n, d)` back gives `n` whenever `n` fits in `d` hex digits. */
  lemma ToHexRoundTrip(n: nat, d: nat)
    requires d >= 1 && n < Pow16(d)
    ensures AllHex(ToHex(n, d)) && HexValue(ToHex(n, d)) == n
  {
    ToHexDigits(n, d);
    ModUnique(n, 0, n, Pow16(d));
  }

  /** When the hex form of `n` is shorter than `d`, `toHex` pads it on the left with '0'. */
  lemma ToHexPadding(n: nat, d: nat)
    requires |ToString16(n)| <= d
    ensures ToHex(n, d) == Repeat('0', d - |ToString16(n)|) + ToUpperCase(ToString16(n))
  {
    var h := ToString16(n);
    var padded := Repeat('0', d) + h;
    var zeros := Repeat('0', d - |h|);
    assert padded[|padded| - d..] == zeros + h;
    var u := ToUpperCase(zeros + h);
    assert u[..|zeros|] == zeros;
    assert u[|zeros|..] == ToUpperCase(h);
    assert u == u[..|zeros|] + u[|zeros|..];
  }

  /** `toHex(n, 0)` is not the empty string: `slice(-0)` keeps the whole padded text. */
  lemma ToHexZeroWidth(n: nat)
    ensures ToHex(n, 0) == ToUpperCase(ToString16(n))
    ensures |ToHex(n, 0)| >= 1 && AllHex(ToHex(n, 0)) && HexValue(ToHex(n, 0)) == n
  {
    assert Repeat('0', 0) + ToString16(n) == ToString16(n);
    ToString16Digits(n);
    UpperCaseKeepsValue(ToString16(n));
  }

  // ---------------------------------------------------------------- strToBuffer

  /** The run of hex digits at the start of `s`. */
  function LeadingHexDigits(s: string): (d: string)
    ensures |d| <= |s| && AllHex(d) && d == s[..|d|]
  {
    if s != [] && IsHexDigit(s[0]) then [s[0]] + LeadingHexDigits(s[1..]) else []
  }

  /**
   * `parseInt(t, 16)`: leading white space, then an optional sign, then an
   * optional `0x` or `0X` prefix, then the longest run of hex digits; `None`
   * stands for NaN (no digit at all).
   */
  function ParseIntHex(t: string): Option<int>
  {
    var u := TrimStart(t);
    var negative := u != [] && u[0] == '-';
    var body := if u != [] && (u[0] == '-' || u[0] == '+') then u[1..] else u;
    var unprefixed := if |body| >= 2 && body[0] == '0' && (body[1] == 'x' || body[1] == 'X') then body[2..] else body;
    var digits := LeadingHexDigits(unprefixed);
    if digits == [] then None
    else
      var v: int := HexValue(digits);
      Some(if negative then -v else v)
  }

  /** Storing a number into a Uint8Array slot: NaN becomes 0, anything else is taken modulo 256. */
  function ToUint8(v: Option<int>): uint8
  {
    match v
    case None => 0
    case Some(x) => x % 256
  }

  /** The slices `s.slice(i, i + 2)` for i = 0, 2, 4, … that land inside the buffer. */
  function Pairs(s: string): (ps: seq<string>)
    ensures |ps| == |s| / 2
  {
    if |s| < 2 then [] else [s[..2]] + Pairs(s[2..])
  }

  lemma {:induction false} PairsAt(s: string, k: nat)
    requires k < |s| / 2
    ensures Pairs(s)[k] == s[2 * k..2 * k + 2]
    decreases k
  {
    if k > 0 {
      PairsAt(s[2..], k - 1);
      assert s[2..][2 * (k - 1)..2 * (k - 1) + 2] == s[2 * k..2 * k + 2];
    }
  }

  /** The byte stored for one slice: `parseInt(t, 16)` put into a Uint8Array slot. */
  function PairByte(t: string): uint8
  {
    ToUint8(ParseIntHex(t))
  }

  function ParsePairs(ps: seq<string>): (b: seq<uint8>)
    ensures |b| == |ps|
  {
    if ps == [] then [] else [PairByte(ps[0])] + ParsePairs(ps[1..])
  }

  lemma {:induction false} ParsePairsAt(ps: seq<string>, k: nat)
    requires k < |ps|
    ensures ParsePairs(ps)[k] == PairByte(ps[k])
    decreases k
  {
    if k > 0 {
      ParsePairsAt(ps[1..], k - 1);
    }
  }

  /** The buffer `strToBuffer(s)` returns: one byte per pair of characters, a last odd character dropped. */
  function HexBytes(s: string): (b: seq<uint8>)
    ensures |b| == |s| / 2
  {
    ParsePairs(Pairs(s))
  }

  /** Byte `k` of `HexBytes(s)` is the parse of characters `2k` and `2k + 1`. */
  lemma HexBytesAt(s: string, k: nat)
    requires k < |s| / 2
    ensures HexBytes(s)[k] == PairByte(s[2 * k..2 * k + 2])
  {
    PairsAt(s, k);
    ParsePairsAt(Pairs(s), k);
  }

  /**
   * utils.js `strToBuffer`: allocates `|s| / 2` bytes and fills them two
   * characters at a time; for an odd length the last, single-character
   * slice falls outside the buffer and is dropped, as a typed array drops an
   * out-of-range store.
   */
  method StrToBuffer(s: string) returns (buffer: array<uint8>)
    ensures fresh(buffer)
    ensures buffer[..] == HexBytes(s)
  {
    buffer := new uint8[|s| / 2];
    var i := 0;
    ghost var n := 0;
    while i < |s|
      invariant i == 2 * n && n <= buffer.Length + 1 && i <= |s| + 1
      invariant forall k :: 0 <= k < n && k < buffer.Length ==> buffer[k] == HexBytes(s)[k]
    {
      var slice := s[i..if i + 2 <= |s| then i + 2 else |s|];
      assert i / 2 == n;
      if i / 2 < buffer.Length {
        HexBytesAt(s, n);
        assert slice == s[2 * n..2 * n + 2];
        buffer[i / 2] := PairByte(slice);
      }
      i, n := i + 2, n + 1;
    }
    assert n >= buffer.Length;
    ghost var expected := HexBytes(s);
    assert forall k :: 0 <= k < buffer.Length ==> buffer[..][k] == expected[k];
    assert buffer[..] == expected;
  }

  /** `parseInt` of two hex digits is their value. */
  lemma ParseIntOfPair(t: string)
    requires |t| == 2 && AllHex(t)
    ensures ParseIntHex(t) == Some(HexValue(t)) && HexValue(t) < 256
  {
    assert IsHexDigit(t[0]) && IsHexDigit(t[1]);
    assert !IsWhitespace(t[0]) && t[0] != '-' && t[0] != '+';
    assert TrimStart(t) == t;
    assert LeadingHexDigits(t[1..]) == t[1..];
    assert LeadingHexDigits(t) == t;
    assert HexValue(t[..1]) == DigitValue(t[0]);
  }

  /** For a pair of hex digits, the byte `strToBuffer` stores is their value. */
  lemma PairValue(s: string, k: nat)
    requires k < |s| / 2 && AllHex(s[2 * k..2 * k + 2])
    ensures HexBytes(s)[k] == HexValue(s[2 * k..2 * k + 2])
  {
    var t := s[2 * k..2 * k + 2];
    ParseIntOfPair(t);
    HexBytesAt(s, k);
    assert PairByte(t) == ToUint8(Some(HexValue(t)));
    assert ToUint8(Some(HexValue(t))) == HexValue(t) by {
      ModUnique(HexValue(t), 0, HexValue(t), 256);
    }
  }

  /** The hex text of a byte sequence, two upper-case digits per byte. */
  function HexString(bytes: seq<uint8>): (s: string)
    ensures |s| == 2 * |bytes|
  {
    if bytes == [] then "" else ToHex(bytes[0], 2) + HexString(bytes[1..])
  }

  lemma {:induction false} HexStringAt(bytes: seq<uint8>, k: nat)
    requires k < |bytes|
    ensures HexString(bytes)[2 * k..2 * k + 2] == ToHex(bytes[k], 2)
    decreases k
  {
    if k > 0 {
      HexStringAt(bytes[1..], k - 1);
      var rest := HexString(bytes[1..]);
      assert HexString(bytes) == ToHex(bytes[0], 2) + rest;
      assert HexString(bytes)[2 * k..2 * k + 2] == rest[2 * (k - 1)..2 * (k - 1) + 2];
    }
  }

  /** `strToBuffer` inverts per-byte `toHex(b, 2)` formatting. */
  lemma StrToBufferOfHex(bytes: seq<uint8>)
    ensures HexBytes(HexString(bytes)) == bytes
  {
    var s := HexString(bytes);
    forall k | 0 <= k < |bytes|
      ensures HexBytes(s)[k] == bytes[k]
    {
      HexStringAt(bytes, k);
      ToHexRoundTrip(bytes[k], 2);
      PairValue(s, k);
    }
  }
}
