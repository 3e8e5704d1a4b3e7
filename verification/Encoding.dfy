/** Hexadecimal bytes as the web runtime prints and leniently parses them, and the comparison that never stops early. */
module Encoding {
  import opened Prelude

  const HEX_CHARS := "0123456789abcdef"

  // ----- Printing -----

  function HexPair(b: byte): (pair: string)
    ensures |pair| == 2
  {
    [HEX_CHARS[b / 16], HEX_CHARS[b % 16]]
  }

  function Hex(bytes: seq<byte>): (s: string)
    ensures |s| == 2 * |bytes|
  {
    if bytes == [] then "" else Hex(bytes[..|bytes| - 1]) + HexPair(bytes[|bytes| - 1])
  }

  method ToHex(bytes: seq<byte>) returns (out: string)
    ensures out == Hex(bytes)
  {
    out := "";
    assert bytes[..0] == [];
    for i := 0 to |bytes|
      invariant out == Hex(bytes[..i])
    {
      assert bytes[..i + 1][..i] == bytes[..i];
      out := out + [HEX_CHARS[bytes[i] / 16]];
      out := out + [HEX_CHARS[bytes[i] % 16]];
      assert out == Hex(bytes[..i]) + HexPair(bytes[i]);
    }
    assert bytes[..|bytes|] == bytes;
  }

  // ----- Parsing -----

  /** White space as ECMAScript trims it. */
  predicate IsBlank(c: char) {
    || c in {' ', '\t', '\n', '\r', '\U{000B}', '\U{000C}', '\U{00A0}', '\U{1680}', '\U{2028}', '\U{2029}', '\U{202F}',
             '\U{205F}', '\U{3000}', '\U{FEFF}'}
    || '\U{2000}' <= c <= '\U{200A}'
  }

  function HexValue(c: char): Option<nat> {
    if '0' <= c <= '9' then Some(c as int - '0' as int)
    else if 'a' <= c <= 'f' then Some(c as int - 'a' as int + 10)
    else if 'A' <= c <= 'F' then Some(c as int - 'A' as int + 10)
    else None
  }

  function SkipBlanks(s: string): string {
    if s != "" && IsBlank(s[0]) then SkipBlanks(s[1..]) else s
  }

  /** The value of the longest prefix of hex digits. */
  function HexPrefix(s: string, value: nat): nat {
    if s != "" && HexValue(s[0]).Some? then HexPrefix(s[1..], value * 16 + HexValue(s[0]).value) else value
  }

  /** `Number.parseInt(s, 16)`: blanks, a sign and a 0x prefix are skipped, and what follows the digits is ignored. */
  function ParseInt16(s: string): Option<int> {
    var t := SkipBlanks(s);
    var signed := t != "" && (t[0] == '-' || t[0] == '+');
    var u := if signed then t[1..] else t;
    var v := if |u| >= 2 && u[0] == '0' && (u[1] == 'x' || u[1] == 'X') then u[2..] else u;
    if v == "" || HexValue(v[0]).None? then None
    else
      var magnitude: int := HexPrefix(v, 0);
      Some(if signed && t[0] == '-' then -magnitude else magnitude)
  }

  datatype HexError = OddLength | NonHexCharacter

  /** The byte an element of a `Uint8Array` keeps of a number. */
  function ToByte(n: int): byte { n % 256 }

  function Unhex(s: string): Result<seq<byte>, HexError>
    requires |s| % 2 == 0
  {
    if s == "" then Ok([])
    else
      match Unhex(s[..|s| - 2])
      case Err(e) => Err(e)
      case Ok(front) =>
        match ParseInt16(s[|s| - 2..])
        case None => Err(NonHexCharacter)
        case Some(n) => Ok(front + [ToByte(n)])
  }

  function WithoutPrefix(hex: string): string {
    if |hex| >= 2 && hex[0] == '0' && hex[1] == 'x' then hex[2..] else hex
  }

  function Decoded(hex: string): Result<seq<byte>, HexError> {
    if |WithoutPrefix(hex)| % 2 != 0 then Err(OddLength) else Unhex(WithoutPrefix(hex))
  }

  lemma {:induction false} UnhexFails(s: string, i: nat)
    requires |s| % 2 == 0 && 2 * i <= |s| && Unhex(s[..2 * i]).Err?
    ensures Unhex(s) == Unhex(s[..2 * i])
  {
    if 2 * i < |s| {
      assert s[..|s| - 2][..2 * i] == s[..2 * i];
      UnhexFails(s[..|s| - 2], i);
    } else {
      assert s[..2 * i] == s;
    }
  }

  lemma UnhexOneMore(s: string, i: nat)
    requires |s| % 2 == 0 && 2 * i < |s|
    ensures Unhex(s[..2 * (i + 1)]) ==
      match Unhex(s[..2 * i])
      case Err(e) => Err(e)
      case Ok(front) =>
        match ParseInt16(s[2 * i..2 * i + 2])
        case None => Err(NonHexCharacter)
        case Some(n) => Ok(front + [ToByte(n)])
  {
    var t := s[..2 * (i + 1)];
    assert t[..|t| - 2] == s[..2 * i] && t[|t| - 2..] == s[2 * i..2 * i + 2];
  }

  /** `fromHex`, filling a buffer pair by pair. */
  method FromHex(hex: string) returns (r: Result<seq<byte>, HexError>)
    ensures r == Decoded(hex)
  {
    hide ParseInt16;
    var clean := WithoutPrefix(hex);
    if |clean| % 2 != 0 { return Err(OddLength); }
    var out := new byte[|clean| / 2];
    assert clean[..0] == "";
    for i := 0 to out.Length
      invariant Unhex(clean[..2 * i]) == Ok(out[..i])
    {
      var n := ParseInt16(clean[2 * i..2 * i + 2]);
      UnhexOneMore(clean, i);
      if n.None? {
        UnhexFails(clean, i + 1);
        return Err(NonHexCharacter);
      }
      out[i] := n.value % 256;
      assert out[..i + 1] == out[..i] + [out[i]];
    }
    assert clean[..2 * out.Length] == clean && out[..out.Length] == out[..];
    r := Ok(out[..]);
  }

  // ----- Parsing undoes printing -----

  lemma PrintedDigit(n: nat)
    requires n < 16
    ensures HexValue(HEX_CHARS[n]) == Some(n)
    ensures !IsBlank(HEX_CHARS[n]) && HEX_CHARS[n] !in {'-', '+', 'x', 'X', ',', '='}
  {
  }

  lemma PrintedPair(b: byte)
    ensures ParseInt16(HexPair(b)) == Some(b)
  {
    PrintedDigit(b / 16);
    PrintedDigit(b % 16);
    var s := HexPair(b);
    assert s[1..] == [HEX_CHARS[b % 16]] && s[1..][1..] == "";
    assert HexPrefix(s, 0) == HexPrefix(s[1..], b / 16) == HexPrefix("", (b / 16) * 16 + b % 16);
  }

  lemma {:induction false} UnhexNothing()
    ensures Unhex(Hex([])) == Ok([])
  {
  }

  lemma {:induction false} HexOneMore(front: seq<byte>, last: byte)
    ensures Hex(front + [last]) == Hex(front) + HexPair(last)
  {
    hide HexPair;
    assert (front + [last])[..|front|] == front;
  }

  /** A pair that parses adds its byte, a negative one the byte below zero wraps to. */
  lemma {:induction false} UnhexPair(s: string, pair: string, n: int)
    requires |s| % 2 == 0 && |pair| == 2 && ParseInt16(pair) == Some(n) && -256 <= n < 256
    ensures Unhex(s + pair) ==
      match Unhex(s) case Err(e) => Err(e) case Ok(front) => Ok(front + [if n < 0 then n + 256 else n])
  {
    hide ParseInt16;
    var t := s + pair;
    assert t[..|t| - 2] == s && t[|t| - 2..] == pair;
    assert ToByte(n) == if n < 0 then n + 256 else n;
  }

  lemma {:induction false} UnhexHex(bytes: seq<byte>)
    ensures Unhex(Hex(bytes)) == Ok(bytes)
  {
    hide ParseInt16, HexPair, Unhex, Hex;
    if bytes == [] {
      UnhexNothing();
    } else {
      var front, last := bytes[..|bytes| - 1], bytes[|bytes| - 1];
      assert bytes == front + [last];
      UnhexHex(front);
      PrintedPair(last);
      HexOneMore(front, last);
      UnhexPair(Hex(front), HexPair(last), last);
    }
  }

  /** Printed characters are lower-case hex digits, whatever else the parser would have let through. */
  lemma {:induction false} PrintedChars(bytes: seq<byte>)
    ensures forall i :: 0 <= i < |Hex(bytes)| ==>
      !IsBlank(Hex(bytes)[i]) && Hex(bytes)[i] !in {'-', '+', 'x', 'X', ',', '='}
  {
    if bytes != [] {
      PrintedChars(bytes[..|bytes| - 1]);
      PrintedDigit(bytes[|bytes| - 1] / 16);
      PrintedDigit(bytes[|bytes| - 1] % 16);
    }
  }

  lemma NoPrefix(s: string)
    requires |s| < 2 || s[1] != 'x'
    ensures |s| % 2 == 0 ==> Decoded(s) == Unhex(s)
  {
    hide Unhex;
  }

  lemma HexRoundTrip(bytes: seq<byte>)
    ensures Decoded(Hex(bytes)) == Ok(bytes)
  {
    PrintedChars(bytes);
    UnhexHex(bytes);
    hide *;
    NoPrefix(Hex(bytes));
  }

  // ----- Comparing -----

  /** `a ^ b`, bit by bit. */
  function Xor(a: nat, b: nat): nat {
    if a == 0 && b == 0 then 0 else 2 * Xor(a / 2, b / 2) + (a % 2 + b % 2) % 2
  }

  /** `a | b`, bit by bit. */
  function Or(a: nat, b: nat): nat {
    if a == 0 && b == 0 then 0 else 2 * Or(a / 2, b / 2) + Max(a % 2, b % 2)
  }

  lemma {:induction false} XorIsZeroWhenSame(a: nat, b: nat)
    ensures Xor(a, b) == 0 <==> a == b
  {
    if a > 0 || b > 0 { XorIsZeroWhenSame(a / 2, b / 2); }
  }

  lemma {:induction false} OrIsZeroWhenBoth(a: nat, b: nat)
    ensures Or(a, b) == 0 <==> a == 0 && b == 0
  {
    if a > 0 || b > 0 { OrIsZeroWhenBoth(a / 2, b / 2); }
  }

  /** Accumulates every difference, and so equals exactly when the bytes do. */
  method TimingSafeEqual(a: seq<byte>, b: seq<byte>) returns (equal: bool)
    ensures equal <==> a == b
  {
    hide Xor, Or;
    if |a| != |b| { return false; }
    var diff: nat := 0;
    for i := 0 to |a|
      invariant diff == 0 <==> a[..i] == b[..i]
    {
      XorIsZeroWhenSame(a[i], b[i]);
      OrIsZeroWhenBoth(diff, Xor(a[i], b[i]));
      assert a[..i + 1] == a[..i] + [a[i]] && b[..i + 1] == b[..i] + [b[i]];
      diff := Or(diff, Xor(a[i], b[i]));
    }
    assert a[..|a|] == a && b[..|b|] == b;
    equal := diff == 0;
  }

  // ----- Which pairs read as what -----

  /** The digits of either case, each at its own value. */
  lemma DigitsRead(c: char)
    ensures HexValue(c) ==
      if c in "0123456789" then Some(c as int - 48)
      else if c in "abcdef" then Some(c as int - 87)
      else if c in "ABCDEF" then Some(c as int - 55)
      else None
  {
  }

  /**
   Every two-character string: two digits read as one byte, a digit with anything behind it as itself unless it is the
   prefix 0x, a blank or a sign in front of a digit as that digit, and the rest not at all.
   */
  lemma PairReads(a: char, b: char)
    ensures var x, y := HexValue(a), HexValue(b);
      ParseInt16([a, b]) ==
        if x.Some? && y.Some? then Some(16 * x.value + y.value)
        else if a == '0' && b in "xX" then None
        else if x.Some? then Some(x.value)
        else if (IsBlank(a) || a == '+') && y.Some? then Some(y.value)
        else if a == '-' && y.Some? then (var low: int := y.value; Some(-low))
        else None
  {
    var s := [a, b];
    assert s[1..] == [b] && [b][1..] == "" && s[2..] == "";
    Blanks(a);
    Blanks(b);
    assert SkipBlanks([b]) == if IsBlank(b) then "" else [b];
    assert SkipBlanks(s) == if IsBlank(a) then SkipBlanks([b]) else s;
    PrefixOfOne(b);
    PrefixOfTwo(a, b);
    hide SkipBlanks, HexPrefix, IsBlank, HexValue;
  }

  lemma PrefixOfOne(b: char)
    ensures HexValue(b).Some? ==> HexPrefix([b], 0) == HexValue(b).value
  {
    assert [b][1..] == "";
    if HexValue(b).Some? { assert HexPrefix([b], 0) == HexPrefix("", 0 * 16 + HexValue(b).value); }
  }

  lemma PrefixOfTwo(a: char, b: char)
    ensures HexValue(a).Some? ==>
      HexPrefix([a, b], 0) ==
        if HexValue(b).Some? then 16 * HexValue(a).value + HexValue(b).value else HexValue(a).value
  {
    assert [a, b][1..] == [b] && [b][1..] == "";
    if HexValue(a).Some? {
      var x := HexValue(a).value;
      assert HexPrefix([a, b], 0) == HexPrefix([b], 0 * 16 + x);
      if HexValue(b).Some? { assert HexPrefix([b], x) == HexPrefix("", x * 16 + HexValue(b).value); }
    }
  }

  /** No digit and no sign is white space. */
  lemma Blanks(c: char)
    ensures IsBlank(c) ==> HexValue(c) == None && c !in "+-xX"
  {
  }

  /** The prefix is dropped once and in lower case only; an odd rest is refused. */
  lemma PrefixIsDropped(s: string)
    ensures Decoded("0x" + s) == if |s| % 2 != 0 then Err(OddLength) else Unhex(s)
    ensures |s| >= 2 && s[..2] != "0x" ==> Decoded(s) == if |s| % 2 != 0 then Err(OddLength) else Unhex(s)
  {
    hide Unhex;
    assert ("0x" + s)[2..] == s;
    if |s| >= 2 && s[0] == '0' && s[1] == 'x' { assert s[..2] == "0x"; }
  }

  /** White space by code point. */
  lemma BlankCodes(c: char)
    ensures IsBlank(c) <==>
      var n := c as int;
      9 <= n <= 13 || n in {32, 160, 5760, 8232, 8233, 8239, 8287, 12288, 65279} || 8192 <= n <= 8202
  {
  }
}
