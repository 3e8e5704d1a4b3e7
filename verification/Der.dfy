/** DER as KMS returns it: one element reader, and the ECDSA signature made of two integers. */
module Der {
  import opened Prelude

  const SEQUENCE: byte := 0x30
  const INTEGER: byte := 0x02

  datatype DerError =
    | WrongTag(offset: nat)
    | TruncatedLength
    | UnsupportedLength(size: nat)
    | PastTheEnd
    | TrailingBytes
    | TrailingAfterS
    | EmptyInteger
    | NegativeInteger

  datatype Element = Element(content: seq<byte>, end: nat)

  datatype Pair = Pair(r: nat, s: nat)

  /** Big-endian value. */
  function ValueOf(bytes: seq<byte>): nat {
    if bytes == [] then 0 else ValueOf(bytes[..|bytes| - 1]) * 256 + bytes[|bytes| - 1]
  }

  // ----- Reading one element -----

  /** Where the content starts and how long it is: the short form, or a long form of one or two bytes. */
  function ReadLength(bytes: seq<byte>, at: nat): Result<(nat, nat), DerError> {
    if at >= |bytes| then Err(TruncatedLength)
    else if bytes[at] < 0x80 then Ok((at + 1, bytes[at]))
    else if bytes[at] == 0x80 || bytes[at] > 0x82 then Err(UnsupportedLength(bytes[at] - 0x80))
    else if at + (bytes[at] - 0x80) >= |bytes| then Err(TruncatedLength)
    else Ok((at + 1 + (bytes[at] - 0x80), ValueOf(bytes[at + 1..at + 1 + (bytes[at] - 0x80)])))
  }

  function ElementAt(bytes: seq<byte>, offset: nat, tag: byte): (r: Result<Element, DerError>)
    ensures r.Ok? ==> offset + 2 + |r.value.content| <= r.value.end <= |bytes|
  {
    if offset >= |bytes| || bytes[offset] != tag then Err(WrongTag(offset))
    else
      match ReadLength(bytes, offset + 1)
      case Err(e) => Err(e)
      case Ok((start, length)) =>
        if start + length > |bytes| then Err(PastTheEnd) else Ok(Element(bytes[start..start + length], start + length))
  }

  lemma ValueOneMore(bytes: seq<byte>, b: byte)
    ensures ValueOf(bytes + [b]) == ValueOf(bytes) * 256 + b
  {
    assert (bytes + [b])[..|bytes|] == bytes;
  }

  lemma ValueOfNext(bytes: seq<byte>, start: nat, i: nat)
    requires start + i < |bytes|
    ensures ValueOf(bytes[start..start + i + 1]) == ValueOf(bytes[start..start + i]) * 256 + bytes[start + i]
  {
    ValueOneMore(bytes[start..start + i], bytes[start + i]);
    assert bytes[start..start + i + 1] == bytes[start..start + i] + [bytes[start + i]];
  }

  lemma ValueOfNone(bytes: seq<byte>, start: nat)
    requires start <= |bytes|
    ensures ValueOf(bytes[start..start]) == 0
  {
  }

  /** `readElement`, accumulating a long length byte by byte. */
  method ReadElement(bytes: seq<byte>, offset: nat, tag: byte) returns (r: Result<Element, DerError>)
    ensures r == ElementAt(bytes, offset, tag)
  {
    hide ValueOf;
    if offset >= |bytes| || bytes[offset] != tag { return Err(WrongTag(offset)); }
    if offset + 1 >= |bytes| { return Err(TruncatedLength); }
    var first := bytes[offset + 1];
    var length: nat, start := first, offset + 2;
    if first >= 0x80 {
      var size := first - 0x80;
      if size == 0 || size > 2 { return Err(UnsupportedLength(size)); }
      length := 0;
      ValueOfNone(bytes, start);
      for i := 0 to size
        invariant start + i <= |bytes| && length == ValueOf(bytes[start..start + i])
      {
        if start + i >= |bytes| { return Err(TruncatedLength); }
        ValueOfNext(bytes, start, i);
        length := length * 256 + bytes[start + i];
      }
      start := start + size;
    }
    if start + length > |bytes| { return Err(PastTheEnd); }
    r := Ok(Element(bytes[start..start + length], start + length));
  }

  // ----- What an element looks like -----

  /** A header of the tag for `n` bytes of content, in any of the accepted length forms, minimal or not. */
  ghost predicate Header(h: seq<byte>, tag: byte, n: nat) {
    || (n < 0x80 && h == [tag, n])
    || (n < 0x100 && h == [tag, 0x81, n])
    || (n < 0x10000 && h == [tag, 0x82, n / 256, n % 256])
  }

  lemma ValueOfOne(b: byte)
    ensures ValueOf([b]) == b
  {
    assert [] + [b] == [b];
    ValueOneMore([], b);
  }

  lemma ValueOfTwo(a: byte, b: byte)
    ensures ValueOf([b]) == b && ValueOf([a, b]) == a * 256 + b
  {
    ValueOfOne(a);
    ValueOfOne(b);
    hide ValueOf;
    assert [a] + [b] == [a, b];
    ValueOneMore([a], b);
  }

  /** A header followed by as much content as it announces is read as that content. */
  lemma ReadsHeader(before: seq<byte>, h: seq<byte>, content: seq<byte>, after: seq<byte>, tag: byte)
    requires Header(h, tag, |content|)
    ensures ElementAt(before + h + content + after, |before|, tag) ==
            Ok(Element(content, |before| + |h| + |content|))
  {
    var bytes, at := before + h + content + after, |before|;
    assert forall i :: 0 <= i < |h| ==> bytes[at + i] == h[i];
    assert bytes[at + |h|..at + |h| + |content|] == content;
    if |h| == 3 {
      assert bytes[at + 2..at + 3] == [h[2]];
      ValueOfTwo(0, h[2]);
    } else if |h| == 4 {
      assert bytes[at + 2..at + 4] == [h[2], h[3]];
      ValueOfTwo(h[2], h[3]);
    }
  }

  /** Whatever is read is a header and the content it announces. */
  lemma HeaderRead(bytes: seq<byte>, offset: nat, tag: byte) returns (h: seq<byte>)
    requires ElementAt(bytes, offset, tag).Ok?
    ensures var e := ElementAt(bytes, offset, tag).value;
      Header(h, tag, |e.content|) && bytes[offset..e.end] == h + e.content
  {
    var e := ElementAt(bytes, offset, tag).value;
    var start := e.end - |e.content|;
    h := bytes[offset..start];
    if start == offset + 3 {
      assert bytes[offset + 2..offset + 3] == [bytes[offset + 2]];
      ValueOfTwo(0, bytes[offset + 2]);
      assert h == [tag, 0x81, bytes[offset + 2]];
    } else if start == offset + 4 {
      assert bytes[offset + 2..offset + 4] == [bytes[offset + 2], bytes[offset + 3]];
      ValueOfTwo(bytes[offset + 2], bytes[offset + 3]);
      assert h == [tag, 0x82, bytes[offset + 2], bytes[offset + 3]];
    } else {
      assert h == [tag, bytes[offset + 1]];
    }
  }

  // ----- Signatures -----

  function PositiveInteger(content: seq<byte>): Result<nat, DerError> {
    if content == [] then Err(EmptyInteger)
    else if content[0] >= 0x80 then Err(NegativeInteger)
    else Ok(ValueOf(content))
  }

  function DecodeBody(body: seq<byte>): Result<Pair, DerError> {
    match ElementAt(body, 0, INTEGER)
    case Err(e) => Err(e)
    case Ok(r) =>
      match ElementAt(body, r.end, INTEGER)
      case Err(e) => Err(e)
      case Ok(s) =>
        if s.end != |body| then Err(TrailingAfterS)
        else
          match PositiveInteger(r.content)
          case Err(e) => Err(e)
          case Ok(x) =>
            match PositiveInteger(s.content)
            case Err(e) => Err(e)
            case Ok(y) => Ok(Pair(x, y))
  }

  /** `decodeEcdsaSignature`. */
  function DecodeSignature(der: seq<byte>): Result<Pair, DerError> {
    match ElementAt(der, 0, SEQUENCE)
    case Err(e) => Err(e)
    case Ok(sequence) => if sequence.end != |der| then Err(TrailingBytes) else DecodeBody(sequence.content)
  }

  method DecodeEcdsaSignature(der: seq<byte>) returns (p: Result<Pair, DerError>)
    ensures p == DecodeSignature(der)
  {
    var sequence := ReadElement(der, 0, SEQUENCE);
    if sequence.Err? { return Err(sequence.error); }
    if sequence.value.end != |der| { return Err(TrailingBytes); }
    var body := sequence.value.content;
    var r := ReadElement(body, 0, INTEGER);
    if r.Err? { return Err(r.error); }
    var s := ReadElement(body, r.value.end, INTEGER);
    if s.Err? { return Err(s.error); }
    if s.value.end != |body| { return Err(TrailingAfterS); }
    var x, y := PositiveInteger(r.value.content), PositiveInteger(s.value.content);
    if x.Err? { return Err(x.error); }
    if y.Err? { return Err(y.error); }
    p := Ok(Pair(x.value, y.value));
  }

  /** `Ecdsa-Sig-Value`: a sequence of exactly two non-negative integers, spelled with these contents. */
  ghost predicate Spells(der: seq<byte>, r: seq<byte>, s: seq<byte>) {
    exists h, hr, hs ::
      && Header(hr, INTEGER, |r|) && Header(hs, INTEGER, |s|)
      && Header(h, SEQUENCE, |hr + r + hs + s|)
      && der == h + (hr + r + hs + s)
  }

  lemma BodyIsDecoded(hr: seq<byte>, r: seq<byte>, hs: seq<byte>, s: seq<byte>)
    requires Header(hr, INTEGER, |r|) && Header(hs, INTEGER, |s|) && PositiveInteger(r).Ok? && PositiveInteger(s).Ok?
    ensures DecodeBody(hr + r + hs + s) == Ok(Pair(ValueOf(r), ValueOf(s)))
  {
    PositiveValue(r);
    PositiveValue(s);
    hide Header, ElementAt, PositiveInteger, ValueOf;
    var body := hr + r + hs + s;
    ReadsHeader([], hr, r, hs + s, INTEGER);
    assert body == [] + hr + r + (hs + s);
    ReadsHeader(hr + r, hs, s, [], INTEGER);
    assert body == (hr + r) + hs + s + [];
  }

  lemma SpelledIsDecoded(der: seq<byte>, r: seq<byte>, s: seq<byte>)
    requires Spells(der, r, s) && PositiveInteger(r).Ok? && PositiveInteger(s).Ok?
    ensures DecodeSignature(der) == Ok(Pair(ValueOf(r), ValueOf(s)))
  {
    hide Header, ElementAt, PositiveInteger, DecodeBody;
    var h, hr, hs :|
      && Header(hr, INTEGER, |r|) && Header(hs, INTEGER, |s|)
      && Header(h, SEQUENCE, |hr + r + hs + s|)
      && der == h + (hr + r + hs + s);
    var body := hr + r + hs + s;
    BodyIsDecoded(hr, r, hs, s);
    ReadsHeader([], h, body, [], SEQUENCE);
    assert der == [] + h + body + [];
  }

  lemma DecodedBody(body: seq<byte>) returns (hr: seq<byte>, r: seq<byte>, hs: seq<byte>, s: seq<byte>)
    requires DecodeBody(body).Ok?
    ensures Header(hr, INTEGER, |r|) && Header(hs, INTEGER, |s|) && body == hr + r + hs + s
    ensures PositiveInteger(r) == Ok(DecodeBody(body).value.r) && PositiveInteger(s) == Ok(DecodeBody(body).value.s)
  {
    hide Header, ElementAt, PositiveInteger;
    var first := ElementAt(body, 0, INTEGER).value;
    var second := ElementAt(body, first.end, INTEGER).value;
    r, s := first.content, second.content;
    hr := HeaderRead(body, 0, INTEGER);
    hs := HeaderRead(body, first.end, INTEGER);
    Halves(body, first.end);
    assert hr + r + hs + s == (hr + r) + (hs + s);
  }

  lemma Halves(body: seq<byte>, at: nat)
    requires at <= |body|
    ensures body == body[0..at] + body[at..|body|]
  {
  }

  lemma DecodedIsSpelled(der: seq<byte>) returns (r: seq<byte>, s: seq<byte>)
    requires DecodeSignature(der).Ok?
    ensures Spells(der, r, s) && PositiveInteger(r) == Ok(DecodeSignature(der).value.r)
    ensures PositiveInteger(s) == Ok(DecodeSignature(der).value.s)
  {
    hide Header, ElementAt, PositiveInteger, DecodeBody;
    var h := HeaderRead(der, 0, SEQUENCE);
    var hr, hs;
    hr, r, hs, s := DecodedBody(ElementAt(der, 0, SEQUENCE).value.content);
    assert der[0..|der|] == der;
  }

  /** Decoding accepts exactly the spellings of two non-negative integers, to the last byte. */
  lemma DecodesExactlySignatures(der: seq<byte>, x: nat, y: nat)
    ensures DecodeSignature(der) == Ok(Pair(x, y)) <==>
      exists r, s :: Spells(der, r, s) && PositiveInteger(r) == Ok(x) && PositiveInteger(s) == Ok(y)
  {
    hide Spells, PositiveInteger, DecodeSignature;
    if DecodeSignature(der) == Ok(Pair(x, y)) {
      var r, s := DecodedIsSpelled(der);
    } else {
      forall r, s | Spells(der, r, s) && PositiveInteger(r) == Ok(x) && PositiveInteger(s) == Ok(y) ensures false {
        SpelledIsDecoded(der, r, s);
        PositiveValue(r);
        PositiveValue(s);
      }
    }
  }

  lemma PositiveValue(content: seq<byte>)
    ensures PositiveInteger(content).Ok? ==> PositiveInteger(content).value == ValueOf(content)
  {
  }

  // ----- Encoding -----

  function EncodeHeader(tag: byte, n: nat): (h: seq<byte>)
    requires n < 0x10000
    ensures Header(h, tag, n)
  {
    if n < 0x80 then [tag, n] else if n < 0x100 then [tag, 0x81, n] else [tag, 0x82, n / 256, n % 256]
  }

  /** Big-endian digits without a leading zero. */
  function Digits(x: nat): (d: seq<byte>)
    ensures ValueOf(d) == x
    ensures d != [] ==> d[0] != 0
  {
    if x == 0 then []
    else
      ValueOneMore(Digits(x / 256), x % 256);
      Digits(x / 256) + [x % 256]
  }

  /** Two's complement in as few bytes as possible: a zero byte in front when the first digit's high bit is set. */
  function EncodeInteger(x: nat): (d: seq<byte>)
    ensures PositiveInteger(d) == Ok(x)
  {
    if Digits(x) == [] || Digits(x)[0] >= 0x80 then
      LeadingZero(Digits(x));
      [0] + Digits(x)
    else Digits(x)
  }

  lemma {:induction false} LeadingZero(d: seq<byte>)
    ensures ValueOf([0] + d) == ValueOf(d)
  {
    if d == [] {
      assert [0] + d == [] + [0];
      ValueOneMore([], 0);
    } else {
      assert [0] + d == ([0] + d[..|d| - 1]) + [d[|d| - 1]];
      ValueOneMore([0] + d[..|d| - 1], d[|d| - 1]);
      LeadingZero(d[..|d| - 1]);
    }
  }

  function Power256(k: nat): nat {
    if k == 0 then 1 else 256 * Power256(k - 1)
  }

  lemma {:induction false} DigitsBound(x: nat, k: nat)
    requires x < Power256(k)
    ensures |Digits(x)| <= k
  {
    if x > 0 { DigitsBound(x / 256, k - 1); }
  }

  const TWO_TO_256 := 0x1_00000000_00000000_00000000_00000000_00000000_00000000_00000000_00000000

  lemma Word(x: nat)
    requires x < TWO_TO_256
    ensures |Digits(x)| <= 32
  {
    assert Power256(8) == 0x1_00000000_00000000;
    assert Power256(16) == 0x1_00000000_00000000_00000000_00000000;
    assert Power256(24) == 0x1_00000000_00000000_00000000_00000000_00000000_00000000;
    assert Power256(32) == TWO_TO_256;
    DigitsBound(x, 32);
  }

  function EncodeSignature(p: Pair): seq<byte>
    requires p.r < TWO_TO_256 && p.s < TWO_TO_256
  {
    Word(p.r);
    Word(p.s);
    var r, s := EncodeInteger(p.r), EncodeInteger(p.s);
    var body := EncodeHeader(INTEGER, |r|) + r + EncodeHeader(INTEGER, |s|) + s;
    EncodeHeader(SEQUENCE, |body|) + body
  }

  /** Decoding inverts the encoding of every pair of 256-bit values. */
  lemma RoundTrip(p: Pair)
    requires p.r < TWO_TO_256 && p.s < TWO_TO_256
    ensures DecodeSignature(EncodeSignature(p)) == Ok(p)
  {
    Word(p.r);
    Word(p.s);
    hide Header, ValueOf, Digits;
    var r, s := EncodeInteger(p.r), EncodeInteger(p.s);
    var hr, hs := EncodeHeader(INTEGER, |r|), EncodeHeader(INTEGER, |s|);
    var h := EncodeHeader(SEQUENCE, |hr + r + hs + s|);
    assert Spells(EncodeSignature(p), r, s) by {
      assert EncodeSignature(p) == h + (hr + r + hs + s);
    }
    SpelledIsDecoded(EncodeSignature(p), r, s);
    PositiveValue(r);
    PositiveValue(s);
  }

  /** Two encodings byte by byte: a leading zero keeps a high bit from reading as a sign. */
  lemma EncodedBytes()
    ensures EncodeSignature(Pair(1, 1)) == [0x30, 6, 0x02, 1, 1, 0x02, 1, 1]
    ensures EncodeSignature(Pair(128, 1)) == [0x30, 7, 0x02, 2, 0, 128, 0x02, 1, 1]
  {
    assert Digits(1) == [1] && Digits(128) == [128];
  }
}
