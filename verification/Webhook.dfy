/** Webhook signatures: `t=<unix seconds>,v1=<hex MAC>`, bound to the payload and accepted within a time window. */
module Webhook {
  import opened Prelude
  import opened Encoding
  import Decimal

  const MAX_SAFE := 0x1F_FFFF_FFFF_FFFF

  /** What `Number(s)` gives: an integer, a fraction, or neither (NaN and the infinities). */
  datatype JsNumber = Whole(n: int) | Fraction | NotFinite

  /** The runtime's own functions: number parsing and printing, and the MAC. */
  datatype Runtime = Runtime(number: string -> JsNumber, show: int -> string, hmac: (string, string) -> seq<byte>)

  /** Decimal digits of safe integers read and print as such, and a MAC has 32 bytes. */
  ghost predicate Standard(js: Runtime) {
    && (forall s :: s != "" && Decimal.AllDigits(s) && Decimal.DigitsValue(s) <= MAX_SAFE ==>
          js.number(s) == Whole(Decimal.DigitsValue(s)))
    && (forall n: nat :: n <= MAX_SAFE ==> js.show(n) == Decimal.Print(n))
    && (forall key, message :: |js.hmac(key, message)| == 32)
  }

  datatype Reason =
    MalformedHeader | MissingTimestamp | MissingSignature | TimestampOutOfRange | SignatureMismatch

  datatype Verdict = Valid | Invalid(reason: Reason)

  // ----- Strings -----

  function IndexOf(s: string, c: char): (i: int)
    ensures -1 <= i < |s|
    ensures i == -1 <==> c !in s
    ensures i >= 0 ==> s[i] == c && c !in s[..i]
  {
    if s == "" then -1
    else if s[0] == c then 0
    else
      var i := IndexOf(s[1..], c);
      assert s == [s[0]] + s[1..];
      if i < 0 then -1 else
        assert s[..i + 1] == [s[0]] + s[1..][..i];
        i + 1
  }

  function Split(s: string, c: char): (parts: seq<string>)
    ensures parts != []
    decreases |s|
  {
    if IndexOf(s, c) < 0 then [s] else [s[..IndexOf(s, c)]] + Split(s[IndexOf(s, c) + 1..], c)
  }

  function TrimEnd(s: string): string {
    if s != "" && IsBlank(s[|s| - 1]) then TrimEnd(s[..|s| - 1]) else s
  }

  function Trim(s: string): string { TrimEnd(SkipBlanks(s)) }

  lemma {:induction false} FirstIndex(a: string, c: char, b: string)
    requires c !in a
    ensures IndexOf(a + [c] + b, c) == |a|
  {
    if a != "" {
      assert a == [a[0]] + a[1..] && (a + [c] + b)[1..] == a[1..] + [c] + b;
      FirstIndex(a[1..], c, b);
    }
  }

  lemma SplitTwo(a: string, c: char, b: string)
    requires c !in a && c !in b
    ensures Split(a + [c] + b, c) == [a, b]
  {
    FirstIndex(a, c, b);
    assert (a + [c] + b)[..|a|] == a && (a + [c] + b)[|a| + 1..] == b;
  }

  lemma TrimSolid(s: string)
    requires forall i :: 0 <= i < |s| ==> !IsBlank(s[i])
    ensures Trim(s) == s
  {
  }

  predicate AllBlank(s: string) { forall i :: 0 <= i < |s| ==> IsBlank(s[i]) }

  /** Trimming takes the white space off both ends and nothing else. */
  lemma TrimsEnds(s: string) returns (a: string, b: string)
    ensures s == a + Trim(s) + b && AllBlank(a) && AllBlank(b)
    ensures Trim(s) != "" ==> !IsBlank(Trim(s)[0]) && !IsBlank(Trim(s)[|Trim(s)| - 1])
  {
    hide IsBlank;
    a := SkipsFront(s);
    b := TrimsBack(SkipBlanks(s));
    if Trim(s) != "" { assert Trim(s)[0] == SkipBlanks(s)[0]; }
  }

  lemma {:induction false} SkipsFront(s: string) returns (a: string)
    ensures s == a + SkipBlanks(s) && AllBlank(a) && (SkipBlanks(s) != "" ==> !IsBlank(SkipBlanks(s)[0]))
  {
    a := "";
    if s != "" && IsBlank(s[0]) {
      a := SkipsFront(s[1..]);
      assert s == [s[0]] + s[1..];
      a := [s[0]] + a;
    }
  }

  lemma {:induction false} TrimsBack(s: string) returns (b: string)
    ensures s == TrimEnd(s) + b && AllBlank(b) && (TrimEnd(s) != "" ==> !IsBlank(TrimEnd(s)[|TrimEnd(s)| - 1]))
  {
    b := "";
    if s != "" && IsBlank(s[|s| - 1]) {
      b := TrimsBack(s[..|s| - 1]);
      assert s == s[..|s| - 1] + [s[|s| - 1]];
      b := b + [s[|s| - 1]];
    }
  }

  function Join(parts: seq<string>, c: char): string
    requires parts != []
  {
    if |parts| == 1 then parts[0] else parts[0] + [c] + Join(parts[1..], c)
  }

  predicate NoneHas(parts: seq<string>, c: char) { forall p :: p in parts ==> c !in p }

  lemma JoinsOneMore(part: string, parts: seq<string>, c: char)
    requires parts != []
    ensures Join([part] + parts, c) == part + [c] + Join(parts, c)
    ensures c !in part && NoneHas(parts, c) ==> NoneHas([part] + parts, c)
  {
    assert ([part] + parts)[1..] == parts;
  }

  lemma CutsOnce(s: string, c: char) returns (at: int)
    ensures c !in s ==> Split(s, c) == [s]
    ensures c in s ==> 0 <= at < |s| && s == s[..at] + [c] + s[at + 1..] && c !in s[..at]
    ensures c in s ==> Split(s, c) == [s[..at]] + Split(s[at + 1..], c)
  {
    at := IndexOf(s, c);
    hide IndexOf;
  }

  /** Splitting cuts at every separator: the parts hold none, and joined with it they are the string. */
  lemma {:induction false} SplitJoins(s: string, c: char)
    ensures Join(Split(s, c), c) == s && NoneHas(Split(s, c), c)
    decreases |s|
  {
    hide Split;
    var at := CutsOnce(s, c);
    if c in s {
      SplitJoins(s[at + 1..], c);
      hide Join, NoneHas;
      JoinsOneMore(s[..at], Split(s[at + 1..], c), c);
    }
  }

  // ----- The header -----

  datatype Fields = Fields(timestamp: Option<int>, signature: Option<string>)

  /** One `key=value` part: `t` must be a whole number, unknown keys are skipped, a part without a key is malformed. */
  function ReadPart(js: Runtime, so: Fields, part: string): Option<Fields> {
    var eq := IndexOf(part, '=');
    if eq <= 0 then None
    else
      var key, value := Trim(part[..eq]), Trim(part[eq + 1..]);
      if key == "t" then
        (match js.number(value) case Whole(n) => Some(so.(timestamp := Some(n))) case _ => None)
      else if key == "v1" then Some(so.(signature := Some(value)))
      else Some(so)
  }

  function ReadParts(js: Runtime, parts: seq<string>): Option<Fields> {
    if parts == [] then Some(Fields(None, None))
    else
      match ReadParts(js, parts[..|parts| - 1])
      case None => None
      case Some(so) => ReadPart(js, so, parts[|parts| - 1])
  }

  function ReadHeader(js: Runtime, header: string): Option<Fields> {
    if header == "" then None else ReadParts(js, Split(header, ','))
  }

  lemma {:induction false} MalformedStays(js: Runtime, parts: seq<string>, i: nat)
    requires i <= |parts| && ReadParts(js, parts[..i]).None?
    ensures ReadParts(js, parts).None?
  {
    if i == |parts| {
      assert parts[..i] == parts;
    } else {
      assert parts[..|parts| - 1][..i] == parts[..i];
      MalformedStays(js, parts[..|parts| - 1], i);
    }
  }

  function KeyOf(part: string): string
    requires '=' in part
  {
    Trim(part[..IndexOf(part, '=')])
  }

  function ValueIn(part: string): string
    requires '=' in part
  {
    Trim(part[IndexOf(part, '=') + 1..])
  }

  /** A part without a key, or with a time that is no whole number. */
  predicate IsBad(js: Runtime, part: string) {
    '=' !in part || part[0] == '=' || (KeyOf(part) == "t" && !js.number(ValueIn(part)).Whole?)
  }

  predicate HasKey(part: string, key: string) { '=' in part && KeyOf(part) == key }

  lemma PartReads(js: Runtime, so: Fields, part: string)
    ensures ReadPart(js, so, part) ==
      if IsBad(js, part) then None
      else if HasKey(part, "t") then Some(so.(timestamp := Some(js.number(ValueIn(part)).n)))
      else if HasKey(part, "v1") then Some(so.(signature := Some(ValueIn(part))))
      else Some(so)
  {
    hide Trim;
  }

  /** The place of the last part with the key, or -1. */
  function LastPlace(parts: seq<string>, key: string): (i: int)
    ensures -1 <= i < |parts|
    ensures i >= 0 ==> HasKey(parts[i], key)
    ensures forall j :: i < j < |parts| ==> !HasKey(parts[j], key)
  {
    if parts == [] then -1
    else if HasKey(parts[|parts| - 1], key) then |parts| - 1
    else LastPlace(parts[..|parts| - 1], key)
  }

  /** The header is malformed exactly when some part is bad; otherwise the last part of each kind gives its field. */
  lemma {:induction false} LastFieldsWin(js: Runtime, parts: seq<string>)
    ensures ReadParts(js, parts).None? <==> exists i :: 0 <= i < |parts| && IsBad(js, parts[i])
    ensures ReadParts(js, parts).Some? ==>
      var f, t, v := ReadParts(js, parts).value, LastPlace(parts, "t"), LastPlace(parts, "v1");
      && (if t < 0 then f.timestamp == None
          else js.number(ValueIn(parts[t])).Whole? && f.timestamp == Some(js.number(ValueIn(parts[t])).n))
      && f.signature == if v < 0 then None else Some(ValueIn(parts[v]))
  {
    hide ReadPart, Trim, HasKey, KeyOf, ValueIn;
    if parts != [] {
      var front, last := parts[..|parts| - 1], parts[|parts| - 1];
      LastFieldsWin(js, front);
      assert forall i :: 0 <= i < |front| ==> front[i] == parts[i];
      if ReadParts(js, front).Some? { PartReads(js, ReadParts(js, front).value, last); }
      KeysDiffer(js, last);
      hide IsBad;
      if i :| 0 <= i < |parts| && IsBad(js, parts[i]) { assert i < |front| ==> IsBad(js, front[i]); }
      if i :| 0 <= i < |front| && IsBad(js, front[i]) { assert IsBad(js, parts[i]); }
    }
  }

  lemma KeysDiffer(js: Runtime, part: string)
    ensures !(HasKey(part, "t") && HasKey(part, "v1"))
    ensures HasKey(part, "t") || HasKey(part, "v1") ==> '=' in part
    ensures HasKey(part, "t") && !IsBad(js, part) ==> js.number(ValueIn(part)).Whole?
  {
  }

  /** `parseSignatureHeader`: later parts overwrite earlier ones. */
  method ParseSignatureHeader(js: Runtime, header: string) returns (r: Option<Fields>)
    ensures r == ReadHeader(js, header)
  {
    hide ReadPart;
    if header == "" { return None; }
    var parts := Split(header, ',');
    var timestamp: Option<int>, signature: Option<string> := None, None;
    assert parts[..0] == [];
    for i := 0 to |parts|
      invariant ReadParts(js, parts[..i]) == Some(Fields(timestamp, signature))
    {
      assert parts[..i + 1][..i] == parts[..i];
      PartOutcome(js, Fields(timestamp, signature), parts[i]);
      var eq := IndexOf(parts[i], '=');
      if eq <= 0 { MalformedStays(js, parts, i + 1); return None; }
      var key, value := Trim(parts[i][..eq]), Trim(parts[i][eq + 1..]);
      if key == "t" {
        var n := js.number(value);
        if !n.Whole? { MalformedStays(js, parts, i + 1); return None; }
        timestamp := Some(n.n);
      } else if key == "v1" {
        signature := Some(value);
      }
    }
    assert parts[..|parts|] == parts;
    r := Some(Fields(timestamp, signature));
  }

  lemma PartOutcome(js: Runtime, so: Fields, part: string)
    ensures var eq := IndexOf(part, '=');
      if eq <= 0 then ReadPart(js, so, part) == None
      else
        var key, value := Trim(part[..eq]), Trim(part[eq + 1..]);
        if key == "t" then
          ReadPart(js, so, part) ==
            if js.number(value).Whole? then Some(so.(timestamp := Some(js.number(value).n))) else None
        else ReadPart(js, so, part) == Some(if key == "v1" then so.(signature := Some(value)) else so)
  {
  }

  // ----- Signing and verifying -----

  function Signed(js: Runtime, payload: string, secret: string, t: int): string {
    "t=" + js.show(t) + "," + "v1=" + Hex(js.hmac(secret, js.show(t) + "." + payload))
  }

  method SignWebhookPayload(js: Runtime, payload: string, secret: string, t: int) returns (header: string)
    ensures header == Signed(js, payload, secret, t)
  {
    var mac := js.hmac(secret, js.show(t) + "." + payload);
    var hex := ToHex(mac);
    header := "t=" + js.show(t) + "," + "v1=" + hex;
  }

  function Distance(a: int, b: int): (d: nat)
    ensures d == a - b || d == b - a
  {
    if a < b then b - a else a - b
  }

  /**
   `verifyWebhookSignature`. The header is valid exactly when it carries a timestamp within the tolerance and the hex
   of the MAC over that timestamp and the payload; otherwise the first thing wrong with it is named.
   */
  method VerifyWebhookSignature(js: Runtime, payload: string, header: string, secret: string, tolerance: int, now: int)
    returns (v: Verdict)
    ensures v == Invalid(MalformedHeader) <==> ReadHeader(js, header).None?
    ensures ReadHeader(js, header).Some? ==>
      var f := ReadHeader(js, header).value;
      && (v == Invalid(MissingTimestamp) <==> f.timestamp.None?)
      && (v == Invalid(MissingSignature) <==> f.timestamp.Some? && f.signature in {None, Some("")})
      && (f.timestamp.Some? && f.signature !in {None, Some("")} ==>
            var t, provided := f.timestamp.value, Decoded(f.signature.value);
            && (v == Invalid(TimestampOutOfRange) <==> Distance(now, t) > tolerance)
            && (v == Valid <==>
                  Distance(now, t) <= tolerance && provided == Ok(js.hmac(secret, js.show(t) + "." + payload))))
  {
    hide ReadHeader, Decoded;
    var parsed := ParseSignatureHeader(js, header);
    if parsed.None? { return Invalid(MalformedHeader); }
    var Fields(timestamp, signature) := parsed.value;
    if timestamp.None? { return Invalid(MissingTimestamp); }
    if signature.None? || signature.value == "" { return Invalid(MissingSignature); }
    if Distance(now, timestamp.value) > tolerance { return Invalid(TimestampOutOfRange); }
    var expected := js.hmac(secret, js.show(timestamp.value) + "." + payload);
    var provided := FromHex(signature.value);
    if provided.Err? { return Invalid(SignatureMismatch); }
    var equal := TimingSafeEqual(expected, provided.value);
    v := if equal then Valid else Invalid(SignatureMismatch);
  }

  // ----- Round trip -----

  lemma SolidDigits(n: nat)
    ensures forall i :: 0 <= i < |Decimal.Print(n)| ==>
      !IsBlank(Decimal.Print(n)[i]) && Decimal.Print(n)[i] !in {',', '='}
  {
    assert forall c: char :: Decimal.IsDigit(c) ==> !IsBlank(c) && c != ',' && c != '=';
  }

  lemma TimestampPart(js: Runtime, so: Fields, t: nat)
    requires Standard(js) && t <= MAX_SAFE
    ensures ReadPart(js, so, "t=" + js.show(t)) == Some(so.(timestamp := Some(t)))
  {
    var digits := Decimal.Print(t);
    FirstIndex("t", '=', digits);
    assert "t=" + digits == "t" + ['='] + digits;
    assert ("t=" + digits)[..1] == "t" && ("t=" + digits)[2..] == digits;
    SolidDigits(t);
    TrimSolid("t");
    TrimSolid(digits);
    Decimal.ValueOfPrint(t);
  }

  lemma SignaturePart(js: Runtime, so: Fields, mac: seq<byte>)
    ensures ReadPart(js, so, "v1=" + Hex(mac)) == Some(so.(signature := Some(Hex(mac))))
  {
    FirstIndex("v1", '=', Hex(mac));
    assert "v1=" + Hex(mac) == "v1" + ['='] + Hex(mac);
    assert ("v1=" + Hex(mac))[..2] == "v1" && ("v1=" + Hex(mac))[3..] == Hex(mac);
    PrintedChars(mac);
    TrimSolid("v1");
    TrimSolid(Hex(mac));
  }

  lemma ReadsTwo(js: Runtime, first: string, second: string)
    ensures ReadParts(js, [first, second]) ==
      match ReadPart(js, Fields(None, None), first) case None => None case Some(so) => ReadPart(js, so, second)
  {
    hide ReadPart;
    assert [first, second][..1] == [first] && [first][..0] == [];
    assert ReadParts(js, [first]) == ReadPart(js, Fields(None, None), first);
  }

  /** What a header looks like, with the time in decimal. */
  lemma SignedLooks(js: Runtime, payload: string, secret: string, t: nat)
    requires Standard(js) && t <= MAX_SAFE
    ensures Signed(js, payload, secret, t) ==
            "t=" + Decimal.Print(t) + ",v1=" + Hex(js.hmac(secret, Decimal.Print(t) + "." + payload))
  {
    var front, mac := "t=" + Decimal.Print(t), Hex(js.hmac(secret, Decimal.Print(t) + "." + payload));
    hide Hex, Decimal.Print;
    assert front + "," + "v1=" + mac == front + ",v1=" + mac;
  }

  /** A signed header reads back as the timestamp and the printed MAC. */
  lemma SignedHeaderReads(js: Runtime, payload: string, secret: string, t: nat)
    requires Standard(js) && t <= MAX_SAFE
    ensures ReadHeader(js, Signed(js, payload, secret, t)) ==
            Some(Fields(Some(t), Some(Hex(js.hmac(secret, js.show(t) + "." + payload)))))
  {
    var mac := js.hmac(secret, js.show(t) + "." + payload);
    var first, second := "t=" + js.show(t), "v1=" + Hex(mac);
    SolidDigits(t);
    PrintedChars(mac);
    hide ReadPart, Hex;
    SplitTwo(first, ',', second);
    assert Signed(js, payload, secret, t) == first + [','] + second;
    TimestampPart(js, Fields(None, None), t);
    SignaturePart(js, Fields(Some(t), None), mac);
    ReadsTwo(js, first, second);
  }

  /**
   Sign, then verify, with any payload and secret on either side: the verdict is valid exactly when the clock is
   within the tolerance and both sides compute the same MAC; in particular for the payload and secret signed, exactly
   when the clock is within the tolerance.
   */
  method SignThenVerify(js: Runtime, payload: string, secret: string, t: nat,
                        receivedPayload: string, receivedSecret: string, tolerance: int, now: int) returns (v: Verdict)
    requires Standard(js) && t <= MAX_SAFE
    ensures v == Valid <==>
      Distance(now, t) <= tolerance &&
      js.hmac(receivedSecret, js.show(t) + "." + receivedPayload) == js.hmac(secret, js.show(t) + "." + payload)
    ensures v == Invalid(TimestampOutOfRange) <==> Distance(now, t) > tolerance
    ensures receivedPayload == payload && receivedSecret == secret ==> (v == Valid <==> Distance(now, t) <= tolerance)
  {
    var header := SignWebhookPayload(js, payload, secret, t);
    SignedHeaderReads(js, payload, secret, t);
    HexRoundTrip(js.hmac(secret, js.show(t) + "." + payload));
    v := VerifyWebhookSignature(js, receivedPayload, header, receivedSecret, tolerance, now);
  }
}
