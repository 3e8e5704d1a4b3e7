/** The KMS signer: from the service's DER signature to the one low-s signature that recovers to its address. */
module Signer {
  import opened Prelude
  import opened Der

  type Address = string

  const N := 0xfffffffffffffffffffffffffffffffebaaedce6af48a03bbfd25e8cd0364141
  const HALF_N := N / 2

  /** The order of secp256k1 as its standard gives it: 2^256 less a 129-bit number, and odd. */
  lemma CurveOrder()
    ensures N == 0x1_0000_0000_0000_0000_0000_0000_0000_0000_0000_0000_0000_0000_0000_0000_0000_0000
                 - 432420386565659656852420866394968145599
    ensures N == 2 * HALF_N + 1
  {
  }

  datatype Signature = Signature(r: nat, s: nat, yParity: nat)

  datatype SignError =
    | WrongDigestLength(length: nat)
    | NoSignature
    | BadEncoding(why: DerError)
    | OutsideCurveOrder
    | RecoversToAnother

  predicate InRange(p: Pair) { 0 < p.r < N && 0 < p.s < N }

  predicate SignsInRange(reply: seq<byte>) {
    DecodeSignature(reply).Ok? && InRange(DecodeSignature(reply).value)
  }

  /** The `s` at most half the curve order, of the two that sign alike. */
  function Low(s: nat): nat
    requires s < N
  {
    if s > HALF_N then N - s else s
  }

  /** Whether the signature with this parity recovers to the address; recovery itself is a parameter. */
  predicate Recovers(
      recover: (seq<byte>, Signature) -> Option<Address>, digest: seq<byte>, sig: Signature, address: Address) {
    recover(digest, sig) == Some(address)
  }

  /**
   `signDigest` after the service replied. A signature is returned exactly when the reply decodes to a pair in range
   one of whose low-s forms recovers to the address; even parity is tried first.
   */
  method SignDigest(digest: seq<byte>, reply: Option<seq<byte>>, address: Address,
                    recover: (seq<byte>, Signature) -> Option<Address>) returns (r: Result<Signature, SignError>)
    ensures |digest| != 32 <==> r == Err(WrongDigestLength(|digest|))
    ensures |digest| == 32 && reply.Some? && SignsInRange(reply.value) ==>
      var p := DecodeSignature(reply.value).value;
      var even, odd := Signature(p.r, Low(p.s), 0), Signature(p.r, Low(p.s), 1);
      && (r == Ok(even) <==> Recovers(recover, digest, even, address))
      && (r == Ok(odd) <==> !Recovers(recover, digest, even, address) && Recovers(recover, digest, odd, address))
      && (r == Err(RecoversToAnother) <==>
            !Recovers(recover, digest, even, address) && !Recovers(recover, digest, odd, address))
    ensures r == Err(NoSignature) <==> |digest| == 32 && reply.None?
    ensures |digest| == 32 && reply.Some? ==>
      && (forall why :: r == Err(BadEncoding(why)) <==> DecodeSignature(reply.value) == Err(why))
      && (r == Err(OutsideCurveOrder) <==>
            DecodeSignature(reply.value).Ok?
            && (var Pair(x, s) := DecodeSignature(reply.value).value; x == 0 || x >= N || s == 0 || s >= N))
    ensures r.Ok? ==>
      && |digest| == 32 && reply.Some? && SignsInRange(reply.value)
      && r.value.r == DecodeSignature(reply.value).value.r && r.value.s == Low(DecodeSignature(reply.value).value.s)
      && 1 <= r.value.r < N && 1 <= r.value.s <= HALF_N && r.value.yParity < 2
      && Recovers(recover, digest, r.value, address)
  {
    if |digest| != 32 { return Err(WrongDigestLength(|digest|)); }
    if reply.None? { return Err(NoSignature); }
    var decoded := DecodeEcdsaSignature(reply.value);
    if decoded.Err? { return Err(BadEncoding(decoded.error)); }
    var Pair(x, s) := decoded.value;
    if x == 0 || x >= N || s == 0 || s >= N { return Err(OutsideCurveOrder); }
    var low := if s > HALF_N then N - s else s;
    for yParity := 0 to 2
      invariant forall k: nat :: k < yParity ==> !Recovers(recover, digest, Signature(x, low, k), address)
    {
      var signature := Signature(x, low, yParity);
      if recover(digest, signature) == Some(address) { return Ok(signature); }
    }
    r := Err(RecoversToAnother);
  }

  /** Both spellings of a signature, with `s` and with `N - s`, decode to pairs in range with one low-s form. */
  lemma BothFormsSignAlike(p: Pair)
    requires InRange(p)
    ensures var other := Pair(p.r, N - p.s);
      var one, two := DecodeSignature(EncodeSignature(p)), DecodeSignature(EncodeSignature(other));
      && one == Ok(p) && two == Ok(other) && InRange(other)
      && Low(p.s) == Low(N - p.s) && 1 <= Low(p.s) <= HALF_N
  {
    RoundTrip(p);
    RoundTrip(Pair(p.r, N - p.s));
  }
}
