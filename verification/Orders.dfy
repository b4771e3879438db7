/** Signed orders: EIP-712 hashing and the two signature checks. */
module Orders {
  import opened Primitives
  import opened Encoding

  /** The nine signed fields. */
  datatype Terms = Terms(
    maker: Address,
    sellToken: Address,
    sellChainId: U64,
    sellAmount: U128,
    buyToken: Address,
    buyChainId: U64,
    buyAmount: U128,
    validUntil: U64,
    nonce: U64)

  /** An order as the book keeps it: the signed fields and the arrival time. */
  datatype Order = Order(terms: Terms, createdAt: U64)

  function Ascii(s: string): seq<Byte> {
    seq(|s|, i requires 0 <= i < |s| => s[i] as int % 256)
  }

  const ORDER_TYPE := "Order(address maker,address sellToken,uint256 sellChainId,uint256 sellAmount,address buyToken,uint256 buyChainId,uint256 buyAmount,uint256 validUntil,uint256 nonce)"
  const DOMAIN_TYPE := "EIP712Domain(string name,string version)"

  function OrderTypehash(): Word { KECCAK256(Ascii(ORDER_TYPE)) }

  function DomainSeparator(): Word {
    KECCAK256(AbiWords([KECCAK256(Ascii(DOMAIN_TYPE)), KECCAK256(Ascii("Kael")), KECCAK256(Ascii("1"))]))
  }

  function TermFields(o: Terms): (f: seq<Word>)
    ensures |f| == 10
  {
    [OrderTypehash(), o.maker, o.sellToken, o.sellChainId, o.sellAmount,
     o.buyToken, o.buyChainId, o.buyAmount, o.validUntil, o.nonce]
  }

  // -------- the Rust byte buffer --------

  function EncAddr(a: Address): (s: seq<Byte>) ensures |s| == 32 { Zeros(12) + BigEndian(a, 20) }

  function EncU128(v: U128): (s: seq<Byte>) ensures |s| == 32 { Zeros(16) + BigEndian(v, 16) }

  function EncU64(v: U64): (s: seq<Byte>) ensures |s| == 32 { Zeros(24) + BigEndian(v, 8) }

  lemma PaddingIsAbi(a: Address, v: U128, w: U64)
    ensures EncAddr(a) == BigEndian(a, 32)
    ensures EncU128(v) == BigEndian(v, 32)
    ensures EncU64(w) == BigEndian(w, 32)
  {
    WordWidth();
    assert Power256(8) == 0x1_0000_0000_0000_0000;
    assert Power256(16) == 0x1_0000_0000_0000_0000_0000_0000_0000_0000;
    PaddedIsWord(a, 20, 12);
    PaddedIsWord(v, 16, 16);
    PaddedIsWord(w, 8, 24);
  }

  lemma {:induction false} AbiWordsGrows(f: seq<Word>, k: nat)
    requires k < |f|
    ensures AbiWords(f[..k + 1]) == AbiWords(f[..k]) + BigEndian(f[k], 32)
  {
    if k == 0 {
      assert f[..1][1..] == [];
      assert BigEndian(f[0], 32) + AbiWords([]) == BigEndian(f[0], 32);
    } else {
      AbiWordsGrows(f[1..], k - 1);
      assert f[..k + 1][1..] == f[1..][..k] && f[..k][1..] == f[1..][..k - 1];
      assert AbiWords(f[..k + 1]) == BigEndian(f[0], 32) + (AbiWords(f[1..][..k - 1]) + BigEndian(f[k], 32));
    }
  }

  lemma FieldsEncoded(o: Terms)
    ensures var f := TermFields(o);
      && EncAddr(o.maker) == BigEndian(f[1], 32)
      && EncAddr(o.sellToken) == BigEndian(f[2], 32)
      && EncU64(o.sellChainId) == BigEndian(f[3], 32)
      && EncU128(o.sellAmount) == BigEndian(f[4], 32)
      && EncAddr(o.buyToken) == BigEndian(f[5], 32)
      && EncU64(o.buyChainId) == BigEndian(f[6], 32)
      && EncU128(o.buyAmount) == BigEndian(f[7], 32)
      && EncU64(o.validUntil) == BigEndian(f[8], 32)
      && EncU64(o.nonce) == BigEndian(f[9], 32)
  {
    PaddingIsAbi(o.maker, o.sellAmount, o.sellChainId);
    PaddingIsAbi(o.sellToken, o.buyAmount, o.buyChainId);
    PaddingIsAbi(o.buyToken, o.buyAmount, o.validUntil);
    PaddingIsAbi(o.buyToken, o.buyAmount, o.nonce);
  }

  /** The buffer `hash_struct` fills is abi.encode of the type hash and the nine fields. */
  method StructBytes(o: Terms) returns (buf: seq<Byte>)
    ensures buf == AbiWords(TermFields(o))
    ensures |buf| == 320
  {
    ghost var f := TermFields(o);
    FieldsEncoded(o);
    forall k: nat | k < 10 ensures AbiWords(f[..k + 1]) == AbiWords(f[..k]) + BigEndian(f[k], 32) {
      AbiWordsGrows(f, k);
    }
    buf := BigEndian(OrderTypehash(), 32);
    assert buf == AbiWords(f[..0 + 1]);
    buf := buf + EncAddr(o.maker);
    assert buf == AbiWords(f[..1 + 1]);
    buf := buf + EncAddr(o.sellToken);
    assert buf == AbiWords(f[..2 + 1]);
    buf := buf + EncU64(o.sellChainId);
    assert buf == AbiWords(f[..3 + 1]);
    buf := buf + EncU128(o.sellAmount);
    assert buf == AbiWords(f[..4 + 1]);
    buf := buf + EncAddr(o.buyToken);
    assert buf == AbiWords(f[..5 + 1]);
    buf := buf + EncU64(o.buyChainId);
    assert buf == AbiWords(f[..6 + 1]);
    buf := buf + EncU128(o.buyAmount);
    assert buf == AbiWords(f[..7 + 1]);
    buf := buf + EncU64(o.validUntil);
    assert buf == AbiWords(f[..8 + 1]);
    buf := buf + EncU64(o.nonce);
    assert buf == AbiWords(f[..9 + 1]);
    assert f[..10] == f;
  }

  /** Solidity `hashStruct` and Rust `hash_struct`. */
  function HashStruct(o: Terms): Word { KECCAK256(AbiWords(TermFields(o))) }

  function DigestInput(o: Terms): seq<Byte> {
    [0x19, 0x01] + BigEndian(DomainSeparator(), 32) + BigEndian(HashStruct(o), 32)
  }

  function Digest(o: Terms): Word { KECCAK256(DigestInput(o)) }

  /** The two hash inputs of each order that a collision would have to confuse. */
  ghost predicate DigestsCollide(a: Terms, b: Terms) {
    || Collides(AbiWords(TermFields(a)), AbiWords(TermFields(b)))
    || Collides(DigestInput(a), DigestInput(b))
  }

  lemma BigEndianInjective(x: Word, y: Word)
    requires BigEndian(x, 32) == BigEndian(y, 32)
    ensures x == y
  {
    WordWidth();
    ValueOfBigEndian(x, 32);
    ValueOfBigEndian(y, 32);
  }

  lemma TermFieldsInjective(a: Terms, b: Terms)
    requires TermFields(a) == TermFields(b)
    ensures a == b
  {
    var x, y := TermFields(a), TermFields(b);
    assert x[1] == y[1] && x[2] == y[2] && x[3] == y[3] && x[4] == y[4] && x[5] == y[5];
    assert x[6] == y[6] && x[7] == y[7] && x[8] == y[8] && x[9] == y[9];
  }

  /** A digest stands for exactly one set of signed fields, collisions of these inputs aside. */
  lemma DigestIdentifiesTerms(a: Terms, b: Terms)
    requires !DigestsCollide(a, b)
    ensures Digest(a) == Digest(b) <==> a == b
  {
    if Digest(a) == Digest(b) {
      var prefix := [0x19, 0x01] + BigEndian(DomainSeparator(), 32);
      assert DigestInput(a)[34..] == BigEndian(HashStruct(a), 32);
      assert DigestInput(b)[34..] == BigEndian(HashStruct(b), 32);
      BigEndianInjective(HashStruct(a), HashStruct(b));
      AbiWordsInjective(TermFields(a), TermFields(b));
      TermFieldsInjective(a, b);
    }
  }

  // -------- signature checks --------

  const SECP256K1_HALF_N: Word := 0x7FFFFFFFFFFFFFFFFFFFFFFFFFFFFFFF5D576E7357A4501DDFE92F46681B20A0

  datatype OrderError =
    | InvalidSignatureLength
    | MalleableS
    | InvalidV
    | BadSignature
    | ZeroSigner
    | SignerNotMaker
    | OrderExpired

  function WordAt(s: seq<Byte>, from: nat): (w: Word)
    requires from + 32 <= |s|
    ensures w == Value(s[from..from + 32])
  {
    ValueBelowPower(s[from..from + 32]);
    WordWidth();
    Value(s[from..from + 32])
  }

  /** `ecrecover`: the zero address stands for a failed recovery. */
  function EcRecover(digest: Word, v: Byte, r: Word, s: Word): Address {
    match RECOVER(digest, r, s, v)
    case Some(a) => a
    case None => 0
  }

  /** The checks of `OrderLib.verify` once the digest is known. */
  function CheckOnChain(
    digest: Word, maker: Address, validUntil: U64, signature: seq<Byte>, now: nat
  ): Result<Word, OrderError> {
    if |signature| != 65 then Err(InvalidSignatureLength)
    else
      var r, s, v := WordAt(signature, 0), WordAt(signature, 32), signature[64];
      if s > SECP256K1_HALF_N then Err(MalleableS)
      else if v != 27 && v != 28 then Err(InvalidV)
      else
        var signer := EcRecover(digest, v, r, s);
        if signer == 0 then Err(ZeroSigner)
        else if signer != maker then Err(SignerNotMaker)
        else if now > validUntil then Err(OrderExpired)
        else Ok(digest)
  }

  function VerifyOnChain(o: Terms, signature: seq<Byte>, now: nat): Result<Word, OrderError> {
    CheckOnChain(Digest(o), o.maker, o.validUntil, signature, now)
  }

  predicate LexAbove(s: seq<Byte>, bound: Word, width: nat) { LexLess(BigEndian(bound, width), s) }

  /** `s > &SECP256K1_HALF_N[..]` on the 32 bytes of s. */
  predicate IsHighS(s: seq<Byte>)
    requires |s| == 32
  {
    LexAbove(s, SECP256K1_HALF_N, |s|)
  }

  lemma HighSIsNumeric(s: seq<Byte>)
    requires |s| == 32
    ensures IsHighS(s) <==> Value(s) > SECP256K1_HALF_N
  {
    WordWidth();
    LexAboveIsNumeric(s, SECP256K1_HALF_N, |s|);
  }

  lemma LexAboveIsNumeric(s: seq<Byte>, bound: Word, width: nat)
    requires |s| == width && bound < Power256(width)
    ensures LexAbove(s, bound, width) <==> Value(s) > bound
  {
    ValueOfBigEndian(bound, width);
    LexIsNumeric(BigEndian(bound, width), s);
  }

  /** The checks of `eip712::verify` once the digest is known. */
  function CheckOffChain(
    digest: Word, maker: Address, validUntil: U64, signature: seq<Byte>, now: nat
  ): Result<Word, OrderError> {
    if |signature| != 65 then Err(InvalidSignatureLength)
    else
      var v := signature[64];
      if IsHighS(signature[32..64]) then Err(MalleableS)
      else if v != 27 && v != 28 then Err(InvalidV)
      else
        match RECOVER(digest, WordAt(signature, 0), WordAt(signature, 32), v)
        case None => Err(BadSignature)
        case Some(signer) =>
          if signer == 0 then Err(ZeroSigner)
          else if signer != maker then Err(SignerNotMaker)
          else if now > validUntil then Err(OrderExpired)
          else Ok(digest)
  }

  function VerifyOffChain(o: Terms, signature: seq<Byte>, now: nat): Result<Word, OrderError> {
    CheckOffChain(Digest(o), o.maker, o.validUntil, signature, now)
  }

  /**
   * Book and chain accept the same orders, return the same digest, and fail for
   * the same reason; only a failed recovery is named differently.
   */
  lemma VerifiersAgree(o: Terms, signature: seq<Byte>, now: nat)
    ensures var off, on := VerifyOffChain(o, signature, now), VerifyOnChain(o, signature, now);
      on == (if off == Err(BadSignature) then Err(ZeroSigner) else off)
  {
    ChecksAgree(Digest(o), o.maker, o.validUntil, signature, now);
  }

  lemma ChecksAgree(digest: Word, maker: Address, validUntil: U64, signature: seq<Byte>, now: nat)
    ensures var off := CheckOffChain(digest, maker, validUntil, signature, now);
      CheckOnChain(digest, maker, validUntil, signature, now)
      == (if off == Err(BadSignature) then Err(ZeroSigner) else off)
  {
    if |signature| == 65 {
      HighSIsNumeric(signature[32..64]);
      assert signature[32..32 + 32] == signature[32..64];
    }
  }

  // -------- what a passed check means --------

  /** The word 32 bytes denote. */
  function WordOf(bytes: seq<Byte>): (w: Word)
    requires |bytes| == 32
    ensures w == Value(bytes)
  {
    ValueBelowPower(bytes);
    WordWidth();
    Value(bytes)
  }

  /**
   * The maker's own signature on these terms, in its one canonical form, not yet
   * expired: 65 bytes r, s, v; s in the lower half of the curve order; and r, s, v
   * recover the maker, which is not address zero, from the terms' digest.
   */
  predicate SignedBy(o: Terms, signature: seq<Byte>, now: nat) {
    && |signature| == 65
    && (signature[64] == 27 || signature[64] == 28)
    && Value(signature[32..64]) <= SECP256K1_HALF_N
    && o.maker != 0
    && now <= o.validUntil
    && RECOVER(Digest(o), WordOf(signature[..32]), WordOf(signature[32..64]), signature[64]) == Some(o.maker)
  }

  lemma SignatureWords(signature: seq<Byte>)
    requires |signature| == 65
    ensures WordAt(signature, 0) == WordOf(signature[..32]) && WordAt(signature, 32) == WordOf(signature[32..64])
  {
    assert signature[0..0 + 32] == signature[..32] && signature[32..32 + 32] == signature[32..64];
    assert signature[..32][0..32] == signature[..32] && signature[32..64][0..32] == signature[32..64];
  }

  /** The contract accepts an order if and only if its maker signed it, and then returns its digest. */
  lemma AcceptedOnChain(o: Terms, signature: seq<Byte>, now: nat)
    ensures VerifyOnChain(o, signature, now).Ok? <==> SignedBy(o, signature, now)
    ensures VerifyOnChain(o, signature, now).Ok? ==> VerifyOnChain(o, signature, now).value == Digest(o)
  {
    if |signature| == 65 {
      SignatureWords(signature);
    }
  }

  /** The book accepts the very same orders. */
  lemma AcceptedOffChain(o: Terms, signature: seq<Byte>, now: nat)
    ensures VerifyOffChain(o, signature, now).Ok? <==> SignedBy(o, signature, now)
    ensures VerifyOffChain(o, signature, now).Ok? ==> VerifyOffChain(o, signature, now).value == Digest(o)
  {
    VerifiersAgree(o, signature, now);
    AcceptedOnChain(o, signature, now);
  }

  /** What each reason for refusing an order says of it. */
  predicate RefusedFor(o: Terms, signature: seq<Byte>, now: nat, why: OrderError) {
    if |signature| != 65 then why == InvalidSignatureLength
    else Refutes(Digest(o), o, WordOf(signature[..32]), WordOf(signature[32..64]), signature[64], now, why)
  }

  predicate Refutes(digest: Word, o: Terms, r: Word, s: Word, v: Byte, now: nat, why: OrderError) {
    var recovered := RECOVER(digest, r, s, v);
    match why
    case InvalidSignatureLength => false
    case MalleableS => s > SECP256K1_HALF_N
    case InvalidV => v != 27 && v != 28
    case BadSignature => recovered == None
    case ZeroSigner => recovered == None || recovered == Some(0)
    case SignerNotMaker => recovered != Some(o.maker) && recovered.Some?
    case OrderExpired => o.validUntil < now && recovered == Some(o.maker)
  }

  lemma RefusalsAreTrue(o: Terms, signature: seq<Byte>, now: nat)
    ensures VerifyOnChain(o, signature, now).Err? ==> RefusedFor(o, signature, now, VerifyOnChain(o, signature, now).error)
    ensures VerifyOffChain(o, signature, now).Err? ==> RefusedFor(o, signature, now, VerifyOffChain(o, signature, now).error)
  {
    RefusalIsTrueOnChain(o, signature, now);
    VerifiersAgree(o, signature, now);
  }

  lemma RefusalIsTrueOnChain(o: Terms, signature: seq<Byte>, now: nat)
    ensures VerifyOnChain(o, signature, now).Err? ==> RefusedFor(o, signature, now, VerifyOnChain(o, signature, now).error)
  {
    if |signature| == 65 {
      SignatureWords(signature);
      CheckRefutes(Digest(o), o, signature, now);
    }
  }

  lemma CheckRefutes(digest: Word, o: Terms, signature: seq<Byte>, now: nat)
    requires |signature| == 65
    ensures var checked := CheckOnChain(digest, o.maker, o.validUntil, signature, now);
      checked.Err? ==>
        Refutes(digest, o, WordAt(signature, 0), WordAt(signature, 32), signature[64], now, checked.error)
  {}

  // -------- where each field stands --------

  /** The members stand in the order the type string names them, one word each, after the type's hash. */
  lemma StructLayout(o: Terms)
    ensures var b := AbiWords(TermFields(o));
      && |b| == 320
      && WordStandsAt(b, 0, KECCAK256(Ascii(ORDER_TYPE)))
      && WordStandsAt(b, 32, o.maker) && WordStandsAt(b, 64, o.sellToken) && WordStandsAt(b, 96, o.sellChainId)
      && WordStandsAt(b, 128, o.sellAmount) && WordStandsAt(b, 160, o.buyToken) && WordStandsAt(b, 192, o.buyChainId)
      && WordStandsAt(b, 224, o.buyAmount) && WordStandsAt(b, 256, o.validUntil) && WordStandsAt(b, 288, o.nonce)
  {
    var f := TermFields(o);
    forall k: nat | k < 10 ensures WordStandsAt(AbiWords(f), 32 * k, f[k]) {
      AbiWordsAt(f, k);
    }
    assert WordStandsAt(AbiWords(f), 32 * 0, f[0]) && WordStandsAt(AbiWords(f), 32 * 1, f[1]);
    assert WordStandsAt(AbiWords(f), 32 * 2, f[2]) && WordStandsAt(AbiWords(f), 32 * 3, f[3]);
    assert WordStandsAt(AbiWords(f), 32 * 4, f[4]) && WordStandsAt(AbiWords(f), 32 * 5, f[5]);
    assert WordStandsAt(AbiWords(f), 32 * 6, f[6]) && WordStandsAt(AbiWords(f), 32 * 7, f[7]);
    assert WordStandsAt(AbiWords(f), 32 * 8, f[8]) && WordStandsAt(AbiWords(f), 32 * 9, f[9]);
  }

  /** What is signed: two marker bytes, the domain separator, the hash of that struct. */
  lemma DigestLayout(o: Terms)
    ensures var d := DigestInput(o);
      && |d| == 66 && d[0] == 0x19 && d[1] == 0x01
      && d[2..34] == BigEndian(DomainSeparator(), 32)
      && d[34..66] == BigEndian(KECCAK256(AbiWords(TermFields(o))), 32)
      && Digest(o) == KECCAK256(d)
  {}
}
