/**
 The crypto engine as a record of functions, and the backend's dispatch from key
 type and mechanism to engine primitives. Randomised primitives take the random
 bytes they consume as an argument.
 */
module Backend {
  import opened Types
  import opened Objects

  datatype HashAlgorithm = Md5 | Sha1 | Sha256 | Sha384 | Sha512 | Sha3_256 | Sha3_384 | Sha3_512

  /** The engine's signature primitives. */
  datatype Primitive =
    | RsaPkcs1
    | RsaPkcs1Hash(alg: HashAlgorithm)
    | RsaPss
    | RsaPssHash(alg: HashAlgorithm)
    | EcdsaPrehashed
    | EdDsa
    | Hmac(alg: HashAlgorithm)

  datatype Engine = Engine(
    hash: (HashAlgorithm, Bytes) -> Result<Bytes>,
    keyValueForDigest: Bytes -> Result<Bytes>,
    sign: (Primitive, Bytes, Bytes, Bytes) -> Result<Bytes>,
    verify: (Primitive, Bytes, Bytes, Bytes) -> Result<bool>,
    aesGcmEncrypt: (Bytes, Bytes, Bytes, Bytes) -> Result<(Bytes, Bytes)>,
    aesGcmDecrypt: (Bytes, Bytes, Bytes, Bytes, Bytes) -> Result<Bytes>,
    chachaEncrypt: (Bytes, Bytes, Bytes, Bytes) -> Result<(Bytes, Bytes)>,
    chachaDecrypt: (Bytes, Bytes, Bytes, Bytes, Bytes) -> Result<Bytes>,
    aesCbcPadEncrypt: (Bytes, Bytes, Bytes) -> Result<Bytes>,
    aesCbcPadDecrypt: (Bytes, Bytes, Bytes) -> Result<Bytes>,
    blockEncrypt: (MechanismType, Bytes, Bytes, Bytes) -> Result<Bytes>,
    blockDecrypt: (MechanismType, Bytes, Bytes, Bytes) -> Result<Bytes>,
    rsaEncrypt: (MechanismType, Bytes, Bytes, Bytes) -> Result<Bytes>,
    rsaDecrypt: (MechanismType, Bytes, Bytes) -> Result<Bytes>,
    keyWrap: (Bytes, Bytes) -> Result<Bytes>,
    keyUnwrap: (Bytes, Bytes) -> Result<Bytes>,
    hkdf: (HashAlgorithm, Bytes, Bytes, Bytes, nat) -> Result<Bytes>,
    attribute: (KeyType, Bytes, AttributeType) -> Result<Bytes>)

  // ---- Digest ----------------------------------------------------------------------------------

  function DigestAlgorithm(mech: MechanismType): Option<HashAlgorithm> {
    if mech == CKM_MD5 then Some(Md5)
    else if mech == CKM_SHA_1 then Some(Sha1)
    else if mech == CKM_SHA256 then Some(Sha256)
    else if mech == CKM_SHA384 then Some(Sha384)
    else if mech == CKM_SHA512 then Some(Sha512)
    else if mech == CKM_SHA3_256 then Some(Sha3_256)
    else if mech == CKM_SHA3_384 then Some(Sha3_384)
    else if mech == CKM_SHA3_512 then Some(Sha3_512)
    else None
  }

  function DigestWith(e: Engine, mech: MechanismType, data: Bytes): Result<Bytes> {
    match DigestAlgorithm(mech)
    case Some(alg) => e.hash(alg, data)
    case None => Err(MechanismInvalid)
  }

  // ---- Sign and verify -------------------------------------------------------------------------

  /** A primitive, and the hash to apply to the message before it. */
  datatype Plan = Plan(primitive: Primitive, prehash: Option<HashAlgorithm>)

  // The two dispatch tables of the backend, one per direction.

  function RsaSignPlan(mech: MechanismType): Result<Plan> {
    if mech == CKM_RSA_PKCS then Ok(Plan(RsaPkcs1, None))
    else if mech == CKM_MD5_RSA_PKCS then Ok(Plan(RsaPkcs1Hash(Md5), None))
    else if mech == CKM_SHA1_RSA_PKCS then Ok(Plan(RsaPkcs1Hash(Sha1), None))
    else if mech == CKM_SHA256_RSA_PKCS then Ok(Plan(RsaPkcs1, None))
    else if mech == CKM_SHA384_RSA_PKCS then Ok(Plan(RsaPkcs1Hash(Sha384), None))
    else if mech == CKM_SHA512_RSA_PKCS then Ok(Plan(RsaPkcs1Hash(Sha512), None))
    else if mech == CKM_SHA256_RSA_PKCS_PSS then Ok(Plan(RsaPss, None))
    else if mech == CKM_SHA384_RSA_PKCS_PSS then Ok(Plan(RsaPssHash(Sha384), None))
    else if mech == CKM_SHA512_RSA_PKCS_PSS then Ok(Plan(RsaPssHash(Sha512), None))
    else Err(MechanismInvalid)
  }

  function EcSignPlan(mech: MechanismType): Result<Plan> {
    if mech == CKM_ECDSA then Ok(Plan(EcdsaPrehashed, None))
    else if mech == CKM_ECDSA_SHA256 then Ok(Plan(EcdsaPrehashed, Some(Sha256)))
    else if mech == CKM_ECDSA_SHA384 then Ok(Plan(EcdsaPrehashed, Some(Sha384)))
    else if mech == CKM_ECDSA_SHA512 then Ok(Plan(EcdsaPrehashed, Some(Sha512)))
    else Err(MechanismInvalid)
  }

  function EdSignPlan(mech: MechanismType): Result<Plan> {
    if mech == CKM_EDDSA then Ok(Plan(EdDsa, None)) else Err(MechanismInvalid)
  }

  function HmacSignPlan(mech: MechanismType): Result<Plan> {
    if mech == CKM_SHA256_HMAC then Ok(Plan(Hmac(Sha256), None))
    else if mech == CKM_SHA384_HMAC then Ok(Plan(Hmac(Sha384), None))
    else if mech == CKM_SHA512_HMAC then Ok(Plan(Hmac(Sha512), None))
    else Err(MechanismInvalid)
  }

  function RsaVerifyPlan(mech: MechanismType): Result<Plan> {
    if mech == CKM_RSA_PKCS then Ok(Plan(RsaPkcs1, None))
    else if mech == CKM_MD5_RSA_PKCS then Ok(Plan(RsaPkcs1Hash(Md5), None))
    else if mech == CKM_SHA1_RSA_PKCS then Ok(Plan(RsaPkcs1Hash(Sha1), None))
    else if mech == CKM_SHA256_RSA_PKCS then Ok(Plan(RsaPkcs1, None))
    else if mech == CKM_SHA384_RSA_PKCS then Ok(Plan(RsaPkcs1Hash(Sha384), None))
    else if mech == CKM_SHA512_RSA_PKCS then Ok(Plan(RsaPkcs1Hash(Sha512), None))
    else if mech == CKM_SHA256_RSA_PKCS_PSS then Ok(Plan(RsaPss, None))
    else if mech == CKM_SHA384_RSA_PKCS_PSS then Ok(Plan(RsaPssHash(Sha384), None))
    else if mech == CKM_SHA512_RSA_PKCS_PSS then Ok(Plan(RsaPssHash(Sha512), None))
    else Err(MechanismInvalid)
  }

  function EcVerifyPlan(mech: MechanismType): Result<Plan> {
    if mech == CKM_ECDSA then Ok(Plan(EcdsaPrehashed, None))
    else if mech == CKM_ECDSA_SHA256 then Ok(Plan(EcdsaPrehashed, Some(Sha256)))
    else if mech == CKM_ECDSA_SHA384 then Ok(Plan(EcdsaPrehashed, Some(Sha384)))
    else if mech == CKM_ECDSA_SHA512 then Ok(Plan(EcdsaPrehashed, Some(Sha512)))
    else Err(MechanismInvalid)
  }

  function EdVerifyPlan(mech: MechanismType): Result<Plan> {
    if mech == CKM_EDDSA then Ok(Plan(EdDsa, None)) else Err(MechanismInvalid)
  }

  function HmacVerifyPlan(mech: MechanismType): Result<Plan> {
    if mech == CKM_SHA256_HMAC then Ok(Plan(Hmac(Sha256), None))
    else if mech == CKM_SHA384_HMAC then Ok(Plan(Hmac(Sha384), None))
    else if mech == CKM_SHA512_HMAC then Ok(Plan(Hmac(Sha512), None))
    else Err(MechanismInvalid)
  }

  function SignPlan(keyType: KeyType, mech: MechanismType): Result<Plan> {
    match keyType
    case RsaPrivate => RsaSignPlan(mech)
    case EcPrivate => EcSignPlan(mech)
    case EdPrivate => EdSignPlan(mech)
    case GenericSecret => HmacSignPlan(mech)
    case _ => Err(KeyTypeInconsistent)
  }

  function VerifyPlan(keyType: KeyType, mech: MechanismType): Result<Plan> {
    match keyType
    case RsaPublic => RsaVerifyPlan(mech)
    case EcPublic => EcVerifyPlan(mech)
    case EdPublic => EdVerifyPlan(mech)
    case GenericSecret => HmacVerifyPlan(mech)
    case _ => Err(KeyTypeInconsistent)
  }

  /** What the primitive signs. */
  function Message(e: Engine, plan: Plan, data: Bytes): Result<Bytes> {
    match plan.prehash
    case None => Ok(data)
    case Some(alg) => e.hash(alg, data)
  }

  function SignWith(e: Engine, mech: MechanismType, key: KeyObject, data: Bytes, entropy: Bytes): Result<Bytes> {
    match SignPlan(key.keyType, mech)
    case Err(rv) => Err(rv)
    case Ok(plan) =>
      match Message(e, plan, data)
      case Err(rv) => Err(rv)
      case Ok(m) => e.sign(plan.primitive, key.keyRef, m, entropy)
  }

  /** `CkrOk` when the signature is accepted. */
  function VerifyWith(e: Engine, mech: MechanismType, key: KeyObject, data: Bytes, signature: Bytes): Rv {
    match VerifyPlan(key.keyType, mech)
    case Err(rv) => rv
    case Ok(plan) =>
      match Message(e, plan, data)
      case Err(rv) => rv
      case Ok(m) =>
        match e.verify(plan.primitive, key.keyRef, m, signature)
        case Err(rv) => rv
        case Ok(accepted) => if accepted then CkrOk else SignatureInvalid
  }

  /** The engine accepts what it signed, for keys related by `pair`. */
  ghost predicate SignatureLaw(e: Engine, pair: (Bytes, Bytes) -> bool) {
    forall p, priv, pub, m, entropy, sig {:trigger e.sign(p, priv, m, entropy), e.verify(p, pub, m, sig)} ::
      pair(priv, pub) && e.sign(p, priv, m, entropy) == Ok(sig) ==> e.verify(p, pub, m, sig) == Ok(true)
  }

  predicate RsaPrimitive(p: Primitive) {
    p.RsaPkcs1? || p.RsaPkcs1Hash? || p.RsaPss? || p.RsaPssHash?
  }

  /** An RSA signature is as long as the modulus. */
  ghost predicate RsaLengthLaw(e: Engine, pair: (Bytes, Bytes) -> bool, modulusLen: Bytes -> nat) {
    forall p, priv, pub, m, entropy, sig {:trigger e.sign(p, priv, m, entropy), e.verify(p, pub, m, sig)} ::
      RsaPrimitive(p) && pair(priv, pub) && e.sign(p, priv, m, entropy) == Ok(sig) ==> |sig| == modulusLen(pub)
  }

  /** `verifier` is the counterpart of `signer`: the matching public key, or the same secret key. */
  predicate KeysCorrespond(signer: KeyObject, verifier: KeyObject, pair: (Bytes, Bytes) -> bool) {
    && pair(signer.keyRef, verifier.keyRef)
    && match signer.keyType
       case RsaPrivate => verifier.keyType == RsaPublic
       case EcPrivate => verifier.keyType == EcPublic
       case EdPrivate => verifier.keyType == EdPublic
       case GenericSecret => verifier.keyType == GenericSecret
       case _ => false
  }

  /** Every mechanism and key type that signing accepts is verified by the same primitive on the same message. */
  lemma VerifyAcceptsSigned(e: Engine, pair: (Bytes, Bytes) -> bool, mech: MechanismType,
                            signer: KeyObject, verifier: KeyObject, data: Bytes, entropy: Bytes, sig: Bytes)
    requires SignatureLaw(e, pair) && KeysCorrespond(signer, verifier, pair)
    requires SignWith(e, mech, signer, data, entropy) == Ok(sig)
    ensures VerifyWith(e, mech, verifier, data, sig) == CkrOk
  {
  }

  lemma RsaSignatureLength(e: Engine, pair: (Bytes, Bytes) -> bool, modulusLen: Bytes -> nat, mech: MechanismType,
                           signer: KeyObject, verifier: KeyObject, data: Bytes, entropy: Bytes, sig: Bytes)
    requires RsaLengthLaw(e, pair, modulusLen) && KeysCorrespond(signer, verifier, pair)
    requires SignWith(e, mech, signer, data, entropy) == Ok(sig) && signer.keyType == RsaPrivate
    ensures |sig| == modulusLen(verifier.keyRef)
  {
    var plan := RsaSignPlan(mech).value;
    assert RsaPrimitive(plan.primitive);
    var m := Message(e, plan, data).value;
    var _ := e.verify(plan.primitive, verifier.keyRef, m, sig);
  }

  // ---- Symmetric ciphers and tag framing ----------------------------------------------------------

  const AEAD_TAG_LEN: nat := 16

  predicate BlockMechanism(mech: MechanismType) {
    || mech == CKM_DES_ECB || mech == CKM_DES_CBC || mech == CKM_DES3_ECB || mech == CKM_DES3_CBC
    || mech == CKM_AES_ECB || mech == CKM_AES_CBC
  }

  predicate AeadMechanism(mech: MechanismType) {
    mech == CKM_AES_GCM || mech == CKM_CHACHA20_POLY1305
  }

  predicate RsaEncMechanism(mech: MechanismType) {
    mech == CKM_RSA_PKCS || mech == CKM_RSA_PKCS_OAEP
  }

  function Seal(e: Engine, mech: MechanismType, key: Bytes, iv: Bytes, aad: Bytes, pt: Bytes): Result<(Bytes, Bytes)>
    requires AeadMechanism(mech)
  {
    if mech == CKM_AES_GCM then e.aesGcmEncrypt(key, iv, aad, pt) else e.chachaEncrypt(key, iv, aad, pt)
  }

  function Open(e: Engine, mech: MechanismType, key: Bytes, iv: Bytes, aad: Bytes, ct: Bytes, tag: Bytes): Result<Bytes>
    requires AeadMechanism(mech)
  {
    if mech == CKM_AES_GCM then e.aesGcmDecrypt(key, iv, aad, ct, tag) else e.chachaDecrypt(key, iv, aad, ct, tag)
  }

  function AadBytes(aad: Option<Bytes>): Bytes {
    match aad case Some(a) => a case None => []
  }

  function EncryptSymmetric(e: Engine, mech: MechanismType, key: KeyObject, iv: Bytes, aad: Option<Bytes>,
                            pt: Bytes): Result<Bytes> {
    if BlockMechanism(mech) then e.blockEncrypt(mech, key.keyRef, iv, pt)
    else if mech == CKM_AES_CBC_PAD then e.aesCbcPadEncrypt(key.keyRef, iv, pt)
    else if AeadMechanism(mech) then
      match Seal(e, mech, key.keyRef, iv, AadBytes(aad), pt)
      case Ok((ct, tag)) => Ok(ct + tag)
      case Err(rv) => Err(rv)
    else Err(MechanismInvalid)
  }

  function DecryptSymmetric(e: Engine, mech: MechanismType, key: KeyObject, iv: Bytes, aad: Option<Bytes>, ct: Bytes,
                            tagLen: nat): Result<Bytes> {
    if BlockMechanism(mech) then e.blockDecrypt(mech, key.keyRef, iv, ct)
    else if mech == CKM_AES_CBC_PAD then e.aesCbcPadDecrypt(key.keyRef, iv, ct)
    else if AeadMechanism(mech) then
      if |ct| < tagLen then Err(EncryptedDataInvalid)
      else Open(e, mech, key.keyRef, iv, AadBytes(aad), ct[..|ct| - tagLen], ct[|ct| - tagLen..])
    else Err(MechanismInvalid)
  }

  /** The engine's AEAD law: sixteen-byte tags, and opening inverts sealing. */
  ghost predicate AeadLaw(e: Engine) {
    forall mech, key, iv, aad, pt, ct, tag {:trigger Seal(e, mech, key, iv, aad, pt),
                                            Open(e, mech, key, iv, aad, ct, tag)} ::
      AeadMechanism(mech) && Seal(e, mech, key, iv, aad, pt) == Ok((ct, tag))
      ==> |tag| == AEAD_TAG_LEN && Open(e, mech, key, iv, aad, ct, tag) == Ok(pt)
  }

  /** The split recovers the two parts of a frame exactly when it uses the tag's own length. */
  lemma FrameSplitExact(ct: Bytes, tag: Bytes, tagLen: nat)
    requires tagLen <= |ct + tag|
    ensures var f := ct + tag;
            (f[..|f| - tagLen], f[|f| - tagLen..]) == (ct, tag) <==> tagLen == |tag|
  {
  }

  /** AEAD framing round trip. */
  lemma AeadRoundTrip(e: Engine, mech: MechanismType, key: KeyObject, key': KeyObject, iv: Bytes, aad: Option<Bytes>,
                      pt: Bytes, frame: Bytes)
    requires AeadLaw(e) && AeadMechanism(mech) && key'.keyRef == key.keyRef
    requires EncryptSymmetric(e, mech, key, iv, aad, pt) == Ok(frame)
    ensures DecryptSymmetric(e, mech, key', iv, aad, frame, AEAD_TAG_LEN) == Ok(pt)
  {
    assert !BlockMechanism(mech) && mech != CKM_AES_CBC_PAD;
    var (ct, tag) := Seal(e, mech, key.keyRef, iv, AadBytes(aad), pt).value;
    assert Open(e, mech, key.keyRef, iv, AadBytes(aad), ct, tag) == Ok(pt);
    assert |tag| == AEAD_TAG_LEN && frame == ct + tag;
    FrameSplitExact(ct, tag, AEAD_TAG_LEN);
  }

  // ---- Mechanism parameters ----------------------------------------------------------------------------

  /** `pParameter`: null, raw bytes (an IV), or a GCM parameter block. */
  datatype Parameter =
    | NullParameter
    | RawParameter(bytes: Bytes)
    | GcmParameter(iv: Option<Bytes>, aad: Option<Bytes>, tagBits: nat)

  datatype CipherParams = CipherParams(iv: Bytes, aad: Option<Bytes>, tagLen: nat)

  function Zeros(n: nat): Bytes {
    seq(n, _ => 0)
  }

  function NonEmptyOr(v: Option<Bytes>, default: Bytes): Bytes {
    if v.Some? && |v.value| > 0 then v.value else default
  }

  function RawIv(p: Parameter, n: nat): Bytes {
    if p.RawParameter? && |p.bytes| >= n then p.bytes[..n] else Zeros(n)
  }

  /** `extract_cipher_params`. */
  function ExtractCipherParams(mech: MechanismType, p: Parameter): CipherParams {
    if mech == CKM_AES_CBC || mech == CKM_AES_CBC_PAD then CipherParams(RawIv(p, 16), None, 0)
    else if mech == CKM_DES_CBC || mech == CKM_DES3_CBC then CipherParams(RawIv(p, 8), None, 0)
    else if AeadMechanism(mech) then
      if !p.GcmParameter? then CipherParams(Zeros(12), None, AEAD_TAG_LEN)
      else
        var aad := if p.aad.Some? && |p.aad.value| > 0 then p.aad else None;
        var tagLen := if mech == CKM_AES_GCM && p.tagBits / 8 != 0 then p.tagBits / 8 else AEAD_TAG_LEN;
        CipherParams(NonEmptyOr(p.iv, Zeros(12)), aad, tagLen)
    else CipherParams([], None, 0)
  }

  /** The parameter blocks whose effective tag length is the engine's. */
  lemma EffectiveTagLength(mech: MechanismType, p: Parameter)
    requires AeadMechanism(mech)
    ensures ExtractCipherParams(mech, p).tagLen == AEAD_TAG_LEN <==>
            mech == CKM_CHACHA20_POLY1305 || !p.GcmParameter? || p.tagBits < 8 || 128 <= p.tagBits < 136
  {
  }
}
