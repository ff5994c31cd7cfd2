/**
 Return codes, constants and byte-level conventions shared by every store of the
 software token. Null pointers become `None`, buffers become sequences, and the
 caller's output buffer is described by its capacity.
 */
module Types {

  datatype Option<+T> = None | Some(value: T)

  /** An error code; no error of the library or the engine maps to `CKR_OK`. */
  type Failure = rv: Rv | rv != CkrOk witness GeneralError

  datatype Result<+T> = Ok(value: T) | Err(error: Failure)

  type Byte = b: int | 0 <= b < 256
  type Bytes = seq<Byte>

  type SlotId = nat
  type SessionHandle = nat
  type ObjectHandle = nat
  type AttributeType = nat
  type MechanismType = nat

  type Attributes = map<AttributeType, Bytes>

  /** The `CKR_*` return codes the modelled entry points can produce. */
  datatype Rv =
    | CkrOk
    | SlotIdInvalid
    | GeneralError
    | ArgumentsBad
    | CantLock
    | AttributeReadOnly
    | AttributeSensitive
    | AttributeTypeInvalid
    | DataInvalid
    | EncryptedDataInvalid
    | FunctionNotSupported
    | KeyHandleInvalid
    | KeySizeRange
    | KeyTypeInconsistent
    | KeyIndigestible
    | KeyFunctionNotPermitted
    | KeyNotWrappable
    | KeyUnextractable
    | UnwrappingKeyHandleInvalid
    | WrappingKeyHandleInvalid
    | MechanismInvalid
    | MechanismParamInvalid
    | ObjectHandleInvalid
    | OperationActive
    | OperationNotInitialized
    | PinIncorrect
    | PinLenRange
    | PinLocked
    | SessionHandleInvalid
    | SessionReadOnly
    | SessionParallelNotSupported
    | SessionExists
    | SessionReadOnlyExists
    | SessionReadWriteSoExists
    | SignatureInvalid
    | SignatureLenRange
    | TemplateIncomplete
    | TemplateInconsistent
    | UserAlreadyLoggedIn
    | UserNotLoggedIn
    | UserPinNotInitialized
    | UserTypeInvalid
    | UserAnotherAlreadyLoggedIn
    | BufferTooSmall
    | CryptokiNotInitialized
    | CryptokiAlreadyInitialized

  const CK_TRUE: Byte := 1
  const CK_FALSE: Byte := 0

  // Object classes
  const CKO_DATA: nat := 0x0
  const CKO_PUBLIC_KEY: nat := 0x2
  const CKO_PRIVATE_KEY: nat := 0x3
  const CKO_SECRET_KEY: nat := 0x4
  const CKO_PROFILE: nat := 0x9
  const CKP_BASELINE_PROVIDER: nat := 0x1

  // Key types
  const CKK_RSA: nat := 0x0
  const CKK_EC: nat := 0x3
  const CKK_GENERIC_SECRET: nat := 0x10
  const CKK_DES: nat := 0x13
  const CKK_DES3: nat := 0x15
  const CKK_AES: nat := 0x1F
  const CKK_CHACHA20: nat := 0x33
  const CKK_EC_EDWARDS: nat := 0x40
  const CKK_HKDF: nat := 0x42

  // Attribute types
  const CKA_CLASS: AttributeType := 0x0
  const CKA_TOKEN: AttributeType := 0x1
  const CKA_PRIVATE: AttributeType := 0x2
  const CKA_LABEL: AttributeType := 0x3
  const CKA_VALUE: AttributeType := 0x11
  const CKA_TRUSTED: AttributeType := 0x86
  const CKA_KEY_TYPE: AttributeType := 0x100
  const CKA_SENSITIVE: AttributeType := 0x103
  const CKA_WRAP: AttributeType := 0x106
  const CKA_UNWRAP: AttributeType := 0x107
  const CKA_UNIQUE_ID: AttributeType := 0x10A
  const CKA_DERIVE: AttributeType := 0x10C
  const CKA_MODULUS: AttributeType := 0x120
  const CKA_MODULUS_BITS: AttributeType := 0x121
  const CKA_PUBLIC_EXPONENT: AttributeType := 0x122
  const CKA_PRIVATE_EXPONENT: AttributeType := 0x123
  const CKA_PRIME_1: AttributeType := 0x124
  const CKA_PRIME_2: AttributeType := 0x125
  const CKA_EXPONENT_1: AttributeType := 0x126
  const CKA_EXPONENT_2: AttributeType := 0x127
  const CKA_COEFFICIENT: AttributeType := 0x128
  const CKA_VALUE_LEN: AttributeType := 0x161
  const CKA_EXTRACTABLE: AttributeType := 0x162
  const CKA_LOCAL: AttributeType := 0x163
  const CKA_NEVER_EXTRACTABLE: AttributeType := 0x164
  const CKA_ALWAYS_SENSITIVE: AttributeType := 0x165
  const CKA_KEY_GEN_MECHANISM: AttributeType := 0x166
  const CKA_DESTROYABLE: AttributeType := 0x172
  const CKA_EC_PARAMS: AttributeType := 0x180
  const CKA_EC_POINT: AttributeType := 0x181
  const CKA_ALWAYS_AUTHENTICATE: AttributeType := 0x202
  const CKA_WRAP_WITH_TRUSTED: AttributeType := 0x210
  const CKA_PROFILE_ID: AttributeType := 0x601

  // Mechanisms
  const CKM_RSA_PKCS_KEY_PAIR_GEN: MechanismType := 0x0
  const CKM_RSA_PKCS: MechanismType := 0x1
  const CKM_MD5_RSA_PKCS: MechanismType := 0x5
  const CKM_SHA1_RSA_PKCS: MechanismType := 0x6
  const CKM_RSA_PKCS_OAEP: MechanismType := 0x9
  const CKM_RSA_PKCS_PSS: MechanismType := 0xD
  const CKM_SHA1_RSA_PKCS_PSS: MechanismType := 0xE
  const CKM_SHA256_RSA_PKCS: MechanismType := 0x40
  const CKM_SHA384_RSA_PKCS: MechanismType := 0x41
  const CKM_SHA512_RSA_PKCS: MechanismType := 0x42
  const CKM_SHA256_RSA_PKCS_PSS: MechanismType := 0x43
  const CKM_SHA384_RSA_PKCS_PSS: MechanismType := 0x44
  const CKM_SHA512_RSA_PKCS_PSS: MechanismType := 0x45
  const CKM_DES_KEY_GEN: MechanismType := 0x120
  const CKM_DES_ECB: MechanismType := 0x121
  const CKM_DES_CBC: MechanismType := 0x122
  const CKM_DES3_KEY_GEN: MechanismType := 0x131
  const CKM_DES3_ECB: MechanismType := 0x132
  const CKM_DES3_CBC: MechanismType := 0x133
  const CKM_MD5: MechanismType := 0x210
  const CKM_SHA_1: MechanismType := 0x220
  const CKM_SHA256: MechanismType := 0x250
  const CKM_SHA256_HMAC: MechanismType := 0x251
  const CKM_SHA384: MechanismType := 0x260
  const CKM_SHA384_HMAC: MechanismType := 0x261
  const CKM_SHA512: MechanismType := 0x270
  const CKM_SHA512_HMAC: MechanismType := 0x271
  const CKM_SHA3_256: MechanismType := 0x2B0
  const CKM_SHA3_384: MechanismType := 0x2C0
  const CKM_SHA3_512: MechanismType := 0x2D0
  const CKM_GENERIC_SECRET_KEY_GEN: MechanismType := 0x350
  const CKM_EC_KEY_PAIR_GEN: MechanismType := 0x1040
  const CKM_ECDSA: MechanismType := 0x1041
  const CKM_ECDSA_SHA256: MechanismType := 0x1043
  const CKM_ECDSA_SHA384: MechanismType := 0x1044
  const CKM_ECDSA_SHA512: MechanismType := 0x1045
  const CKM_EC_EDWARDS_KEY_PAIR_GEN: MechanismType := 0x1055
  const CKM_EDDSA: MechanismType := 0x1057
  const CKM_AES_KEY_GEN: MechanismType := 0x1080
  const CKM_AES_ECB: MechanismType := 0x1081
  const CKM_AES_CBC: MechanismType := 0x1082
  const CKM_AES_CBC_PAD: MechanismType := 0x1085
  const CKM_AES_GCM: MechanismType := 0x1087
  const CKM_AES_KEY_WRAP: MechanismType := 0x1090
  const CKM_CHACHA20_POLY1305: MechanismType := 0x4021
  const CKM_CHACHA20_KEY_GEN: MechanismType := 0x4022
  const CKM_HKDF_DERIVE: MechanismType := 0x402A

  const CK_UNAVAILABLE_INFORMATION: nat := 0xFFFF_FFFF_FFFF_FFFF
  const TWO_64: nat := 0x1_0000_0000_0000_0000

  // User types
  const CKU_SO: nat := 0
  const CKU_USER: nat := 1
  const CKU_CONTEXT_SPECIFIC: nat := 2

  /** `fetch_add(1)` on a 64-bit handle counter: it wraps. */
  function Bump(n: nat): nat {
    (n + 1) % TWO_64
  }

  /** First byte equal to `CK_TRUE`; absent, empty and every other byte are not true. */
  predicate IsTrue(v: Bytes) {
    |v| > 0 && v[0] == CK_TRUE
  }

  predicate AttrTrue(attrs: Attributes, t: AttributeType) {
    t in attrs && IsTrue(attrs[t])
  }

  /** A `CK_BBOOL` as the standard defines it: the first byte is 0 or 1. */
  predicate WellFormedBool(v: Bytes) {
    |v| > 0 && (v[0] == CK_TRUE || v[0] == CK_FALSE)
  }

  function BoolByte(b: bool): Bytes {
    [if b then CK_TRUE else CK_FALSE]
  }

  function Lookup(attrs: Attributes, t: AttributeType): Option<Bytes> {
    if t in attrs then Some(attrs[t]) else None
  }

  /** `entry(t).or_insert(v)`. */
  function WithDefault(attrs: Attributes, t: AttributeType, v: Bytes): Attributes {
    if t in attrs then attrs else attrs[t := v]
  }

  /** The low `n` bytes of `v`, least significant first. */
  function LeBytes(v: nat, n: nat): Bytes
    decreases n
  {
    if n == 0 then [] else [v % 256] + LeBytes(v / 256, n - 1)
  }

  function UlongBytes(v: nat): Bytes {
    LeBytes(v, 8)
  }

  /** Little-endian reading of at most `n` leading bytes; missing bytes are zero. */
  function LeValue(b: Bytes, n: nat): nat
    decreases n
  {
    if n == 0 || b == [] then 0 else b[0] + 256 * LeValue(b[1..], n - 1)
  }

  function BytesToUlong(b: Bytes): nat {
    LeValue(b, 8)
  }

  function Pow256(n: nat): nat {
    if n == 0 then 1 else 256 * Pow256(n - 1)
  }

  lemma {:induction false} LeRoundTrip(v: nat, n: nat)
    requires v < Pow256(n)
    ensures LeValue(LeBytes(v, n), n) == v
    decreases n
  {
    if n > 0 {
      assert v / 256 < Pow256(n - 1);
      LeRoundTrip(v / 256, n - 1);
      assert LeBytes(v, n)[1..] == LeBytes(v / 256, n - 1);
    }
  }

  /** `CK_ULONG` values survive being stored as attribute bytes and read back. */
  lemma UlongRoundTrip(v: nat)
    requires v < TWO_64
    ensures BytesToUlong(UlongBytes(v)) == v
  {
    assert Pow256(8) == TWO_64 by {
      assert Pow256(4) == 0x1_0000_0000;
    }
    LeRoundTrip(v, 8);
  }

  /** The caller's output buffer: no length pointer, a length query, or a real buffer. */
  datatype OutBuf = NoLength | LengthQuery | Buffer(capacity: nat)

  /** What a call hands back: return code, reported length, bytes written, handles written. */
  datatype Out = Out(rv: Rv, len: Option<nat>, bytes: Option<Bytes>, handles: seq<nat>)

  function Code(rv: Rv): Out {
    Out(rv, None, None, [])
  }

  /** `write_to_output`: length query, too small, or copy. */
  function WriteToOutput(buf: OutBuf, data: Bytes): (o: Out)
    requires buf != NoLength
    ensures o.len == Some(|data|)
    ensures o.bytes == if o.rv == CkrOk && buf.Buffer? then Some(data) else None
    ensures o.rv == CkrOk <==> buf.LengthQuery? || |data| <= buf.capacity
  {
    match buf
    case LengthQuery => Out(CkrOk, Some(|data|), None, [])
    case Buffer(cap) =>
      if cap < |data| then Out(BufferTooSmall, Some(|data|), None, [])
      else Out(CkrOk, Some(|data|), Some(data), [])
  }

  /** One `CK_ATTRIBUTE` of an input template; `nullLen` is the length claimed beside a null value. */
  datatype TemplateEntry = TemplateEntry(typ: AttributeType, value: Option<Bytes>, nullLen: nat)

  type Template = seq<TemplateEntry>

  /** The bytes `collect_template` takes from an entry: a null value with a nonzero length is dropped. */
  function EntryBytes(e: TemplateEntry): Option<Bytes> {
    match e.value
    case Some(v) => Some(v)
    case None => if e.nullLen == 0 then Some([]) else None
  }

  /** Later entries of the same type win. */
  function CollectTemplate(t: Template): Attributes {
    if t == [] then map[]
    else
      var m := CollectTemplate(t[..|t| - 1]);
      var e := t[|t| - 1];
      match EntryBytes(e)
      case Some(v) => m[e.typ := v]
      case None => m
  }

  function CollectTemplateVec(t: Template): seq<(AttributeType, Bytes)> {
    if t == [] then []
    else
      var s := CollectTemplateVec(t[..|t| - 1]);
      var e := t[|t| - 1];
      match EntryBytes(e)
      case Some(v) => s + [(e.typ, v)]
      case None => s
  }
}
