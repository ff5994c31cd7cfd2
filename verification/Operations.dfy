/**
 The calls that work on one session's operation contexts: sign, verify, encrypt,
 decrypt, digest, search, wrap, message contexts and cancellation. Each is a
 function of the session, the objects it may read, and the engine of its slot.
 */
module SessionOperations {
  import opened Types
  import opened Objects
  import opened Backend
  import opened Sessions

  datatype SessionOp =
    | SignInit(mech: MechanismType, key: ObjectHandle)
    | Sign(data: Bytes, buf: OutBuf, entropy: Bytes)
    | SignUpdate(part: Bytes)
    | SignFinal(buf: OutBuf, entropy: Bytes)
    | VerifyInit(mech: MechanismType, key: ObjectHandle)
    | Verify(data: Bytes, signature: Bytes)
    | VerifyUpdate(part: Bytes)
    | VerifyFinal(signature: Bytes)
    | EncryptInit(mech: MechanismType, param: Parameter, key: ObjectHandle)
    | Encrypt(data: Bytes, buf: OutBuf, entropy: Bytes)
    | EncryptUpdate(part: Bytes)
    | EncryptFinal(buf: OutBuf)
    | DecryptInit(mech: MechanismType, param: Parameter, key: ObjectHandle)
    | Decrypt(data: Bytes, buf: OutBuf)
    | DecryptUpdate(part: Bytes)
    | DecryptFinal(buf: OutBuf)
    | DigestInit(mech: MechanismType)
    | Digest(data: Bytes, buf: OutBuf)
    | DigestUpdate(part: Bytes)
    | DigestKey(key: ObjectHandle)
    | DigestFinal(buf: OutBuf)
    | FindObjectsInit(template: Template, results: seq<ObjectHandle>)
    | FindObjects(max: nat)
    | FindObjectsFinal
    | WrapKey(mech: MechanismType, wrappingKey: ObjectHandle, key: ObjectHandle, buf: OutBuf)
    | MessageEncryptInit(mech: MechanismType, key: ObjectHandle)
    | MessageEncryptFinal
    | MessageDecryptInit(mech: MechanismType, key: ObjectHandle)
    | MessageDecryptFinal
    | SessionCancel

  /** What a context operation can see besides its session. `engine` is absent for an unregistered slot. */
  datatype Env = Env(engine: Option<Engine>, objects: ObjectMap)

  predicate SignMechanism(mech: MechanismType) {
    || mech == CKM_RSA_PKCS || mech == CKM_SHA1_RSA_PKCS || mech == CKM_SHA256_RSA_PKCS
    || mech == CKM_SHA384_RSA_PKCS || mech == CKM_SHA512_RSA_PKCS
    || mech == CKM_RSA_PKCS_PSS || mech == CKM_SHA1_RSA_PKCS_PSS || mech == CKM_SHA256_RSA_PKCS_PSS
    || mech == CKM_SHA384_RSA_PKCS_PSS || mech == CKM_SHA512_RSA_PKCS_PSS
    || mech == CKM_ECDSA || mech == CKM_ECDSA_SHA256 || mech == CKM_EDDSA
    || mech == CKM_SHA256_HMAC || mech == CKM_SHA384_HMAC || mech == CKM_SHA512_HMAC
  }

  /** Checks that come before the session is looked up; the steps below repeat them. */
  function Precheck(op: SessionOp): Rv {
    match op
    case SignInit(mech, _) => if SignMechanism(mech) then CkrOk else MechanismInvalid
    case VerifyInit(mech, _) => if SignMechanism(mech) then CkrOk else MechanismInvalid
    case DigestInit(mech) => if DigestAlgorithm(mech).Some? then CkrOk else MechanismInvalid
    case MessageEncryptInit(mech, _) => if AeadMechanism(mech) then CkrOk else MechanismInvalid
    case MessageDecryptInit(mech, _) => if AeadMechanism(mech) then CkrOk else MechanismInvalid
    case Sign(_, buf, _) => if buf.NoLength? then ArgumentsBad else CkrOk
    case SignFinal(buf, _) => if buf.NoLength? then ArgumentsBad else CkrOk
    case Encrypt(_, buf, _) => if buf.NoLength? then ArgumentsBad else CkrOk
    case EncryptFinal(buf) => if buf.NoLength? then ArgumentsBad else CkrOk
    case Decrypt(_, buf) => if buf.NoLength? then ArgumentsBad else CkrOk
    case DecryptFinal(buf) => if buf.NoLength? then ArgumentsBad else CkrOk
    case WrapKey(_, _, _, buf) => if buf.NoLength? then ArgumentsBad else CkrOk
    case _ => CkrOk
  }

  // ---- Context setters ---------------------------------------------------------------------------

  function PutSign(s: Session, c: Option<SignContext>): Session { s.(ops := s.ops.(sign := c)) }
  function PutVerify(s: Session, c: Option<SignContext>): Session { s.(ops := s.ops.(verify := c)) }
  function PutEncrypt(s: Session, c: Option<CipherContext>): Session { s.(ops := s.ops.(encrypt := c)) }
  function PutDecrypt(s: Session, c: Option<CipherContext>): Session { s.(ops := s.ops.(decrypt := c)) }
  function PutDigest(s: Session, c: Option<DigestContext>): Session { s.(ops := s.ops.(digest := c)) }
  function PutFind(s: Session, c: Option<FindContext>): Session { s.(ops := s.ops.(find := c)) }

  /** `require_context_auth`: an always-authenticate key needs the ticket; nothing is spent yet. */
  predicate TicketOk(s: Session, o: KeyObject) {
    o.alwaysAuthenticate ==> s.ticket
  }

  // ---- Sign ------------------------------------------------------------------------------------------

  function SignInitStep(s: Session, mech: MechanismType, key: ObjectHandle): (Session, Out) {
    if !SignMechanism(mech) then (s, Code(MechanismInvalid))
    else if s.ops.sign.Some? then (s, Code(OperationActive))
    else (PutSign(s, Some(SignContext(mech, key, []))).(ticket := false), Code(CkrOk))
  }

  /** `C_Sign` on its own data, `C_SignFinal` on the accumulated data; the context is taken first. */
  function SignStep(env: Env, s: Session, data: Option<Bytes>, buf: OutBuf, entropy: Bytes): (Session, Out) {
    if buf == NoLength then (s, Code(ArgumentsBad))
    else
      match s.ops.sign
      case None => (s, Code(OperationNotInitialized))
      case Some(ctx) =>
        var taken := PutSign(s, None);
        var message := match data case Some(d) => d case None => ctx.data;
        if ctx.key !in env.objects then (taken, Code(ObjectHandleInvalid))
        else if !TicketOk(s, env.objects[ctx.key]) then (taken, Code(UserNotLoggedIn))
        else if env.engine.None? then (taken, Code(SlotIdInvalid))
        else
          match SignWith(env.engine.value, ctx.mech, env.objects[ctx.key], message, entropy)
          case Err(rv) => (taken, Code(rv))
          case Ok(sig) => (if buf.LengthQuery? then s else taken.(ticket := false), WriteToOutput(buf, sig))
  }

  function SignUpdateStep(s: Session, part: Bytes): (Session, Out) {
    match s.ops.sign
    case None => (s, Code(OperationNotInitialized))
    case Some(ctx) => (PutSign(s, Some(ctx.(data := ctx.data + part))), Code(CkrOk))
  }

  // ---- Verify ----------------------------------------------------------------------------------------

  function VerifyInitStep(s: Session, mech: MechanismType, key: ObjectHandle): (Session, Out) {
    if !SignMechanism(mech) then (s, Code(MechanismInvalid))
    else if s.ops.verify.Some? then (s, Code(OperationActive))
    else (PutVerify(s, Some(SignContext(mech, key, []))), Code(CkrOk))
  }

  predicate IsRsa(o: KeyObject) {
    o.keyType == RsaPublic || o.keyType == RsaPrivate
  }

  /** The length check of RSA signatures happens before the context is taken. */
  function VerifyStep(env: Env, s: Session, data: Option<Bytes>, signature: Bytes): (Session, Out) {
    match s.ops.verify
    case None => (s, Code(OperationNotInitialized))
    case Some(ctx) =>
      if ctx.key !in env.objects then (s, Code(ObjectHandleInvalid))
      else
        var o := env.objects[ctx.key];
        if IsRsa(o) && CKA_MODULUS !in o.attrs then (s, Code(AttributeTypeInvalid))
        else if IsRsa(o) && |signature| != |o.attrs[CKA_MODULUS]| then (s, Code(SignatureLenRange))
        else
          var message := match data case Some(d) => d case None => ctx.data;
          var rv := if env.engine.None? then SlotIdInvalid
                    else VerifyWith(env.engine.value, ctx.mech, o, message, signature);
          (PutVerify(s, None), Code(rv))
  }

  function VerifyUpdateStep(s: Session, part: Bytes): (Session, Out) {
    match s.ops.verify
    case None => (s, Code(OperationNotInitialized))
    case Some(ctx) => (PutVerify(s, Some(ctx.(data := ctx.data + part))), Code(CkrOk))
  }

  // ---- Encrypt and decrypt ------------------------------------------------------------------------------

  function NewCipherContext(mech: MechanismType, param: Parameter, key: ObjectHandle): CipherContext {
    var p := ExtractCipherParams(mech, param);
    CipherContext(mech, key, p.iv, p.aad, p.tagLen, [])
  }

  function EncryptInitStep(s: Session, mech: MechanismType, param: Parameter, key: ObjectHandle): (Session, Out) {
    if s.ops.encrypt.Some? then (s, Code(OperationActive))
    else (PutEncrypt(s, Some(NewCipherContext(mech, param, key))), Code(CkrOk))
  }

  /** `C_Encrypt` (RSA or symmetric, own data) and `C_EncryptFinal` (symmetric, accumulated data). */
  function EncryptStep(env: Env, s: Session, data: Option<Bytes>, buf: OutBuf, entropy: Bytes): (Session, Out) {
    if buf == NoLength then (s, Code(ArgumentsBad))
    else
      match s.ops.encrypt
      case None => (s, Code(OperationNotInitialized))
      case Some(ctx) =>
        var taken := PutEncrypt(s, None);
        if ctx.key !in env.objects then (taken, Code(ObjectHandleInvalid))
        else if env.engine.None? then (taken, Code(SlotIdInvalid))
        else
          var o := env.objects[ctx.key];
          var r := if data.Some? && RsaEncMechanism(ctx.mech)
                   then env.engine.value.rsaEncrypt(ctx.mech, o.keyRef, data.value, entropy)
                   else EncryptSymmetric(env.engine.value, ctx.mech, o, ctx.iv, ctx.aad,
                                         match data case Some(d) => d case None => ctx.data);
          match r
          case Err(rv) => (taken, Code(rv))
          case Ok(ct) => (taken, WriteToOutput(buf, ct))
  }

  function EncryptUpdateStep(s: Session, part: Bytes): (Session, Out) {
    match s.ops.encrypt
    case None => (s, Code(OperationNotInitialized))
    case Some(ctx) => (PutEncrypt(s, Some(ctx.(data := ctx.data + part))), Out(CkrOk, Some(0), None, []))
  }

  function DecryptInitStep(s: Session, mech: MechanismType, param: Parameter, key: ObjectHandle): (Session, Out) {
    if s.ops.decrypt.Some? then (s, Code(OperationActive))
    else (PutDecrypt(s, Some(NewCipherContext(mech, param, key))).(ticket := false), Code(CkrOk))
  }

  function DecryptStep(env: Env, s: Session, data: Option<Bytes>, buf: OutBuf): (Session, Out) {
    if buf == NoLength then (s, Code(ArgumentsBad))
    else
      match s.ops.decrypt
      case None => (s, Code(OperationNotInitialized))
      case Some(ctx) =>
        var taken := PutDecrypt(s, None);
        if ctx.key !in env.objects then (taken, Code(ObjectHandleInvalid))
        else if !TicketOk(s, env.objects[ctx.key]) then (taken, Code(UserNotLoggedIn))
        else if env.engine.None? then (taken, Code(SlotIdInvalid))
        else
          var o := env.objects[ctx.key];
          var r := if data.Some? && RsaEncMechanism(ctx.mech)
                   then env.engine.value.rsaDecrypt(ctx.mech, o.keyRef, data.value)
                   else DecryptSymmetric(env.engine.value, ctx.mech, o, ctx.iv, ctx.aad,
                                         match data case Some(d) => d case None => ctx.data, ctx.tagLen);
          match r
          case Err(rv) => (taken, Code(rv))
          case Ok(pt) => (if buf.LengthQuery? then s else taken.(ticket := false), WriteToOutput(buf, pt))
  }

  function DecryptUpdateStep(s: Session, part: Bytes): (Session, Out) {
    match s.ops.decrypt
    case None => (s, Code(OperationNotInitialized))
    case Some(ctx) => (PutDecrypt(s, Some(ctx.(data := ctx.data + part))), Out(CkrOk, Some(0), None, []))
  }

  // ---- Digest --------------------------------------------------------------------------------------------

  function DigestInitStep(s: Session, mech: MechanismType): (Session, Out) {
    if DigestAlgorithm(mech).None? then (s, Code(MechanismInvalid))
    else if s.ops.digest.Some? then (s, Code(OperationActive))
    else (PutDigest(s, Some(DigestContext(mech, [], false, false))), Code(CkrOk))
  }

  /** Hash, write, and end the operation only when bytes were delivered. */
  function FinishDigest(env: Env, s: Session, mech: MechanismType, data: Bytes, buf: OutBuf): (Session, Out)
    requires buf != NoLength
  {
    if env.engine.None? then (s, Code(SlotIdInvalid))
    else
      match DigestWith(env.engine.value, mech, data)
      case Err(rv) => (s, Code(rv))
      case Ok(hash) =>
        var out := WriteToOutput(buf, hash);
        (if out.rv == CkrOk && buf.Buffer? then PutDigest(s, None) else s, out)
  }

  /** Without a length pointer both digest calls drop the operation. */
  function DigestStep(env: Env, s: Session, data: Bytes, buf: OutBuf): (Session, Out) {
    if buf == NoLength then (PutDigest(s, None), Code(ArgumentsBad))
    else
      match s.ops.digest
      case None => (s, Code(OperationNotInitialized))
      case Some(ctx) =>
        if ctx.multiPart then (PutDigest(s, None), Code(OperationActive))
        else FinishDigest(env, PutDigest(s, Some(ctx.(singlePart := true))), ctx.mech, data, buf)
  }

  function DigestUpdateStep(s: Session, part: Bytes): (Session, Out) {
    match s.ops.digest
    case None => (s, Code(OperationNotInitialized))
    case Some(ctx) =>
      if ctx.singlePart then (s, Code(OperationActive))
      else (PutDigest(s, Some(ctx.(multiPart := true, data := ctx.data + part))), Code(CkrOk))
  }

  /** The bytes `C_DigestKey` would absorb, or the code it fails with. */
  function DigestKeyBytes(env: Env, key: ObjectHandle): Result<Bytes> {
    if key !in env.objects then Err(KeyHandleInvalid)
    else if env.engine.None? then Err(KeyIndigestible)
    else
      match env.engine.value.keyValueForDigest(env.objects[key].keyRef)
      case Ok(b) => Ok(b)
      case Err(rv) => if rv == KeyHandleInvalid || rv == ObjectHandleInvalid then Err(KeyHandleInvalid)
        else Err(KeyIndigestible)
  }

  function DigestKeyStep(env: Env, s: Session, key: ObjectHandle): (Session, Out) {
    match DigestKeyBytes(env, key)
    case Err(rv) => (s, Code(rv))
    case Ok(bytes) =>
      match s.ops.digest
      case None => (s, Code(OperationNotInitialized))
      case Some(ctx) =>
        if ctx.singlePart then (PutDigest(s, None), Code(OperationActive))
        else (PutDigest(s, Some(ctx.(multiPart := true, data := ctx.data + bytes))), Code(CkrOk))
  }

  function DigestFinalStep(env: Env, s: Session, buf: OutBuf): (Session, Out) {
    if buf == NoLength then (PutDigest(s, None), Code(ArgumentsBad))
    else
      match s.ops.digest
      case None => (s, Code(OperationNotInitialized))
      case Some(ctx) =>
        if ctx.singlePart then (PutDigest(s, None), Code(OperationActive))
        else FinishDigest(env, PutDigest(s, Some(ctx.(multiPart := true))), ctx.mech, ctx.data, buf)
  }

  // ---- Search --------------------------------------------------------------------------------------------

  function FindObjectsInitStep(s: Session, results: seq<ObjectHandle>): (Session, Out) {
    if s.ops.find.Some? then (s, Code(OperationActive))
    else (PutFind(s, Some(FindContext(results, 0))), Code(CkrOk))
  }

  function Min(a: nat, b: nat): nat { if a <= b then a else b }

  /** One batch: from the cursor, at most `max`; the subtraction saturates. */
  function NextBatch(ctx: FindContext, max: nat): seq<ObjectHandle> {
    if ctx.index <= |ctx.results| then ctx.results[ctx.index..ctx.index + Min(|ctx.results| - ctx.index, max)] else []
  }

  function FindObjectsStep(s: Session, max: nat): (Session, Out) {
    match s.ops.find
    case None => (s, Code(OperationNotInitialized))
    case Some(ctx) =>
      var batch := NextBatch(ctx, max);
      (PutFind(s, Some(ctx.(index := ctx.index + |batch|))), Out(CkrOk, Some(|batch|), None, batch))
  }

  // ---- Wrap -----------------------------------------------------------------------------------------------

  function ObjectOnSlot(objects: ObjectMap, h: ObjectHandle, slot: SlotId): Option<KeyObject> {
    if h in objects && objects[h].slot == slot then Some(objects[h]) else None
  }

  function WrapKeyStep(env: Env, s: Session, mech: MechanismType, wrappingKey: ObjectHandle, key: ObjectHandle,
                       buf: OutBuf): (Session, Out) {
    if buf == NoLength then (s, Code(ArgumentsBad))
    else if mech == CKM_DES_ECB || mech == CKM_DES_CBC || mech == CKM_DES3_ECB || mech == CKM_DES3_CBC
    then (s, Code(FunctionNotSupported))
    else
      match (ObjectOnSlot(env.objects, wrappingKey, s.slot), ObjectOnSlot(env.objects, key, s.slot))
      case (None, _) => (s, Code(WrappingKeyHandleInvalid))
      case (Some(w), target) =>
        if !AttrTrue(w.attrs, CKA_WRAP) then (s, Code(KeyFunctionNotPermitted))
        else if target.None? then (s, Code(KeyHandleInvalid))
        else if !AttrTrue(target.value.attrs, CKA_EXTRACTABLE) then (s, Code(KeyUnextractable))
        else if AttrTrue(target.value.attrs, CKA_WRAP_WITH_TRUSTED) && !AttrTrue(w.attrs, CKA_TRUSTED)
        then (s, Code(KeyNotWrappable))
        else if mech != CKM_AES_KEY_WRAP then (s, Code(MechanismInvalid))
        else if env.engine.None? then (s, Code(SlotIdInvalid))
        else
          match env.engine.value.keyWrap(w.keyRef, target.value.keyRef)
          case Err(rv) => (s, Code(rv))
          case Ok(bytes) => (if buf.LengthQuery? then s else s.(ticket := false), WriteToOutput(buf, bytes))
  }

  // ---- Dispatch -------------------------------------------------------------------------------------------

  function SessionStep(env: Env, s: Session, op: SessionOp): (Session, Out) {
    match op
    case SignInit(mech, key) => SignInitStep(s, mech, key)
    case Sign(data, buf, entropy) => SignStep(env, s, Some(data), buf, entropy)
    case SignUpdate(part) => SignUpdateStep(s, part)
    case SignFinal(buf, entropy) => SignStep(env, s, None, buf, entropy)
    case VerifyInit(mech, key) => VerifyInitStep(s, mech, key)
    case Verify(data, signature) => VerifyStep(env, s, Some(data), signature)
    case VerifyUpdate(part) => VerifyUpdateStep(s, part)
    case VerifyFinal(signature) => VerifyStep(env, s, None, signature)
    case EncryptInit(mech, param, key) => EncryptInitStep(s, mech, param, key)
    case Encrypt(data, buf, entropy) => EncryptStep(env, s, Some(data), buf, entropy)
    case EncryptUpdate(part) => EncryptUpdateStep(s, part)
    case EncryptFinal(buf) => EncryptStep(env, s, None, buf, [])
    case DecryptInit(mech, param, key) => DecryptInitStep(s, mech, param, key)
    case Decrypt(data, buf) => DecryptStep(env, s, Some(data), buf)
    case DecryptUpdate(part) => DecryptUpdateStep(s, part)
    case DecryptFinal(buf) => DecryptStep(env, s, None, buf)
    case DigestInit(mech) => DigestInitStep(s, mech)
    case Digest(data, buf) => DigestStep(env, s, data, buf)
    case DigestUpdate(part) => DigestUpdateStep(s, part)
    case DigestKey(key) => DigestKeyStep(env, s, key)
    case DigestFinal(buf) => DigestFinalStep(env, s, buf)
    case FindObjectsInit(_, results) => FindObjectsInitStep(s, results)
    case FindObjects(max) => FindObjectsStep(s, max)
    case FindObjectsFinal => (PutFind(s, None), Code(CkrOk))
    case WrapKey(mech, wrappingKey, key, buf) => WrapKeyStep(env, s, mech, wrappingKey, key, buf)
    case MessageEncryptInit(mech, key) =>
      if !AeadMechanism(mech) then (s, Code(MechanismInvalid))
      else if s.ops.msgEncrypt.Some? then (s, Code(OperationActive))
      else (s.(ops := s.ops.(msgEncrypt := Some(MessageContext(mech, key)))), Code(CkrOk))
    case MessageEncryptFinal => (s.(ops := s.ops.(msgEncrypt := None)), Code(CkrOk))
    case MessageDecryptInit(mech, key) =>
      if !AeadMechanism(mech) then (s, Code(MechanismInvalid))
      else if s.ops.msgDecrypt.Some? then (s, Code(OperationActive))
      else (s.(ops := s.ops.(msgDecrypt := Some(MessageContext(mech, key)))), Code(CkrOk))
    case MessageDecryptFinal => (s.(ops := s.ops.(msgDecrypt := None)), Code(CkrOk))
    case SessionCancel =>
      (s.(ops := Operations(None, None, None, None, None, None, s.ops.msgEncrypt, s.ops.msgDecrypt)), Code(CkrOk))
  }

  /** Context operations leave the session's identity, flags and login state alone. */
  lemma SessionStepFrame(env: Env, s: Session, op: SessionOp)
    ensures var s' := SessionStep(env, s, op).0;
            s'.handle == s.handle && s'.slot == s.slot && s'.flags == s.flags && s'.login == s.login
  {
    hide SignWith, VerifyWith, EncryptSymmetric, DecryptSymmetric, DigestWith, WriteToOutput, ExtractCipherParams;
    hide AttrTrue, NextBatch;
  }

  // ---- Streams: what a context holds ---------------------------------------------------------------------

  datatype StreamKind = SignStream | VerifyStream | EncryptStream | DecryptStream | DigestStream

  /** A stream as the caller sees it: the mechanism and key it was opened with, and the bytes fed so far. */
  datatype Stream = Stream(mech: MechanismType, key: ObjectHandle, params: CipherParams, data: Bytes)

  const NO_PARAMS: CipherParams := CipherParams([], None, 0)

  function SignView(c: Option<SignContext>): Option<Stream> {
    match c case None => None case Some(x) => Some(Stream(x.mech, x.key, NO_PARAMS, x.data))
  }

  function CipherView(c: Option<CipherContext>): Option<Stream> {
    match c case None => None case Some(x) => Some(Stream(x.mech, x.key, CipherParams(x.iv, x.aad, x.tagLen), x.data))
  }

  function DigestView(c: Option<DigestContext>): Option<Stream> {
    match c case None => None case Some(x) => Some(Stream(x.mech, 0, NO_PARAMS, x.data))
  }

  function StreamOf(ops: Operations, kind: StreamKind): Option<Stream> {
    match kind
    case SignStream => SignView(ops.sign)
    case VerifyStream => SignView(ops.verify)
    case EncryptStream => CipherView(ops.encrypt)
    case DecryptStream => CipherView(ops.decrypt)
    case DigestStream => DigestView(ops.digest)
  }

  /** The stream a successful `Init` opens. */
  function OpensStream(op: SessionOp, kind: StreamKind): Option<Stream> {
    match (kind, op)
    case (SignStream, SignInit(mech, key)) => Some(Stream(mech, key, NO_PARAMS, []))
    case (VerifyStream, VerifyInit(mech, key)) => Some(Stream(mech, key, NO_PARAMS, []))
    case (EncryptStream, EncryptInit(mech, param, key)) => Some(Stream(mech, key, ExtractCipherParams(mech, param), []))
    case (DecryptStream, DecryptInit(mech, param, key)) => Some(Stream(mech, key, ExtractCipherParams(mech, param), []))
    case (DigestStream, DigestInit(mech)) => Some(Stream(mech, 0, NO_PARAMS, []))
    case _ => None
  }

  /** The bytes a successful `Update` (or `C_DigestKey`) feeds. */
  function Feeds(env: Env, op: SessionOp, kind: StreamKind): Option<Bytes> {
    match (kind, op)
    case (SignStream, SignUpdate(part)) => Some(part)
    case (VerifyStream, VerifyUpdate(part)) => Some(part)
    case (EncryptStream, EncryptUpdate(part)) => Some(part)
    case (DecryptStream, DecryptUpdate(part)) => Some(part)
    case (DigestStream, DigestUpdate(part)) => Some(part)
    case (DigestStream, DigestKey(key)) =>
      (match DigestKeyBytes(env, key) case Ok(b) => Some(b) case Err(_) => None)
    case _ => None
  }

  /** The stream a caller expects after seeing `op` return `rv`. */
  function Expect(env: Env, before: Option<Stream>, op: SessionOp, rv: Rv, kind: StreamKind): Option<Stream> {
    if rv != CkrOk then before
    else if OpensStream(op, kind).Some? then OpensStream(op, kind)
    else
      match (before, Feeds(env, op, kind))
      case (Some(st), Some(part)) => Some(st.(data := st.data + part))
      case _ => before
  }

  /** The context afterwards is gone or holds exactly the expected stream. */
  predicate MeetsExpectation(env: Env, s: Session, op: SessionOp, kind: StreamKind) {
    var (s', out) := SessionStep(env, s, op);
    StreamOf(s'.ops, kind).None? || StreamOf(s'.ops, kind) == Expect(env, StreamOf(s.ops, kind), op, out.rv, kind)
  }

  lemma SignContextStep(env: Env, s: Session, op: SessionOp)
    ensures MeetsExpectation(env, s, op, SignStream)
  {
    hide SignWith, VerifyWith, EncryptSymmetric, DecryptSymmetric, DigestWith, WriteToOutput, ExtractCipherParams;
    hide AttrTrue, NextBatch;
  }

  lemma VerifyContextStep(env: Env, s: Session, op: SessionOp)
    ensures MeetsExpectation(env, s, op, VerifyStream)
  {
    hide SignWith, VerifyWith, EncryptSymmetric, DecryptSymmetric, DigestWith, WriteToOutput, ExtractCipherParams;
    hide AttrTrue, NextBatch;
  }

  lemma EncryptContextStep(env: Env, s: Session, op: SessionOp)
    ensures MeetsExpectation(env, s, op, EncryptStream)
  {
    hide SignWith, VerifyWith, EncryptSymmetric, DecryptSymmetric, DigestWith, WriteToOutput, ExtractCipherParams;
    hide AttrTrue, NextBatch;
  }

  lemma DecryptContextStep(env: Env, s: Session, op: SessionOp)
    ensures MeetsExpectation(env, s, op, DecryptStream)
  {
    hide SignWith, VerifyWith, EncryptSymmetric, DecryptSymmetric, DigestWith, WriteToOutput, ExtractCipherParams;
    hide AttrTrue, NextBatch;
  }

  lemma DigestContextStep(env: Env, s: Session, op: SessionOp)
    ensures MeetsExpectation(env, s, op, DigestStream)
  {
    hide SignWith, VerifyWith, EncryptSymmetric, DecryptSymmetric, DigestWith, WriteToOutput, ExtractCipherParams;
    hide AttrTrue, NextBatch;
  }

  /** Every call, on every kind of stream, meets the caller's expectation. */
  lemma StepMeetsExpectation(env: Env, s: Session, op: SessionOp, kind: StreamKind)
    ensures MeetsExpectation(env, s, op, kind)
  {
    match kind
    case SignStream => SignContextStep(env, s, op);
    case VerifyStream => VerifyContextStep(env, s, op);
    case EncryptStream => EncryptContextStep(env, s, op);
    case DecryptStream => DecryptContextStep(env, s, op);
    case DigestStream => DigestContextStep(env, s, op);
  }

  /** One-shot and multi-part digesting never mix in one operation. */
  predicate DigestModesExclusive(ops: Operations) {
    ops.digest.Some? ==> !(ops.digest.value.singlePart && ops.digest.value.multiPart)
  }

  lemma StepKeepsDigestModes(env: Env, s: Session, op: SessionOp)
    requires DigestModesExclusive(s.ops)
    ensures DigestModesExclusive(SessionStep(env, s, op).0.ops)
  {
    hide SignWith, VerifyWith, EncryptSymmetric, DecryptSymmetric, DigestWith, WriteToOutput, ExtractCipherParams;
    hide AttrTrue, NextBatch;
  }
}
