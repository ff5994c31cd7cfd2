/**
 Init/Update/Final streams over whole runs: whatever else happens in between, on
 this session or on others, a live context holds exactly the bytes the caller fed
 it, so the final result is the one-shot result on their concatenation.
 */
module Streams {
  import opened Types
  import opened Objects
  import opened Backend
  import opened Sessions
  import opened SessionOperations
  import opened Tokens
  import opened Storage
  import opened Machine
  import opened AttributePolicy
  import opened Invariants
  import opened Lineage
  import opened Tickets

  // ---- Calls that are not context operations leave contexts alone -----------------------------------------

  function OpsAt(sessions: SessionMap, h: SessionHandle): Operations {
    if h in sessions then sessions[h].ops else IDLE
  }

  /** The contexts stay, unless the search is dropped; a session that keeps its search is not being logged out. */
  predicate Kept(s: Session, s': Session) {
    s'.ops == s.ops.(find := None) || (s'.ops == s.ops && (s'.login == NotLoggedIn ==> s.login == NotLoggedIn))
  }

  /** A session that was not there before starts idle. */
  predicate SessionsKept(sessions: SessionMap, sessions': SessionMap) {
    forall h :: h in sessions' ==> sessions'[h].ops == IDLE || (h in sessions && Kept(sessions[h], sessions'[h]))
  }

  lemma ContextLoginOps(st: State, h: SessionHandle, pin: Bytes, needsActiveOp: bool)
    requires h in st.sessions
    ensures SessionsKept(st.sessions, ContextLoginStep(st, h, pin, needsActiveOp).0.sessions)
  {
    hide SlotLogin;
  }

  lemma UserLoginOps(st: State, h: SessionHandle, userType: nat, pin: Bytes, clearsTicket: bool)
    requires h in st.sessions
    ensures SessionsKept(st.sessions, UserLoginStep(st, h, userType, pin, clearsTicket).0.sessions)
  {
    hide SlotLogin, VerifyPinSpec, HasReadOnly, TokenAt, LoginAll, Kept;
    var login := if userType == CKU_SO then SoLoggedIn else UserLoggedIn;
    LoginAllKept(st.sessions, st.sessions, st.sessions[h].slot, login);
    LoginAllKept(st.sessions, ClearTicket(st, h).sessions, st.sessions[h].slot, login);
  }

  lemma LoginAllKept(sessions: SessionMap, mid: SessionMap, slot: SlotId, login: LoginState)
    requires login != NotLoggedIn && mid.Keys == sessions.Keys
    requires forall h :: h in mid ==> mid[h].ops == sessions[h].ops && mid[h].login == sessions[h].login
    ensures SessionsKept(sessions, mid) && SessionsKept(sessions, LoginAll(mid, slot, login))
  {
  }

  lemma LoginOps(st: State, h: SessionHandle, userType: nat, pin: Bytes, v3: bool)
    ensures SessionsKept(st.sessions, LoginStep(st, h, userType, pin, v3).0.sessions)
  {
    hide ContextLoginStep, UserLoginStep;
    if h in st.sessions {
      ContextLoginOps(st, h, pin, !v3);
      UserLoginOps(st, h, userType, pin, !v3);
    }
  }

  lemma LogoutOps(st: State, h: SessionHandle)
    ensures SessionsKept(st.sessions, LogoutStep(st, h).0.sessions)
  {
    hide SlotLogin;
  }

  lemma SetPinOps(st: State, h: SessionHandle, oldPin: Bytes, newPin: Bytes)
    ensures SessionsKept(st.sessions, SetPinStep(st, h, oldPin, newPin).0.sessions)
  {
    hide Snapshot, ChangePinSpec;
  }

  lemma UnwrapOps(e: Engine, st: State, h: SessionHandle, mech: MechanismType, key: ObjectHandle, wrapped: Bytes,
                  template: Template)
    ensures SessionsKept(st.sessions, UnwrapKeyStep(e, st, h, mech, key, wrapped, template).0.sessions)
  {
    hide Snapshot, UnwrappedObject, CollectTemplate, AttrTrue;
  }

  lemma DeriveOps(e: Engine, st: State, h: SessionHandle, mech: MechanismType, base: ObjectHandle,
                  params: Option<HkdfParams>, template: Template, unique: Result<Bytes>)
    ensures SessionsKept(st.sessions, DeriveKeyStep(e, st, h, mech, base, params, template, unique).0.sessions)
  {
    hide Snapshot, DerivedKey, CollectTemplate, AttrTrue, BytesToUlong;
  }

  lemma TableOps(st: State, slot: SlotId, flags: nat, h: SessionHandle)
    ensures SessionsKept(st.sessions, OpenSessionStep(st, slot, flags).0.sessions)
    ensures SessionsKept(st.sessions, CloseSessionStep(st, h).0.sessions)
    ensures SessionsKept(st.sessions, CloseAllStep(st, slot).0.sessions)
  {
    hide SlotLogin;
  }

  lemma SameOps(sessions: SessionMap)
    ensures SessionsKept(sessions, sessions) && SessionsKept(sessions, map[])
  {
  }

  lemma RunningOps(e: Engine, st: State, c: Call)
    requires !c.Op? && !c.Initialize? && !c.Finalize? && !c.Crash?
    ensures SessionsKept(st.sessions, RunningStep(e, st, c).0.sessions)
  {
    hide SessionsKept;
    hide InitTokenStep, InitPinStep, SetPinStep, OpenSessionStep, CloseSessionStep, CloseAllStep, LoginStep, LogoutStep;
    hide CreateObjectStep, CopyObjectStep, DestroyObjectStep, GenerateKeyStep, GeneratePairStep, SetAttributeStep;
    hide UnwrapKeyStep, DeriveKeyStep;
    SameOps(st.sessions);
    match c
    case SetPIN(h, oldPin, newPin) => SetPinOps(st, h, oldPin, newPin);
    case OpenSession(slot, flags) => TableOps(st, slot, flags, 0);
    case CloseSession(h) => TableOps(st, 0, 0, h);
    case CloseAllSessions(slot) => TableOps(st, slot, 0, 0);
    case Login(h, userType, pin) => LoginOps(st, h, userType, pin, false);
    case LoginUser(h, userType, pin) => LoginOps(st, h, userType, pin, true);
    case Logout(h) => LogoutOps(st, h);
    case UnwrapKey(h, mech, key, wrapped, template) => UnwrapOps(e, st, h, mech, key, wrapped, template);
    case DeriveKey(h, mech, base, params, template, unique) =>
      DeriveOps(e, st, h, mech, base, params, template, unique);
    case InitToken(_, _, _) => TokenCallsKeepSessions(e, st, c);
    case InitPIN(_, _) => TokenCallsKeepSessions(e, st, c);
    case _ => ObjectCallsKeepSessions(e, st, c);
  }

  lemma StepOps(e: Engine, st: State, c: Call)
    requires (!st.initialized ==> st.sessions == map[]) && !c.Op?
    ensures SessionsKept(st.sessions, Step(e, st, c).0.sessions)
  {
    hide SessionsKept, RunningStep, InitializeStep, FinalizeStep, Boot;
    SameOps(st.sessions);
    if c.Initialize? || c.Finalize? || c.Crash? || !st.initialized {
      LifecycleDropsSessions(e, st, c);
    } else {
      RunningOps(e, st, c);
    }
  }

  /** A context operation touches the contexts of its own session only. */
  lemma OpTouchesOwnSession(e: Engine, st: State, c: Call, h: SessionHandle)
    requires c.Op?
    ensures var st' := Step(e, st, c).0;
            if c.h == h && h in st.sessions && st.initialized
            then h in st'.sessions && st'.sessions[h] == SessionStep(EnvOf(e, st, h), st.sessions[h], c.op).0
                 && Step(e, st, c).1 == SessionStep(EnvOf(e, st, h), st.sessions[h], c.op).1
            else OpsAt(st'.sessions, h) == OpsAt(st.sessions, h)
  {
    hide SessionStep;
  }

  // ---- The stream the caller has in mind -------------------------------------------------------------------

  /** The caller's view of a stream after a run, from what was asked and answered on that session. */
  ghost function Tracked(kind: StreamKind, e: Engine, st: State, calls: seq<Call>, h: SessionHandle): Option<Stream> {
    if calls == [] then StreamOf(OpsAt(st.sessions, h), kind)
    else
      var before := After(e, st, calls[..|calls| - 1]);
      var c := calls[|calls| - 1];
      var stream := Tracked(kind, e, st, calls[..|calls| - 1], h);
      if c.Op? && c.h == h && h in before.sessions && before.initialized
      then Expect(EnvOf(e, before, h), stream, c.op, Step(e, before, c).1.rv, kind)
      else stream
  }

  lemma KeptStream(kind: StreamKind, sessions: SessionMap, sessions': SessionMap, h: SessionHandle)
    requires SessionsKept(sessions, sessions')
    ensures var stream := StreamOf(OpsAt(sessions', h), kind);
            stream.None? || stream == StreamOf(OpsAt(sessions, h), kind)
  {
  }

  /** With a live context before, the caller's view moves as the context does. */
  lemma ExpectationStep(kind: StreamKind, env: Env, s: Session, stream: Option<Stream>, op: SessionOp)
    requires StreamOf(s.ops, kind).None? || StreamOf(s.ops, kind) == stream
    ensures var (s', out) := SessionStep(env, s, op);
            StreamOf(s'.ops, kind).None? || StreamOf(s'.ops, kind) == Expect(env, stream, op, out.rv, kind)
  {
    hide SessionStep, StreamOf;
    StepMeetsExpectation(env, s, op, kind);
  }

  /**
   For every kind of stream, every run and every interleaving: a live context holds
   exactly the mechanism, key and parameters it was opened with and the concatenation
   of the parts fed since.
   */
  lemma {:induction false} ContextIsTracked(kind: StreamKind, e: Engine, disk: Option<StoredState>, calls: seq<Call>,
                                            h: SessionHandle)
    ensures var ops := OpsAt(After(e, Boot(disk), calls).sessions, h);
            StreamOf(ops, kind).None? || StreamOf(ops, kind) == Tracked(kind, e, Boot(disk), calls, h)
  {
    hide Step, SessionStep, StreamOf, Expect;
    if calls != [] {
      var before := calls[..|calls| - 1];
      var c := calls[|calls| - 1];
      var st := After(e, Boot(disk), before);
      ContextIsTracked(kind, e, disk, before, h);
      OffHasNoSessions(e, disk, before);
      if c.Op? {
        OpTouchesOwnSession(e, st, c, h);
        if c.h == h && h in st.sessions && st.initialized {
          ExpectationStep(kind, EnvOf(e, st, h), st.sessions[h], Tracked(kind, e, Boot(disk), before, h), c.op);
        }
      } else {
        StepOps(e, st, c);
        KeptStream(kind, st.sessions, Step(e, st, c).0.sessions, h);
      }
    }
  }

  // ---- Digest ----------------------------------------------------------------------------------------------

  lemma FinalDigest(env: Env, s: Session, buf: OutBuf)
    requires buf.Buffer? && SessionStep(env, s, DigestFinal(buf)).1.rv == CkrOk
    ensures var ctx := StreamOf(s.ops, DigestStream);
            && ctx.Some? && env.engine.Some?
            && SessionStep(env, s, DigestFinal(buf)).1.bytes.Some?
            && DigestWith(env.engine.value, ctx.value.mech, ctx.value.data) ==
               Ok(SessionStep(env, s, DigestFinal(buf)).1.bytes.value)
  {
    hide DigestWith;
  }

  lemma OneShotDigest(env: Env, s: Session, data: Bytes, buf: OutBuf)
    requires buf.Buffer? && SessionStep(env, s, Digest(data, buf)).1.rv == CkrOk
    ensures var ctx := StreamOf(s.ops, DigestStream);
            && ctx.Some? && env.engine.Some?
            && SessionStep(env, s, Digest(data, buf)).1.bytes.Some?
            && DigestWith(env.engine.value, ctx.value.mech, data) ==
               Ok(SessionStep(env, s, Digest(data, buf)).1.bytes.value)
  {
    hide DigestWith;
  }

  lemma EngineOf(e: Engine, st: State, h: SessionHandle)
    requires h in st.sessions && EnvOf(e, st, h).engine.Some?
    ensures EnvOf(e, st, h).engine.value == e
  {
  }

  /**
   Streaming digest refines one-shot digest: after any run, a delivered `C_DigestFinal`
   is the hash of everything fed to the stream, and any `C_Digest` on those bytes with
   the same mechanism, in whatever session and state, delivers the same bytes.
   */
  lemma StreamingDigestIsOneShot(e: Engine, disk: Option<StoredState>, calls: seq<Call>, h: SessionHandle, buf: OutBuf,
                                 other: State, h': SessionHandle, buf': OutBuf)
    requires var st := After(e, Boot(disk), calls);
             && st.initialized && h in st.sessions && buf.Buffer?
             && Step(e, st, Op(h, DigestFinal(buf))).1.rv == CkrOk
    ensures var out := Step(e, After(e, Boot(disk), calls), Op(h, DigestFinal(buf))).1;
            var fed := Tracked(DigestStream, e, Boot(disk), calls, h);
            && fed.Some? && out.bytes.Some?
            && DigestWith(e, fed.value.mech, fed.value.data) == Ok(out.bytes.value)
            && (var once := Step(e, other, Op(h', Digest(fed.value.data, buf'))).1;
                other.initialized && h' in other.sessions && buf'.Buffer? && once.rv == CkrOk
                && DigestView(other.sessions[h'].ops.digest).Some?
                && DigestView(other.sessions[h'].ops.digest).value.mech == fed.value.mech
                ==> once.bytes == out.bytes)
  {
    hide Step, SessionStep, DigestWith;
    var st := After(e, Boot(disk), calls);
    ContextIsTracked(DigestStream, e, disk, calls, h);
    OpTouchesOwnSession(e, st, Op(h, DigestFinal(buf)), h);
    FinalDigest(EnvOf(e, st, h), st.sessions[h], buf);
    EngineOf(e, st, h);
    var fed := Tracked(DigestStream, e, Boot(disk), calls, h).value;
    var once := Op(h', Digest(fed.data, buf'));
    if other.initialized && h' in other.sessions && buf'.Buffer? && Step(e, other, once).1.rv == CkrOk {
      OpTouchesOwnSession(e, other, once, h');
      OneShotDigest(EnvOf(e, other, h'), other.sessions[h'], fed.data, buf');
      EngineOf(e, other, h');
    }
  }

  /** A length query or a buffer that is too small does not end the stream: retrying with the reported size delivers. */
  lemma DigestFinalRetry(env: Env, s: Session, buf: OutBuf, cap: nat)
    requires buf != NoLength && s.ops.digest.Some? && !s.ops.digest.value.singlePart
    requires var out := SessionStep(env, s, DigestFinal(buf)).1;
             out.bytes.None? && out.len.Some? && out.len.value <= cap
    ensures var s' := SessionStep(env, s, DigestFinal(buf)).0;
            && StreamOf(s'.ops, DigestStream) == StreamOf(s.ops, DigestStream)
            && SessionStep(env, s', DigestFinal(Buffer(cap))).1.rv == CkrOk
  {
    hide DigestWith;
  }

  /** In every reachable state no digest operation is both single-part and multi-part. */
  lemma {:induction false} DigestModesNeverMix(e: Engine, disk: Option<StoredState>, calls: seq<Call>, h: SessionHandle)
    ensures DigestModesExclusive(OpsAt(After(e, Boot(disk), calls).sessions, h))
  {
    hide Step, SessionStep;
    if calls != [] {
      var before := calls[..|calls| - 1];
      var c := calls[|calls| - 1];
      var st := After(e, Boot(disk), before);
      DigestModesNeverMix(e, disk, before, h);
      OffHasNoSessions(e, disk, before);
      if c.Op? {
        OpTouchesOwnSession(e, st, c, h);
        if c.h == h && h in st.sessions && st.initialized {
          StepKeepsDigestModes(EnvOf(e, st, h), st.sessions[h], c.op);
        }
      } else {
        StepOps(e, st, c);
      }
    }
  }

  // ---- Sign and verify -------------------------------------------------------------------------------------

  /** The bytes a final or one-shot call works on. */
  function FinalMessage(op: SessionOp, fed: Bytes): Bytes {
    if op.Sign? || op.Verify? || op.Encrypt? || op.Decrypt? then op.data else fed
  }

  lemma DeliveredSignature(env: Env, s: Session, op: SessionOp)
    requires (op.Sign? || op.SignFinal?) && op.buf.Buffer? && SessionStep(env, s, op).1.rv == CkrOk
    ensures var ctx := StreamOf(s.ops, SignStream);
            && ctx.Some? && env.engine.Some? && ctx.value.key in env.objects
            && SessionStep(env, s, op).1.bytes.Some?
            && SignWith(env.engine.value, ctx.value.mech, env.objects[ctx.value.key], FinalMessage(op, ctx.value.data),
                        op.entropy)
               == Ok(SessionStep(env, s, op).1.bytes.value)
  {
    hide SignWith;
  }

  /** RSA signatures of the wrong length, or under a key without `CKA_MODULUS`, are refused before verification. */
  lemma CheckedSignature(env: Env, s: Session, op: SessionOp)
    requires (op.Verify? || op.VerifyFinal?) && env.engine.Some?
    requires StreamOf(s.ops, VerifyStream).Some? && StreamOf(s.ops, VerifyStream).value.key in env.objects
    ensures var ctx := StreamOf(s.ops, VerifyStream).value;
            var o := env.objects[ctx.key];
            var modulus := Lookup(o.attrs, CKA_MODULUS);
            SessionStep(env, s, op).1.rv ==
              if IsRsa(o) && modulus.None? then AttributeTypeInvalid
              else if IsRsa(o) && |op.signature| != |modulus.value| then SignatureLenRange
              else VerifyWith(env.engine.value, ctx.mech, o, FinalMessage(op, ctx.data), op.signature)
  {
    hide VerifyWith;
  }

  lemma EnvHasEngine(e: Engine, disk: Option<StoredState>, calls: seq<Call>, h: SessionHandle)
    requires DiskOk(disk) && Fits(Boot(disk), TotalDraws(calls)) && h in After(e, Boot(disk), calls).sessions
    ensures EnvOf(e, After(e, Boot(disk), calls), h).engine == Some(e)
  {
    hide After;
    RunKeepsInv(e, disk, calls, 0);
    SessionSlotRegistered(After(e, Boot(disk), calls), h);
  }

  /**
   Sign and verify across chunkings: a signature delivered at the end of any run is
   accepted at the end of any other run whose verify stream holds the same message,
   however either message was cut up, for every mechanism and key type signing accepts;
   for an RSA key if and only if its `CKA_MODULUS` has the length of its modulus.
   */
  lemma SignedIsAccepted(e: Engine, pair: (Bytes, Bytes) -> bool, modulusLen: Bytes -> nat,
                         disk: Option<StoredState>, calls: seq<Call>, h: SessionHandle, sign: SessionOp,
                         disk': Option<StoredState>, calls': seq<Call>, h': SessionHandle, verify: SessionOp)
    requires SignatureLaw(e, pair) && RsaLengthLaw(e, pair, modulusLen)
    requires (sign.Sign? || sign.SignFinal?) && sign.buf.Buffer? && (verify.Verify? || verify.VerifyFinal?)
    requires var st := After(e, Boot(disk), calls);
             && st.initialized && h in st.sessions
             && Step(e, st, Op(h, sign)).1.rv == CkrOk && Step(e, st, Op(h, sign)).1.bytes == Some(verify.signature)
    requires DiskOk(disk') && Fits(Boot(disk'), TotalDraws(calls'))
    requires var st' := After(e, Boot(disk'), calls');
             && st'.initialized && h' in st'.sessions && StreamOf(st'.sessions[h'].ops, VerifyStream).Some?
    requires SameMessage(e, disk, calls, h, sign, disk', calls', h', verify, pair)
    ensures var st' := After(e, Boot(disk'), calls');
            Step(e, st', Op(h', verify)).1.rv == CkrOk <==>
            ModulusFits(st'.objects[Tracked(VerifyStream, e, Boot(disk'), calls', h').value.key], modulusLen)
  {
    hide Step, SessionStep, SignWith, VerifyWith, SignatureLaw, RsaLengthLaw, After, Tracked, DiskOk, StreamOf;
    var st, st' := After(e, Boot(disk), calls), After(e, Boot(disk'), calls');
    ContextIsTracked(SignStream, e, disk, calls, h);
    ContextIsTracked(VerifyStream, e, disk', calls', h');
    OpTouchesOwnSession(e, st, Op(h, sign), h);
    OpTouchesOwnSession(e, st', Op(h', verify), h');
    DeliveredSignature(EnvOf(e, st, h), st.sessions[h], sign);
    EngineOf(e, st, h);
    EnvHasEngine(e, disk', calls', h');
    var s := Tracked(SignStream, e, Boot(disk), calls, h).value;
    var v := Tracked(VerifyStream, e, Boot(disk'), calls', h').value;
    var signer, verifier := st.objects[s.key], st'.objects[v.key];
    var m := FinalMessage(sign, s.data);
    VerifyAcceptsSigned(e, pair, s.mech, signer, verifier, m, sign.entropy, verify.signature);
    if signer.keyType == RsaPrivate {
      RsaSignatureLength(e, pair, modulusLen, s.mech, signer, verifier, m, sign.entropy, verify.signature);
    }
    CheckedSignature(EnvOf(e, st', h'), st'.sessions[h'], verify);
  }

  /** Both streams hold the same message under the same mechanism, and the two keys belong together. */
  ghost predicate SameMessage(e: Engine, disk: Option<StoredState>, calls: seq<Call>, h: SessionHandle, sign: SessionOp,
                              disk': Option<StoredState>, calls': seq<Call>, h': SessionHandle, verify: SessionOp,
                              pair: (Bytes, Bytes) -> bool) {
    var s, v := Tracked(SignStream, e, Boot(disk), calls, h), Tracked(VerifyStream, e, Boot(disk'), calls', h');
    var objects, objects' := After(e, Boot(disk), calls).objects, After(e, Boot(disk'), calls').objects;
    && s.Some? && v.Some? && s.value.mech == v.value.mech
    && FinalMessage(sign, s.value.data) == FinalMessage(verify, v.value.data)
    && s.value.key in objects && v.value.key in objects'
    && KeysCorrespond(objects[s.value.key], objects'[v.value.key], pair)
  }

  /** An RSA key's `CKA_MODULUS` is there and has the length of its modulus. */
  predicate ModulusFits(o: KeyObject, modulusLen: Bytes -> nat) {
    o.keyType == RsaPublic ==>
      var modulus := Lookup(o.attrs, CKA_MODULUS);
      modulus.Some? && |modulus.value| == modulusLen(o.keyRef)
  }

  /** A generated RSA public key keeps a fitting `CKA_MODULUS` for as long as it is there, whatever is written to it. */
  lemma GeneratedModulusFits(e: Engine, st: State, calls: seq<Call>, k: nat, h: ObjectHandle, session: SessionHandle,
                             slot: SlotId, p: GeneratedPair, attrs: Attributes, modulusLen: Bytes -> nat)
    requires Inv(st) && Fits(st, TotalDraws(calls)) && k <= |calls| && PresentSince(e, st, calls, k, h)
    requires h in After(e, st, calls[..k]).objects
    requires After(e, st, calls[..k]).objects[h] ==
             Tagged(PublicHalf(h, slot, CKM_RSA_PKCS_KEY_PAIR_GEN, p, attrs), session)
    requires |p.first| == modulusLen(p.pubRef)
    ensures h in After(e, st, calls).objects && ModulusFits(After(e, st, calls).objects[h], modulusLen)
  {
    hide After, Inv, PresentSince, UlongBytes;
    ImmutableSinceCreation(e, st, calls, k, h);
    assert Immutable(CKA_MODULUS);
  }

  // ---- Authenticated encryption ------------------------------------------------------------------------------

  lemma DeliveredCiphertext(env: Env, s: Session, op: SessionOp)
    requires (op.Encrypt? || op.EncryptFinal?) && op.buf.Buffer? && SessionStep(env, s, op).1.rv == CkrOk
    requires CipherView(s.ops.encrypt).Some? ==> AeadMechanism(CipherView(s.ops.encrypt).value.mech)
    ensures var ctx := StreamOf(s.ops, EncryptStream);
            && ctx.Some? && env.engine.Some? && ctx.value.key in env.objects
            && SessionStep(env, s, op).1.bytes.Some?
            && EncryptSymmetric(env.engine.value, ctx.value.mech, env.objects[ctx.value.key], ctx.value.params.iv,
                                ctx.value.params.aad,
                                FinalMessage(op, ctx.value.data)) == Ok(SessionStep(env, s, op).1.bytes.value)
  {
    hide EncryptSymmetric;
  }

  /** What a decrypt call returns, when its key is there and authentication is not missing. */
  lemma DecryptOutcome(env: Env, s: Session, op: SessionOp)
    requires (op.Decrypt? || op.DecryptFinal?) && op.buf != NoLength && env.engine.Some?
    requires var ctx := StreamOf(s.ops, DecryptStream);
             ctx.Some? && ctx.value.key in env.objects && AeadMechanism(ctx.value.mech)
               && TicketOk(s, env.objects[ctx.value.key])
    ensures var ctx := StreamOf(s.ops, DecryptStream).value;
            SessionStep(env, s, op).1 ==
              match DecryptSymmetric(env.engine.value, ctx.mech, env.objects[ctx.key], ctx.params.iv, ctx.params.aad,
                                     FinalMessage(op, ctx.data), ctx.params.tagLen)
              case Ok(pt) => WriteToOutput(op.buf, pt)
              case Err(rv) => Code(rv)
  {
    hide DecryptSymmetric;
  }

  /** The decrypt stream holds the frame, with the same key, IV and associated data, and the engine's tag length. */
  ghost predicate SameFrame(e: Engine, disk: Option<StoredState>, calls: seq<Call>, h: SessionHandle,
                            disk': Option<StoredState>, calls': seq<Call>, h': SessionHandle, dec: SessionOp,
                            frame: Bytes)
  {
    var c, d := Tracked(EncryptStream, e, Boot(disk), calls, h), Tracked(DecryptStream, e, Boot(disk'), calls', h');
    var objects, st' := After(e, Boot(disk), calls).objects, After(e, Boot(disk'), calls');
    && c.Some? && d.Some? && c.value.mech == d.value.mech && AeadMechanism(c.value.mech)
    && c.value.params.iv == d.value.params.iv && c.value.params.aad == d.value.params.aad
       && d.value.params.tagLen == AEAD_TAG_LEN
    && FinalMessage(dec, d.value.data) == frame
    && c.value.key in objects && d.value.key in st'.objects
       && st'.objects[d.value.key].keyRef == objects[c.value.key].keyRef
    && h' in st'.sessions && TicketOk(st'.sessions[h'], st'.objects[d.value.key])
  }

  /**
   AEAD framing over whole runs: what an encrypt stream delivered, fed in any pieces to
   a decrypt stream with the same parameters, comes back as the plaintext in any pieces.
   */
  lemma SealedComesBack(e: Engine, disk: Option<StoredState>, calls: seq<Call>, h: SessionHandle, enc: SessionOp,
                        frame: Bytes,
                        disk': Option<StoredState>, calls': seq<Call>, h': SessionHandle, dec: SessionOp)
    requires AeadLaw(e)
    requires (enc.Encrypt? || enc.EncryptFinal?) && enc.buf.Buffer? && (dec.Decrypt? || dec.DecryptFinal?)
             && dec.buf != NoLength
    requires var st := After(e, Boot(disk), calls);
             && st.initialized && h in st.sessions
             && Step(e, st, Op(h, enc)).1.rv == CkrOk && Step(e, st, Op(h, enc)).1.bytes == Some(frame)
    requires DiskOk(disk') && Fits(Boot(disk'), TotalDraws(calls'))
    requires var st' := After(e, Boot(disk'), calls');
             && st'.initialized && h' in st'.sessions && StreamOf(st'.sessions[h'].ops, DecryptStream).Some?
    requires StreamOf(After(e, Boot(disk), calls).sessions[h].ops, EncryptStream).Some?
    requires SameFrame(e, disk, calls, h, disk', calls', h', dec, frame)
    ensures var plain := FinalMessage(enc, Tracked(EncryptStream, e, Boot(disk), calls, h).value.data);
            Step(e, After(e, Boot(disk'), calls'), Op(h', dec)).1 == WriteToOutput(dec.buf, plain)
  {
    hide Step, SessionStep, EncryptSymmetric, DecryptSymmetric, AeadLaw, After, Tracked, DiskOk, WriteToOutput;
    var st, st' := After(e, Boot(disk), calls), After(e, Boot(disk'), calls');
    ContextIsTracked(EncryptStream, e, disk, calls, h);
    ContextIsTracked(DecryptStream, e, disk', calls', h');
    OpTouchesOwnSession(e, st, Op(h, enc), h);
    OpTouchesOwnSession(e, st', Op(h', dec), h');
    DeliveredCiphertext(EnvOf(e, st, h), st.sessions[h], enc);
    EngineOf(e, st, h);
    EnvHasEngine(e, disk', calls', h');
    var c := Tracked(EncryptStream, e, Boot(disk), calls, h).value;
    var d := Tracked(DecryptStream, e, Boot(disk'), calls', h').value;
    AeadRoundTrip(e, c.mech, st.objects[c.key], st'.objects[d.key], c.params.iv, c.params.aad,
                  FinalMessage(enc, c.data), frame);
    DecryptOutcome(EnvOf(e, st', h'), st'.sessions[h'], dec);
  }

  /** A decrypt stream that holds less than a tag is refused, whatever the buffer. */
  lemma ShortFrameRefused(env: Env, s: Session, op: SessionOp)
    requires (op.Decrypt? || op.DecryptFinal?) && op.buf != NoLength && env.engine.Some?
    requires var ctx := StreamOf(s.ops, DecryptStream);
             && ctx.Some? && ctx.value.key in env.objects && AeadMechanism(ctx.value.mech)
                && TicketOk(s, env.objects[ctx.value.key])
             && |FinalMessage(op, ctx.value.data)| < ctx.value.params.tagLen
    ensures SessionStep(env, s, op).1 == Code(EncryptedDataInvalid)
  {
  }
}
