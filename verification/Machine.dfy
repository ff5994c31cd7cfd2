/**
 The whole provider as one state machine: slot registry, session table, tokens,
 object store and disk image, with every entry point as one atomic step. A crash
 is a step too: memory is lost, the disk stays.
 */
module Machine {
  import opened Types
  import opened Objects
  import opened AttributePolicy
  import opened Backend
  import opened Registry
  import opened Sessions
  import opened SessionOperations
  import opened Tokens
  import opened Storage

  datatype State = State(
    initialized: bool,
    registry: RegistryData,
    sessions: SessionMap,
    nextSession: SessionHandle,
    tokens: map<SlotId, TokenData>,
    objects: ObjectMap,
    nextHandle: ObjectHandle,
    disk: Option<StoredState>)

  /** A process that has just started, over whatever the disk holds. */
  function Boot(disk: Option<StoredState>): State {
    State(false, EMPTY, map[], 1, map[], map[], 1, disk)
  }

  datatype InitArgs = InitArgs(reserved: bool, mutexCallbacks: bool, osLockingOk: bool)

  /**
   What the engine returns for a generated key pair; `first` and `second` are modulus and exponent, or curve
   and point.
   */
  datatype GeneratedPair = GeneratedPair(privRef: Bytes, pubRef: Bytes, first: Bytes, second: Bytes, bits: nat)

  datatype HkdfParams = HkdfParams(prf: MechanismType, salt: Bytes, info: Bytes)

  datatype Call =
    | Initialize(args: Option<InitArgs>, slotCount: nat)
    | Finalize(reserved: bool)
    | Crash
    | InitToken(slot: SlotId, pin: Bytes, text: Bytes)
    | InitPIN(h: SessionHandle, pin: Bytes)
    | SetPIN(h: SessionHandle, oldPin: Bytes, newPin: Bytes)
    | OpenSession(slot: SlotId, flags: nat)
    | CloseSession(h: SessionHandle)
    | CloseAllSessions(slot: SlotId)
    | Login(h: SessionHandle, userType: nat, pin: Bytes)
    | LoginUser(h: SessionHandle, userType: nat, pin: Bytes)
    | Logout(h: SessionHandle)
    | CreateObject(h: SessionHandle, template: Template)
    | CopyObject(h: SessionHandle, target: ObjectHandle, template: Template)
    | DestroyObject(h: SessionHandle, target: ObjectHandle)
    | SetAttributeValue(h: SessionHandle, target: ObjectHandle, template: Template)
    | GenerateKey(h: SessionHandle, mech: MechanismType, template: Template, made: Result<(Bytes, Bytes)>)
    | GenerateKeyPair(h: SessionHandle, mech: MechanismType, pubTemplate: Template, privTemplate: Template,
                      pair: Result<GeneratedPair>)
    | UnwrapKey(h: SessionHandle, mech: MechanismType, key: ObjectHandle, wrapped: Bytes, template: Template)
    | DeriveKey(h: SessionHandle, mech: MechanismType, base: ObjectHandle, params: Option<HkdfParams>,
                template: Template, unique: Result<Bytes>)
    | Op(h: SessionHandle, op: SessionOp)

  // ---- Store primitives -------------------------------------------------------------------------

  /** A slot's token; one that has not been touched yet reads as the default token. */
  function TokenAt(tokens: map<SlotId, TokenData>, slot: SlotId): TokenData {
    if slot in tokens then tokens[slot] else DefaultToken(slot)
  }

  /** `persist_if_needed`: all token objects but profiles, and the token of every registered slot. */
  function Snapshot(st: State): StoredState {
    StoredState(
      map s | s in st.registry.slots :: ToStoredToken(TokenAt(st.tokens, s)),
      None,
      map h | h in st.objects && Persistable(st.objects[h])
        && st.objects[h].slot in st.registry.slots :: ToStored(st.objects[h]),
      st.nextHandle)
  }

  function Persist(st: State): State {
    st.(disk := Some(Snapshot(st)))
  }

  /** `next_handle`: the handle is the counter's value, then the counter moves. */
  function Draw(st: State): State {
    st.(nextHandle := Bump(st.nextHandle))
  }

  /** `store_object`: session objects are tagged with their session, token objects are saved. */
  function Store(st: State, o: KeyObject, session: SessionHandle): State {
    if IsTokenObject(o) then Persist(st.(objects := st.objects[o.handle := o]))
    else st.(objects := st.objects[o.handle := o.(creatingSession := Some(session))])
  }

  /** `retain` on the object map. */
  function Without(objects: ObjectMap, gone: set<ObjectHandle>): ObjectMap {
    map h | h in objects && h !in gone :: objects[h]
  }

  function OwnedBy(objects: ObjectMap, session: SessionHandle): set<ObjectHandle> {
    set h | h in objects && objects[h].creatingSession == Some(session)
  }

  function SessionObjectsOn(objects: ObjectMap, slot: SlotId): set<ObjectHandle> {
    set h | h in objects && objects[h].slot == slot && IsSessionObject(objects[h])
  }

  function PrivateSessionObjectsOn(objects: ObjectMap, slot: SlotId): set<ObjectHandle> {
    set h | h in objects && objects[h].slot == slot && IsSessionObject(objects[h]) && IsPrivateObject(objects[h])
  }

  function ObjectsOn(objects: ObjectMap, slot: SlotId): set<ObjectHandle> {
    set h | h in objects && objects[h].slot == slot
  }

  predicate HasProfile(objects: ObjectMap, slot: SlotId) {
    exists h :: h in objects && objects[h].slot == slot && objects[h].keyType == Profile
  }

  /** `ensure_baseline_profile`. */
  function EnsureProfile(st: State, slot: SlotId): State {
    if HasProfile(st.objects, slot) then st
    else Draw(st).(objects := st.objects[st.nextHandle := ProfileObject(st.nextHandle, slot)])
  }

  function EnsureProfiles(st: State, ids: seq<SlotId>): State {
    if ids == [] then st else EnsureProfile(EnsureProfiles(st, ids[..|ids| - 1]), ids[|ids| - 1])
  }

  function EnsureTokens(tokens: map<SlotId, TokenData>, ids: seq<SlotId>): map<SlotId, TokenData> {
    map s | s in tokens.Keys + (set i | i in ids) :: TokenAt(tokens, s)
  }

  /** The greatest member, or zero for the empty set. */
  ghost function MaxOf(s: set<nat>): (m: nat)
    ensures forall x :: x in s ==> x <= m
    ensures s != {} ==> m in s
    ensures s == {} ==> m == 0
  {
    if s == {} then 0
    else
      var x :| x in s;
      var rest := MaxOf(s - {x});
      assert forall y :: y in s ==> y == x || y in s - {x};
      if x >= rest then x else rest
  }

  function Max(a: nat, b: nat): nat { if a >= b then a else b }

  function LoadedObjects(d: StoredState, registry: RegistryData): ObjectMap {
    map h | h in d.objects && d.objects[h].slot in registry.slots :: Restore(d.objects[h])
  }

  function LoadedTokens(d: StoredState, tokens: map<SlotId, TokenData>): map<SlotId, TokenData> {
    if d.tokens != map[] then tokens + map s | s in d.tokens :: RestoreToken(d.tokens[s], s)
    else if d.legacyToken.Some? then tokens[0 := RestoreToken(d.legacyToken.value, 0)]
    else tokens
  }

  /** `load_persisted_objects`: objects of unregistered slots are skipped, the counter moves past everything loaded. */
  ghost function Load(st: State): State {
    match st.disk
    case None => st
    case Some(d) =>
      var objects := st.objects + LoadedObjects(d, st.registry);
      st.(objects := objects,
          nextHandle := Max(d.nextHandle, Bump(MaxOf(objects.Keys))),
          tokens := LoadedTokens(d, st.tokens))
  }

  // ---- Lifecycle --------------------------------------------------------------------------------

  function InitArgsCheck(args: Option<InitArgs>): Rv {
    if args.None? then CkrOk
    else if args.value.reserved then ArgumentsBad
    else if args.value.mutexCallbacks && !args.value.osLockingOk then CantLock
    else CkrOk
  }

  /** Register the engine's slots, reload, then make sure every slot has a token and a profile. */
  ghost function StartUp(st: State, slotCount: nat): State {
    var ids := Range(st.registry.next, slotCount);
    var loaded := Load(st.(registry := Register(st.registry, slotCount)));
    EnsureProfiles(loaded.(tokens := EnsureTokens(loaded.tokens, ids)), ids).(initialized := true)
  }

  ghost function InitializeStep(st: State, args: Option<InitArgs>, slotCount: nat): (State, Out) {
    if InitArgsCheck(args) != CkrOk then (st, Code(InitArgsCheck(args)))
    else if st.initialized then (st, Code(CryptokiAlreadyInitialized))
    else (StartUp(st, slotCount), Code(CkrOk))
  }

  /** `shutdown`: sessions go, the store is saved while the registry is live, then memory is cleared. */
  function Shutdown(st: State): State {
    Persist(st.(sessions := map[])).(objects := map[], tokens := map[], registry := EMPTY, initialized := false)
  }

  function FinalizeStep(st: State, reserved: bool): (State, Out) {
    if reserved then (st, Code(ArgumentsBad))
    else if !st.initialized then (st, Code(CryptokiNotInitialized))
    else (Shutdown(st), Code(CkrOk))
  }

  // ---- Tokens ------------------------------------------------------------------------------------

  function PutToken(st: State, slot: SlotId, t: TokenData): State {
    st.(tokens := st.tokens[slot := t])
  }

  function InitTokenStep(st: State, slot: SlotId, pin: Bytes, text: Bytes): (State, Out) {
    if slot !in st.registry.slots then (st, Code(SlotIdInvalid))
    else if HasSessions(st.sessions, slot) then (st, Code(SessionExists))
    else
      var (t, rv) := InitTokenSpec(TokenAt(st.tokens, slot), pin, Padded(text, LABEL_LEN));
      var st1 := PutToken(st, slot, t);
      if rv != CkrOk then (st1, Code(rv))
      else (Persist(EnsureProfile(Persist(st1.(objects := Without(st.objects, ObjectsOn(st.objects, slot)))), slot)),
            Code(CkrOk))
  }

  /** `require_rw_session`. */
  function RwCheck(st: State, h: SessionHandle): Rv {
    if h !in st.sessions then SessionHandleInvalid
    else if !IsRw(st.sessions[h]) then SessionReadOnly
    else CkrOk
  }

  function InitPinStep(st: State, h: SessionHandle, pin: Bytes): (State, Out) {
    if RwCheck(st, h) != CkrOk then (st, Code(RwCheck(st, h)))
    else if st.sessions[h].login != SoLoggedIn then (st, Code(UserNotLoggedIn))
    else
      var slot := st.sessions[h].slot;
      var (t, rv) := InitPinSpec(TokenAt(st.tokens, slot), pin);
      if rv != CkrOk then (PutToken(st, slot, t), Code(rv)) else (Persist(PutToken(st, slot, t)), Code(CkrOk))
  }

  function ClearTicket(st: State, h: SessionHandle): State
    requires h in st.sessions
  {
    st.(sessions := st.sessions[h := st.sessions[h].(ticket := false)])
  }

  function SetPinStep(st: State, h: SessionHandle, oldPin: Bytes, newPin: Bytes): (State, Out) {
    if RwCheck(st, h) != CkrOk then (st, Code(RwCheck(st, h)))
    else
      var slot := st.sessions[h].slot;
      var userType := if st.sessions[h].login == SoLoggedIn then CKU_SO else CKU_USER;
      var (t, rv) := ChangePinSpec(TokenAt(st.tokens, slot), userType, oldPin, newPin);
      if rv != CkrOk then (PutToken(st, slot, t), Code(rv))
      else (ClearTicket(Persist(PutToken(st, slot, t)), h), Code(CkrOk))
  }

  // ---- Sessions ----------------------------------------------------------------------------------

  function OpenSessionStep(st: State, slot: SlotId, flags: nat): (State, Out) {
    if slot !in st.registry.slots then (st, Code(SlotIdInvalid))
    else
      var (sessions, rv) := OpenSpec(st.sessions, st.nextSession, slot, flags);
      if rv != CkrOk then (st, Code(rv))
      else (st.(sessions := sessions, nextSession := Bump(st.nextSession)), Out(CkrOk, None, None, [st.nextSession]))
  }

  function CloseSessionStep(st: State, h: SessionHandle): (State, Out) {
    if h !in st.sessions then (st, Code(SessionHandleInvalid))
    else (st.(sessions := st.sessions - {h}, objects := Without(st.objects, OwnedBy(st.objects, h))), Code(CkrOk))
  }

  function CloseAllStep(st: State, slot: SlotId): (State, Out) {
    if slot !in st.registry.slots then (st, Code(SlotIdInvalid))
    else (st.(sessions := CloseAll(st.sessions, slot),
              objects := Without(st.objects, SessionObjectsOn(st.objects, slot))), Code(CkrOk))
  }

  predicate PrivateOpActive(ops: Operations) {
    ops.sign.Some? || ops.decrypt.Some? || ops.msgDecrypt.Some? || ops.encrypt.Some? || ops.msgEncrypt.Some?
  }

  /** Re-authentication for one use of an always-authenticate key; only `C_Login` insists on an active operation. */
  function ContextLoginStep(st: State, h: SessionHandle, pin: Bytes, needsActiveOp: bool): (State, Out)
    requires h in st.sessions
  {
    var s := st.sessions[h];
    if SlotLogin(st.sessions, s.slot) != UserLoggedIn then (st, Code(UserNotLoggedIn))
    else if !Verifies(TokenAt(st.tokens, s.slot).userPin, pin) then (st, Code(PinIncorrect))
    else if needsActiveOp && !PrivateOpActive(s.ops) then (st, Code(OperationNotInitialized))
    else (st.(sessions := st.sessions[h := s.(ticket := true)]), Code(CkrOk))
  }

  /** `C_Login` clears the calling session's ticket on success, `C_LoginUser` does not. */
  function UserLoginStep(st: State, h: SessionHandle, userType: nat, pin: Bytes, clearsTicket: bool): (State, Out)
    requires h in st.sessions
  {
    var slot := st.sessions[h].slot;
    var current := SlotLogin(st.sessions, slot);
    if userType != CKU_USER && userType != CKU_SO then (st, Code(UserTypeInvalid))
    else if current == UserLoggedIn
      then (st, Code(if userType == CKU_USER then UserAlreadyLoggedIn else UserAnotherAlreadyLoggedIn))
    else if current == SoLoggedIn
      then (st, Code(if userType == CKU_SO then UserAlreadyLoggedIn else UserAnotherAlreadyLoggedIn))
    else if userType == CKU_SO && HasReadOnly(st.sessions, slot) then (st, Code(SessionReadOnlyExists))
    else if userType == CKU_USER && TokenAt(st.tokens, slot).userPin.None? then (st, Code(UserPinNotInitialized))
    else
      var (t, rv) := VerifyPinSpec(TokenAt(st.tokens, slot), userType, pin);
      var st1 := PutToken(st, slot, t);
      if rv != CkrOk then (st1, Code(rv))
      else
        var st2 := if clearsTicket then ClearTicket(st1, h) else st1;
        (st2.(sessions := LoginAll(st2.sessions, slot, if userType == CKU_SO then SoLoggedIn else UserLoggedIn)),
         Code(CkrOk))
  }

  function LoginStep(st: State, h: SessionHandle, userType: nat, pin: Bytes, v3: bool): (State, Out) {
    if h !in st.sessions then (st, Code(SessionHandleInvalid))
    else if userType == CKU_CONTEXT_SPECIFIC then ContextLoginStep(st, h, pin, !v3)
    else UserLoginStep(st, h, userType, pin, !v3)
  }

  function LogoutStep(st: State, h: SessionHandle): (State, Out) {
    if h !in st.sessions then (st, Code(SessionHandleInvalid))
    else
      var slot := st.sessions[h].slot;
      if SlotLogin(st.sessions, slot) == NotLoggedIn then (st, Code(UserNotLoggedIn))
      else (st.(sessions := LoginAll(ReleaseFinds(st.sessions, slot), slot, NotLoggedIn),
                objects := Without(st.objects, PrivateSessionObjectsOn(st.objects, slot))), Code(CkrOk))
  }

  // ---- Objects -----------------------------------------------------------------------------------

  /** Session lookup, then the read-write check for token objects. */
  function TargetCheck(st: State, h: SessionHandle, isToken: bool): Rv {
    if h !in st.sessions then SessionHandleInvalid
    else if isToken then RwCheck(st, h)
    else CkrOk
  }

  /** Store a new object under the next handle. */
  function AddObject(st: State, h: SessionHandle, o: KeyObject): (State, Out) {
    (Store(Draw(st), o, h), Out(CkrOk, None, None, [st.nextHandle]))
  }

  function ImportedKeyType(attrs: Attributes, class_: nat): KeyType {
    var kt := if CKA_KEY_TYPE in attrs then Some(BytesToUlong(attrs[CKA_KEY_TYPE])) else None;
    if kt == Some(CKK_RSA) && class_ == CKO_PUBLIC_KEY then RsaPublic
    else if kt == Some(CKK_RSA) && class_ == CKO_PRIVATE_KEY then RsaPrivate
    else if kt == Some(CKK_AES) then AesSecret
    else GenericSecret
  }

  /** The object `C_CreateObject` stores: secret keys and data objects take their bytes from `CKA_VALUE`. */
  function ImportedObject(handle: ObjectHandle, slot: SlotId, attrs: Attributes): KeyObject
    requires CKA_CLASS in attrs
  {
    var class_ := BytesToUlong(attrs[CKA_CLASS]);
    var bytes := if (class_ == CKO_SECRET_KEY || class_ == CKO_DATA) && CKA_VALUE in attrs then attrs[CKA_VALUE]
      else [];
    NewKeyObject(handle, slot, ImportedKeyType(attrs, class_), bytes, attrs)
  }

  function CreateObjectStep(st: State, h: SessionHandle, template: Template): (State, Out) {
    var attrs := CollectTemplate(template);
    if template == [] then (st, Code(TemplateIncomplete))
    else if TargetCheck(st, h, AttrTrue(attrs, CKA_TOKEN)) != CkrOk
      then (st, Code(TargetCheck(st, h, AttrTrue(attrs, CKA_TOKEN))))
    else if CKA_CLASS !in attrs then (st, Code(TemplateIncomplete))
    else
      var class_ := BytesToUlong(attrs[CKA_CLASS]);
      if class_ != CKO_SECRET_KEY && class_ != CKO_PUBLIC_KEY && class_ != CKO_PRIVATE_KEY && class_ != CKO_DATA
      then (st, Code(TemplateInconsistent))
      else
        var needsValue := class_ == CKO_SECRET_KEY || class_ == CKO_DATA;
        if needsValue && CKA_VALUE !in attrs then (st, Code(TemplateIncomplete))
        else
          AddObject(st, h, ImportedObject(st.nextHandle, st.sessions[h].slot, attrs))
  }

  /** The object `C_CopyObject` builds: source attributes under the overrides, flags of the source. */
  function CopyOf(src: KeyObject, handle: ObjectHandle, slot: SlotId, overrides: Attributes): KeyObject {
    NewKeyObject(handle, slot, src.keyType, src.keyRef, src.attrs + overrides)
      .(alwaysSensitive := src.alwaysSensitive, neverExtractable := src.neverExtractable)
  }

  /** The handle is drawn as soon as the source is found, even when the copy is then refused. */
  function CopyObjectStep(st: State, h: SessionHandle, target: ObjectHandle, template: Template): (State, Out) {
    var overrides := CollectTemplate(template);
    if h !in st.sessions then (st, Code(SessionHandleInvalid))
    else
      var slot := st.sessions[h].slot;
      match ObjectOnSlot(st.objects, target, slot)
      case None => (st, Code(ObjectHandleInvalid))
      case Some(src) =>
        var isToken := if CKA_TOKEN in overrides then IsTrue(overrides[CKA_TOKEN]) else IsTokenObject(src);
        if TargetCheck(st, h, isToken) != CkrOk then (Draw(st), Code(TargetCheck(st, h, isToken)))
        else if !OverridesAllowed(src.attrs, overrides) then (Draw(st), Code(AttributeReadOnly))
        else AddObject(st, h, CopyOf(src, st.nextHandle, slot, overrides))
  }

  function DestroyObjectStep(st: State, h: SessionHandle, target: ObjectHandle): (State, Out) {
    if h !in st.sessions then (st, Code(SessionHandleInvalid))
    else if target !in st.objects then (st, Code(ObjectHandleInvalid))
    else
      var o := st.objects[target];
      if TargetCheck(st, h, IsTokenObject(o)) != CkrOk then (st, Code(TargetCheck(st, h, IsTokenObject(o))))
      else if o.slot != st.sessions[h].slot then (st, Code(ObjectHandleInvalid))
      else if IsPrivateObject(o) && st.sessions[h].login == NotLoggedIn then (st, Code(UserNotLoggedIn))
      else
        var st1 := st.(objects := Without(st.objects, {target}));
        (if IsTokenObject(o) then Persist(st1) else st1, Code(CkrOk))
  }

  function SetAttributeStep(st: State, h: SessionHandle, target: ObjectHandle, template: Template): (State, Out) {
    if RwCheck(st, h) != CkrOk then (st, Code(RwCheck(st, h)))
    else if target !in st.objects then (st, Code(ObjectHandleInvalid))
    else
      var (o, rv) := ApplyTemplate(st.objects[target], template);
      var st1 := st.(objects := st.objects[target := o]);
      if rv != CkrOk then (st1, Code(rv))
      else (if IsTokenObject(o) then Persist(st1) else st1, Code(CkrOk))
  }

  // ---- Key generation, unwrapping and derivation ----------------------------------------------------

  function SecretKeyTypeOf(mech: MechanismType): Option<nat> {
    if mech == CKM_AES_KEY_GEN then Some(CKK_AES)
    else if mech == CKM_DES_KEY_GEN then Some(CKK_DES)
    else if mech == CKM_DES3_KEY_GEN then Some(CKK_DES3)
    else if mech == CKM_CHACHA20_KEY_GEN then Some(CKK_CHACHA20)
    else if mech == CKM_GENERIC_SECRET_KEY_GEN then Some(CKK_GENERIC_SECRET)
    else None
  }

  function SecretLength(mech: MechanismType, attrs: Attributes): Result<nat> {
    if mech == CKM_DES_KEY_GEN then Ok(8)
    else if mech == CKM_DES3_KEY_GEN then Ok(24)
    else if mech == CKM_CHACHA20_KEY_GEN then Ok(32)
    else
      var n := if CKA_VALUE_LEN in attrs then BytesToUlong(attrs[CKA_VALUE_LEN]) else 32;
      if mech == CKM_AES_KEY_GEN then (if n == 16 || n == 24 || n == 32 then Ok(n) else Err(KeySizeRange))
      else (if n == 0 || n > 4096 then Err(KeySizeRange) else Ok(n))
  }

  /** Security defaults of generated keys: sensitive and not extractable unless the template says otherwise. */
  function SecurityDefaults(attrs: Attributes): Attributes {
    WithDefault(WithDefault(attrs, CKA_SENSITIVE, [CK_TRUE]), CKA_EXTRACTABLE, [CK_FALSE])
  }

  function StampFlags(o: KeyObject, attrs: Attributes, mech: MechanismType): KeyObject {
    o.(local := true, keyGenMechanism := mech,
       alwaysSensitive := AttrTrue(attrs, CKA_SENSITIVE), neverExtractable := ExplicitlyUnextractable(attrs))
  }

  function GeneratedSecretAttrs(mech: MechanismType, keyType: nat, len: nat, unique: Bytes,
                                attrs: Attributes): Attributes {
    var a := attrs[CKA_CLASS := UlongBytes(CKO_SECRET_KEY)][CKA_KEY_TYPE := UlongBytes(keyType)][CKA_VALUE_LEN :=
            UlongBytes(len)];
    if mech == CKM_AES_KEY_GEN || mech == CKM_GENERIC_SECRET_KEY_GEN then a[CKA_UNIQUE_ID := unique] else a
  }

  function GeneratedSecretType(mech: MechanismType): KeyType {
    if mech == CKM_AES_KEY_GEN then AesSecret
    else if mech == CKM_CHACHA20_KEY_GEN then ChaCha20Secret
    else GenericSecret
  }

  function GeneratedSecret(handle: ObjectHandle, slot: SlotId, mech: MechanismType, keyRef: Bytes, len: nat,
                           unique: Bytes, attrs: Attributes): KeyObject
    requires SecretKeyTypeOf(mech).Some?
  {
    var full := SecurityDefaults(attrs);
    StampFlags(NewKeyObject(handle, slot, GeneratedSecretType(mech), keyRef,
                            GeneratedSecretAttrs(mech, SecretKeyTypeOf(mech).value, len, unique, full)), full, mech)
  }

  function GenerateKeyStep(st: State, h: SessionHandle, mech: MechanismType, template: Template,
                           made: Result<(Bytes, Bytes)>): (State, Out) {
    var attrs := CollectTemplate(template);
    if TargetCheck(st, h, AttrTrue(attrs, CKA_TOKEN)) != CkrOk
      then (st, Code(TargetCheck(st, h, AttrTrue(attrs, CKA_TOKEN))))
    else if CKA_CLASS in attrs && BytesToUlong(attrs[CKA_CLASS]) != CKO_SECRET_KEY then (st, Code(TemplateInconsistent))
    else if SecretKeyTypeOf(mech).None? then (st, Code(MechanismInvalid))
    else if CKA_KEY_TYPE in attrs && BytesToUlong(attrs[CKA_KEY_TYPE]) != SecretKeyTypeOf(mech).value
      then (st, Code(TemplateInconsistent))
    else
      match SecretLength(mech, attrs)
      case Err(rv) => (st, Code(rv))
      case Ok(len) =>
        match made
        case Err(rv) => (st, Code(rv))
        case Ok((keyRef, unique)) =>
          AddObject(st, h, GeneratedSecret(st.nextHandle, st.sessions[h].slot, mech, keyRef, len, unique, attrs))
  }

  function PairTypes(mech: MechanismType): Option<(KeyType, KeyType)> {
    if mech == CKM_RSA_PKCS_KEY_PAIR_GEN then Some((RsaPrivate, RsaPublic))
    else if mech == CKM_EC_KEY_PAIR_GEN then Some((EcPrivate, EcPublic))
    else if mech == CKM_EC_EDWARDS_KEY_PAIR_GEN then Some((EdPrivate, EdPublic))
    else None
  }

  /** RSA sizes are truncated to 32 bits before the range check. */
  function PairSizeCheck(mech: MechanismType, pubAttrs: Attributes): Rv {
    if mech != CKM_RSA_PKCS_KEY_PAIR_GEN then CkrOk
    else
      var bits := (if CKA_MODULUS_BITS in pubAttrs then BytesToUlong(pubAttrs[CKA_MODULUS_BITS])
                   else 2048) % 0x1_0000_0000;
      if bits < 1024 || bits > 16384 then KeySizeRange else CkrOk
  }

  function PairAttrs(mech: MechanismType, class_: nat, p: GeneratedPair, attrs: Attributes): Attributes {
    if mech == CKM_RSA_PKCS_KEY_PAIR_GEN then
      attrs[CKA_CLASS := UlongBytes(class_)][CKA_KEY_TYPE := UlongBytes(CKK_RSA)][CKA_MODULUS := p.first]
        [CKA_PUBLIC_EXPONENT := p.second][CKA_MODULUS_BITS := UlongBytes(p.bits)]
    else
      var a := attrs[CKA_CLASS := UlongBytes(class_)]
        [CKA_KEY_TYPE := UlongBytes(if mech == CKM_EC_KEY_PAIR_GEN then CKK_EC else CKK_EC_EDWARDS)]
        [CKA_EC_PARAMS := p.first];
      if class_ == CKO_PUBLIC_KEY then a[CKA_EC_POINT := p.second] else a
  }

  function PublicHalf(handle: ObjectHandle, slot: SlotId, mech: MechanismType, p: GeneratedPair,
                      attrs: Attributes): KeyObject
    requires PairTypes(mech).Some?
  {
    NewKeyObject(handle, slot, PairTypes(mech).value.1, p.pubRef, PairAttrs(mech, CKO_PUBLIC_KEY, p, attrs))
      .(local := true, keyGenMechanism := mech)
  }

  /** `CKA_ALWAYS_AUTHENTICATE` moves from the template into a struct field. */
  function PrivateHalf(handle: ObjectHandle, slot: SlotId, mech: MechanismType, p: GeneratedPair,
                       attrs: Attributes): KeyObject
    requires PairTypes(mech).Some?
  {
    var full := SecurityDefaults(attrs);
    StampFlags(NewKeyObject(handle, slot, PairTypes(mech).value.0, p.privRef,
                            PairAttrs(mech, CKO_PRIVATE_KEY, p, full - {CKA_ALWAYS_AUTHENTICATE})), full, mech)
      .(alwaysAuthenticate := AttrTrue(attrs, CKA_ALWAYS_AUTHENTICATE))
  }

  function GeneratePairStep(st: State, h: SessionHandle, mech: MechanismType, pubTemplate: Template,
                            privTemplate: Template,
                            pair: Result<GeneratedPair>): (State, Out) {
    var pubAttrs := CollectTemplate(pubTemplate);
    var privAttrs := CollectTemplate(privTemplate);
    var isToken := AttrTrue(pubAttrs, CKA_TOKEN) || AttrTrue(privAttrs, CKA_TOKEN);
    if TargetCheck(st, h, isToken) != CkrOk then (st, Code(TargetCheck(st, h, isToken)))
    else if PairTypes(mech).None? then (st, Code(MechanismInvalid))
    else if PairSizeCheck(mech, pubAttrs) != CkrOk then (st, Code(PairSizeCheck(mech, pubAttrs)))
    else
      match pair
      case Err(rv) => (st, Code(rv))
      case Ok(p) =>
        var slot := st.sessions[h].slot;
        var (st1, out1) := AddObject(st, h, PublicHalf(st.nextHandle, slot, mech, p, pubAttrs));
        var (st2, out2) := AddObject(st1, h, PrivateHalf(st1.nextHandle, slot, mech, p, privAttrs));
        (st2, Out(CkrOk, None, None, out1.handles + out2.handles))
  }

  function EngineAt(e: Engine, st: State, slot: SlotId): Option<Engine> {
    if slot in st.registry.slots then Some(e) else None
  }

  function UnwrappedObject(handle: ObjectHandle, slot: SlotId, mech: MechanismType, bytes: Bytes,
                           attrs: Attributes): KeyObject {
    var a := WithDefault(WithDefault(attrs, CKA_CLASS, UlongBytes(CKO_SECRET_KEY)), CKA_KEY_TYPE, UlongBytes(CKK_AES))
      [CKA_VALUE_LEN := UlongBytes(|bytes|)];
    NewKeyObject(handle, slot, AesSecret, bytes, a).(keyGenMechanism := mech)
  }

  function UnwrapKeyStep(e: Engine, st: State, h: SessionHandle, mech: MechanismType, key: ObjectHandle,
                         wrapped: Bytes, template: Template): (State, Out) {
    var attrs := CollectTemplate(template);
    if TargetCheck(st, h, AttrTrue(attrs, CKA_TOKEN)) != CkrOk
      then (st, Code(TargetCheck(st, h, AttrTrue(attrs, CKA_TOKEN))))
    else
      var s := st.sessions[h];
      match ObjectOnSlot(st.objects, key, s.slot)
      case None => (st, Code(UnwrappingKeyHandleInvalid))
      case Some(u) =>
        if !AttrTrue(u.attrs, CKA_UNWRAP) then (st, Code(KeyFunctionNotPermitted))
        else if !TicketOk(s, u) then (st, Code(UserNotLoggedIn))
        else if mech != CKM_AES_KEY_WRAP then (st, Code(MechanismInvalid))
        else if EngineAt(e, st, s.slot).None? then (st, Code(SlotIdInvalid))
        else
          match e.keyUnwrap(u.keyRef, wrapped)
          case Err(rv) => (st, Code(rv))
          case Ok(bytes) =>
            if |bytes| != 16 && |bytes| != 24 && |bytes| != 32 then (st, Code(KeySizeRange))
            else
              var (st1, out) := AddObject(st, h, UnwrappedObject(st.nextHandle, s.slot, mech, bytes, attrs));
              (ClearTicket(st1, h), out)
  }

  function HkdfHash(mech: MechanismType): Option<HashAlgorithm> {
    if mech == CKM_SHA256 then Some(Sha256)
    else if mech == CKM_SHA384 then Some(Sha384)
    else if mech == CKM_SHA512 then Some(Sha512)
    else if mech == CKM_SHA_1 then Some(Sha1)
    else None
  }

  /** The object `C_DeriveKey` stores; it inherits the history flags of the base key. */
  function DerivedKey(base: KeyObject, handle: ObjectHandle, slot: SlotId, mech: MechanismType, bytes: Bytes, len: nat,
                      unique: Bytes, attrs: Attributes): KeyObject {
    var a := WithDefault(WithDefault(attrs, CKA_CLASS, UlongBytes(CKO_SECRET_KEY)), CKA_KEY_TYPE, UlongBytes(CKK_HKDF))
      [CKA_VALUE_LEN := UlongBytes(len)][CKA_UNIQUE_ID := unique];
    NewKeyObject(handle, slot, AesSecret, bytes, a)
      .(keyGenMechanism := mech, alwaysSensitive := base.alwaysSensitive, neverExtractable := base.neverExtractable)
  }

  /** The base key may live on any slot. */
  function DeriveKeyStep(e: Engine, st: State, h: SessionHandle, mech: MechanismType, base: ObjectHandle,
                         params: Option<HkdfParams>, template: Template, unique: Result<Bytes>): (State, Out) {
    var attrs := CollectTemplate(template);
    if TargetCheck(st, h, AttrTrue(attrs, CKA_TOKEN)) != CkrOk
      then (st, Code(TargetCheck(st, h, AttrTrue(attrs, CKA_TOKEN))))
    else if base !in st.objects then (st, Code(ObjectHandleInvalid))
    else
      var s := st.sessions[h];
      var b := st.objects[base];
      if !AttrTrue(b.attrs, CKA_DERIVE) then (st, Code(KeyFunctionNotPermitted))
      else if !TicketOk(s, b) then (st, Code(UserNotLoggedIn))
      else if mech != CKM_HKDF_DERIVE then (st, Code(MechanismInvalid))
      else if params.None? || HkdfHash(params.value.prf).None? then (st, Code(MechanismParamInvalid))
      else if EngineAt(e, st, s.slot).None? then (st, Code(SlotIdInvalid))
      else
        var len := if CKA_VALUE_LEN in attrs then BytesToUlong(attrs[CKA_VALUE_LEN]) else 32;
        match (e.hkdf(HkdfHash(params.value.prf).value, b.keyRef, params.value.salt, params.value.info, len), unique)
        case (Err(rv), _) => (st, Code(rv))
        case (Ok(_), Err(rv)) => (st, Code(rv))
        case (Ok(bytes), Ok(id)) =>
          var (st1, out) := AddObject(st, h, DerivedKey(b, st.nextHandle, s.slot, mech, bytes, len, id, attrs));
          (ClearTicket(st1, h), out)
  }

  // ---- Dispatch ----------------------------------------------------------------------------------

  function EnvOf(e: Engine, st: State, h: SessionHandle): Env
    requires h in st.sessions
  {
    Env(EngineAt(e, st, st.sessions[h].slot), st.objects)
  }

  function OpStep(e: Engine, st: State, h: SessionHandle, op: SessionOp): (State, Out) {
    if h !in st.sessions then
      (st, Code(if (op.Digest? || op.DigestFinal?) && op.buf == NoLength then ArgumentsBad
                else if Precheck(op) != CkrOk then Precheck(op)
                else SessionHandleInvalid))
    else
      var (s, out) := SessionStep(EnvOf(e, st, h), st.sessions[h], op);
      (st.(sessions := st.sessions[h := s]), out)
  }

  /** Every entry point but the lifecycle ones starts with `check_init`. */
  ghost function Step(e: Engine, st: State, c: Call): (State, Out) {
    if c.Initialize? then InitializeStep(st, c.args, c.slotCount)
    else if c.Finalize? then FinalizeStep(st, c.reserved)
    else if c.Crash? then (Boot(st.disk), Code(CkrOk))
    else if !st.initialized then (st, Code(CryptokiNotInitialized))
    else RunningStep(e, st, c)
  }

  function RunningStep(e: Engine, st: State, c: Call): (State, Out)
    requires !c.Initialize? && !c.Finalize? && !c.Crash?
  {
    match c
    case InitToken(slot, pin, text) => InitTokenStep(st, slot, pin, text)
    case InitPIN(h, pin) => InitPinStep(st, h, pin)
    case SetPIN(h, oldPin, newPin) => SetPinStep(st, h, oldPin, newPin)
    case OpenSession(slot, flags) => OpenSessionStep(st, slot, flags)
    case CloseSession(h) => CloseSessionStep(st, h)
    case CloseAllSessions(slot) => CloseAllStep(st, slot)
    case Login(h, userType, pin) => LoginStep(st, h, userType, pin, false)
    case LoginUser(h, userType, pin) => LoginStep(st, h, userType, pin, true)
    case Logout(h) => LogoutStep(st, h)
    case CreateObject(h, template) => CreateObjectStep(st, h, template)
    case CopyObject(h, target, template) => CopyObjectStep(st, h, target, template)
    case DestroyObject(h, target) => DestroyObjectStep(st, h, target)
    case SetAttributeValue(h, target, template) => SetAttributeStep(st, h, target, template)
    case GenerateKey(h, mech, template, made) => GenerateKeyStep(st, h, mech, template, made)
    case GenerateKeyPair(h, mech, pubT, privT, pair) => GeneratePairStep(st, h, mech, pubT, privT, pair)
    case UnwrapKey(h, mech, key, wrapped, template) => UnwrapKeyStep(e, st, h, mech, key, wrapped, template)
    case DeriveKey(h, mech, base, params, template, unique) =>
      DeriveKeyStep(e, st, h, mech, base, params, template, unique)
    case Op(h, op) => OpStep(e, st, h, op)
  }

  // ---- Runs --------------------------------------------------------------------------------------

  /** The hash map may list a search's matches in any order, but lists exactly them. */
  ghost predicate Legal(st: State, c: Call) {
    c.Op? && c.op.FindObjectsInit? && c.h in st.sessions ==>
      Enumerates(c.op.results,
                 VisibleMatches(st.objects, st.sessions[c.h].slot, CollectTemplateVec(c.op.template),
                                st.sessions[c.h].login != NotLoggedIn))
  }

  ghost function After(e: Engine, st: State, calls: seq<Call>): State {
    if calls == [] then st else Step(e, After(e, st, calls[..|calls| - 1]), calls[|calls| - 1]).0
  }

  ghost predicate LegalRun(e: Engine, st: State, calls: seq<Call>) {
    calls == [] || (LegalRun(e, st, calls[..|calls| - 1])
                    && Legal(After(e, st, calls[..|calls| - 1]), calls[|calls| - 1]))
  }

  /** An upper bound on the handles one call can draw. */
  function Draws(c: Call): nat {
    match c
    case Initialize(_, slotCount) => slotCount
    case GenerateKeyPair(_, _, _, _, _) => 2
    case _ => 1
  }

  function TotalDraws(calls: seq<Call>): nat {
    if calls == [] then 0 else TotalDraws(calls[..|calls| - 1]) + Draws(calls[|calls| - 1])
  }
}
