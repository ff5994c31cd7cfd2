/**
 The provider as the mutable thing it is: stores updated section by section. Calls
 that go through several stores or sections are written out; a call that is one
 closure on its session goes through `InSession`. `Run` performs any sequence of calls
 and is proved to be a legal run of the state machine with the same answers, so what is
 proved about runs holds of this code.
 */
module Providers {
  import opened Types
  import opened Objects
  import opened AttributePolicy
  import opened Backend
  import opened Registry
  import opened Sessions
  import opened SessionOperations
  import opened Tokens
  import opened Storage
  import opened Machine
  import opened ObjectStores
  import opened Invariants
  import LoginSteps
  import Search

  /** Every entry point but the lifecycle ones starts with `check_init`. */
  ghost function Entry(st: State, result: (State, Out)): (State, Out) {
    if st.initialized then result else (st, Code(CryptokiNotInitialized))
  }

  /** What the entry points below compute is what the state machine does. */
  lemma EntryIsStep(e: Engine, st: State, c: Call)
    requires !c.Initialize? && !c.Finalize? && !c.Crash?
    ensures Step(e, st, c) == Entry(st, RunningStep(e, st, c))
  {
    hide RunningStep;
  }

  class Provider {
    const engine: Engine
    const slots: SlotRegistry
    const table: SessionTable
    const store: ObjectStore
    var initialized: bool
    var tokens: map<SlotId, TokenData>
    var disk: Option<StoredState>

    function View(): State
      reads this, slots, table, store
    {
      State(initialized, slots.View(), table.sessions, table.next, tokens, store.objects, store.next, disk)
    }

    /** The slot-wide login state can be read off any session, and slot ids are laid out in blocks. */
    ghost predicate Valid()
      reads table, slots
    {
      Agreement(table.sessions) && WellLaidOut(slots.View())
    }

    constructor (engine: Engine, disk: Option<StoredState>)
      ensures View() == Boot(disk) && Valid() && this.engine == engine
      ensures fresh(slots) && fresh(table) && fresh(store)
    {
      this.engine := engine;
      this.disk := disk;
      slots := new SlotRegistry();
      table := new SessionTable();
      store := new ObjectStore();
      initialized := false;
      tokens := map[];
    }

    // ---- Shared sections ----------------------------------------------------------------------------

    /** The tokens of every registered slot, as they are saved. */
    method SerialiseTokens() returns (saved: map<SlotId, StoredToken>)
      requires Valid()
      ensures saved == map s | s in slots.slots :: ToStoredToken(TokenAt(tokens, s))
    {
      hide ToStoredToken;
      saved := map[];
      var ids := slots.SlotIds();
      for i := 0 to |ids|
        invariant saved == map s | s in ids[..i] :: ToStoredToken(TokenAt(tokens, s))
      {
        assert ids[..i + 1] == ids[..i] + [ids[i]];
        saved := saved[ids[i] := ToStoredToken(TokenAt(tokens, ids[i]))];
      }
      assert ids[..|ids|] == ids && forall s :: s in ids <==> s in slots.slots;
    }

    /** `persist_if_needed`. */
    method PersistIfNeeded()
      requires Valid()
      modifies this`disk
      ensures View() == Persist(old(View()))
    {
      hide ToStoredToken, ToStored, WellLaidOut;
      var stored := store.Serialise(slots.slots.Keys);
      var saved := SerialiseTokens();
      assert saved == Snapshot(View()).tokens && stored == Snapshot(View()).objects;
      disk := Some(StoredState(saved, None, stored, store.next));
    }

    /** `store_object`. */
    method StoreObject(o: KeyObject, session: SessionHandle)
      requires Valid()
      modifies this`disk, store`objects
      ensures View() == Store(old(View()), o, session)
    {
      hide WellLaidOut, Agreement, Snapshot;
      if IsTokenObject(o) {
        store.Insert(o);
        PersistIfNeeded();
      } else {
        store.Insert(o.(creatingSession := Some(session)));
      }
    }

    /** `require_rw_session`, for calls that need it only when `needed`. */
    method CheckTarget(h: SessionHandle, needed: bool) returns (rv: Rv)
      ensures rv == TargetCheck(View(), h, needed) && (rv == CkrOk ==> h in table.sessions)
    {
      if h !in table.sessions {
        return SessionHandleInvalid;
      }
      if needed && !IsRw(table.sessions[h]) {
        return SessionReadOnly;
      }
      return CkrOk;
    }

    method SetTicket(h: SessionHandle, ticket: bool)
      requires Valid()
      requires h in table.sessions
      modifies table`sessions
      ensures table.sessions == old(table.sessions)[h := old(table.sessions[h]).(ticket := ticket)] && Valid()
    {
      table.sessions := table.sessions[h := table.sessions[h].(ticket := ticket)];
    }

    /** Storing the key made by a call that spends the session's ticket. */
    method StoreAndBurn(o: KeyObject, h: SessionHandle)
      requires Valid()
      requires h in table.sessions
      modifies this`disk, store`objects, table`sessions
      ensures Valid() && h in Store(old(View()), o, h).sessions
      ensures View() == ClearTicket(Store(old(View()), o, h), h)
    {
      hide WellLaidOut, Agreement, Store;
      StoreFrame(View(), o, h);
      StoreObject(o, h);
      SetTicket(h, false);
    }

    // ---- Lifecycle ----------------------------------------------------------------------------------

    method RestoreTokens(d: StoredState)
      modifies this`tokens
      ensures tokens == LoadedTokens(d, old(tokens))
    {
      hide RestoreToken;
      if d.tokens != map[] {
        ghost var loaded := map s | s in d.tokens :: RestoreToken(d.tokens[s], s);
        var left := d.tokens.Keys;
        while left != {}
          invariant left <= d.tokens.Keys
          invariant tokens == old(tokens) + (loaded - left)
          decreases |left|
        {
          var s :| s in left;
          OneMoreToken(old(tokens), loaded, left, s);
          left := left - {s};
          tokens := tokens[s := RestoreToken(d.tokens[s], s)];
        }
        assert loaded - {} == loaded;
      } else if d.legacyToken.Some? {
        tokens := tokens[0 := RestoreToken(d.legacyToken.value, 0)];
      }
    }

    method EnsureAllTokens(ids: seq<SlotId>)
      modifies this`tokens
      ensures tokens == EnsureTokens(old(tokens), ids)
    {
      assert tokens == EnsureTokens(tokens, ids[..0]);
      for i := 0 to |ids|
        invariant tokens == EnsureTokens(old(tokens), ids[..i])
      {
        assert ids[..i + 1] == ids[..i] + [ids[i]];
        if ids[i] !in tokens {
          tokens := tokens[ids[i] := DefaultToken(ids[i])];
        }
        assert tokens == EnsureTokens(old(tokens), ids[..i + 1]);
      }
      assert ids[..|ids|] == ids;
    }

    method EnsureAllProfiles(ids: seq<SlotId>)
      modifies store
      ensures View() == EnsureProfiles(old(View()), ids)
    {
      hide HasProfile, ProfileObject;
      for i := 0 to |ids|
        invariant View() == EnsureProfiles(old(View()), ids[..i])
      {
        assert ids[..i + 1][..i] == ids[..i];
        store.EnsureBaselineProfile(ids[i]);
      }
      assert ids[..|ids|] == ids;
    }

    method Initialize(args: Option<InitArgs>, slotCount: nat) returns (out: Out)
      requires Valid()
      modifies this, slots, store
      ensures (View(), out) == InitializeStep(old(View()), args, slotCount)
      ensures Valid()
    {
      hide EnsureProfiles, EnsureTokens, LoadedTokens, LoadedObjects, MaxOf, Register, Range;
      var check := InitArgsCheck(args);
      if check != CkrOk {
        return Code(check);
      }
      if initialized {
        return Code(CryptokiAlreadyInitialized);
      }
      RegisterKeepsLayout(slots.View(), slotCount);
      var ids := slots.RegisterEngine(slotCount);
      if disk.Some? {
        store.Load(disk.value, slots.View());
        RestoreTokens(disk.value);
      }
      EnsureAllTokens(ids);
      EnsureAllProfiles(ids);
      initialized := true;
      return Code(CkrOk);
    }

    method Finalize(reserved: bool) returns (out: Out)
      requires Valid()
      modifies this, slots, table, store
      ensures (View(), out) == FinalizeStep(old(View()), reserved) && Valid()
    {
      hide Snapshot;
      if reserved {
        return Code(ArgumentsBad);
      }
      if !initialized {
        return Code(CryptokiNotInitialized);
      }
      table.sessions := map[];
      PersistIfNeeded();
      store.objects := map[];
      tokens := map[];
      slots.ResetRegistry();
      initialized := false;
      return Code(CkrOk);
    }

    /** The process is gone: a new one starts over the same disk. */
    method Crash() returns (out: Out)
      modifies this, slots, table, store
      ensures (View(), out) == (Boot(old(disk)), Code(CkrOk)) && Valid()
    {
      slots.ResetRegistry();
      table.sessions, table.next := map[], 1;
      store.objects, store.next := map[], 1;
      initialized, tokens := false, map[];
      return Code(CkrOk);
    }

    // ---- Tokens -------------------------------------------------------------------------------------

    method InitToken(slot: SlotId, pin: Bytes, text: Bytes) returns (out: Out)
      requires Valid()
      modifies this, store
      ensures (View(), out) == Entry(old(View()), InitTokenStep(old(View()), slot, pin, text))
      ensures Valid()
    {
      hide WellLaidOut, Agreement, Snapshot, HasProfile, ProfileObject, InitTokenSpec, Padded, Without;
      if !initialized {
        return Code(CryptokiNotInitialized);
      }
      if slot !in slots.slots {
        return Code(SlotIdInvalid);
      }
      if HasSessions(table.sessions, slot) {
        return Code(SessionExists);
      }
      var token := new Token.Load(TokenAt(tokens, slot));
      var rv := token.InitToken(pin, Padded(text, LABEL_LEN));
      tokens := tokens[slot := token.View()];
      if rv != CkrOk {
        return Code(rv);
      }
      store.ClearSlot(slot);
      PersistIfNeeded();
      store.EnsureBaselineProfile(slot);
      PersistIfNeeded();
      return Code(CkrOk);
    }

    method InitPIN(h: SessionHandle, pin: Bytes) returns (out: Out)
      requires Valid()
      modifies this
      ensures (View(), out) == Entry(old(View()), InitPinStep(old(View()), h, pin))
      ensures Valid()
    {
      hide WellLaidOut, Agreement, Snapshot, InitPinSpec;
      if !initialized {
        return Code(CryptokiNotInitialized);
      }
      var check := CheckTarget(h, true);
      if check != CkrOk {
        return Code(check);
      }
      if table.sessions[h].login != SoLoggedIn {
        return Code(UserNotLoggedIn);
      }
      var slot := table.sessions[h].slot;
      var token := new Token.Load(TokenAt(tokens, slot));
      var rv := token.InitPin(pin);
      tokens := tokens[slot := token.View()];
      if rv != CkrOk {
        return Code(rv);
      }
      PersistIfNeeded();
      return Code(CkrOk);
    }

    method SetPIN(h: SessionHandle, oldPin: Bytes, newPin: Bytes) returns (out: Out)
      requires Valid()
      modifies this, table
      ensures (View(), out) == Entry(old(View()), SetPinStep(old(View()), h, oldPin, newPin)) && Valid()
    {
      hide WellLaidOut, Agreement, Snapshot, ChangePinSpec, DefaultToken;
      if !initialized {
        return Code(CryptokiNotInitialized);
      }
      var check := CheckTarget(h, true);
      if check != CkrOk {
        return Code(check);
      }
      var slot := table.sessions[h].slot;
      var userType := if table.sessions[h].login == SoLoggedIn then CKU_SO else CKU_USER;
      var token := new Token.Load(TokenAt(tokens, slot));
      var rv := token.ChangePin(userType, oldPin, newPin);
      tokens := tokens[slot := token.View()];
      if rv != CkrOk {
        return Code(rv);
      }
      PersistIfNeeded();
      SetTicket(h, false);
      return Code(CkrOk);
    }

    // ---- Sessions and login -------------------------------------------------------------------------

    method OpenSession(slot: SlotId, flags: nat) returns (out: Out)
      requires Valid()
      modifies table
      ensures (View(), out) == Entry(old(View()), OpenSessionStep(old(View()), slot, flags)) && Valid()
    {
      hide WellLaidOut, Agreement, SlotLogin;
      if !initialized {
        return Code(CryptokiNotInitialized);
      }
      if slot !in slots.slots {
        return Code(SlotIdInvalid);
      }
      var r := table.OpenSession(slot, flags);
      match r
      case Err(rv) => return Code(rv);
      case Ok(h) => return Out(CkrOk, None, None, [h]);
    }

    method CloseSession(h: SessionHandle) returns (out: Out)
      requires Valid()
      modifies table, store
      ensures (View(), out) == Entry(old(View()), CloseSessionStep(old(View()), h)) && Valid()
    {
      if !initialized {
        return Code(CryptokiNotInitialized);
      }
      var rv := table.CloseSession(h);
      if rv != CkrOk {
        assert table.sessions == old(table.sessions);
        return Code(rv);
      }
      store.DestroyForSession(h);
      return Code(CkrOk);
    }

    method CloseAllSessions(slot: SlotId) returns (out: Out)
      requires Valid()
      modifies table, store
      ensures (View(), out) == Entry(old(View()), CloseAllStep(old(View()), slot)) && Valid()
    {
      if !initialized {
        return Code(CryptokiNotInitialized);
      }
      if slot !in slots.slots {
        return Code(SlotIdInvalid);
      }
      table.CloseAllSessions(slot);
      store.DestroySessionObjects(slot);
      return Code(CkrOk);
    }

    /** The context-specific branch of `C_Login` and `C_LoginUser`. */
    method ContextLogin(h: SessionHandle, pin: Bytes, needsActiveOp: bool) returns (out: Out)
      requires Valid() && h in table.sessions
      modifies table
      ensures (View(), out) == ContextLoginStep(old(View()), h, pin, needsActiveOp) && Valid()
    {
      hide WellLaidOut, Agreement, SlotLogin;
      var slot := table.sessions[h].slot;
      var current := table.LoginStateForSlot(slot);
      if current != UserLoggedIn {
        return Code(UserNotLoggedIn);
      }
      if !Verifies(TokenAt(tokens, slot).userPin, pin) {
        return Code(PinIncorrect);
      }
      if needsActiveOp && !PrivateOpActive(table.sessions[h].ops) {
        return Code(OperationNotInitialized);
      }
      SetTicket(h, true);
      return Code(CkrOk);
    }

    /** After the PIN was accepted: the ticket goes if it must, then every session of the slot is logged in. */
    method EnterSlot(h: SessionHandle, slot: SlotId, login: LoginState, clearsTicket: bool)
      requires Valid() && h in table.sessions
      modifies table`sessions
      ensures var cleared := if clearsTicket then ClearTicket(old(View()), h) else old(View());
              View() == cleared.(sessions := LoginAll(cleared.sessions, slot, login))
      ensures Valid()
    {
      hide WellLaidOut, Agreement, LoginAll;
      if clearsTicket {
        SetTicket(h, false);
      }
      ghost var before := table.sessions;
      table.LoginAllSessionsOnSlot(slot, login);
      LoginSteps.LoginAllAgrees(before, slot, login);
    }

    /** The user and SO branch. */
    method UserLogin(h: SessionHandle, userType: nat, pin: Bytes, clearsTicket: bool) returns (out: Out)
      requires Valid() && h in table.sessions
      modifies this`tokens, table
      ensures (View(), out) == UserLoginStep(old(View()), h, userType, pin, clearsTicket) && Valid()
    {
      hide WellLaidOut, Agreement, SlotLogin, VerifyPinSpec, HasReadOnly, LoginAll;
      var slot := table.sessions[h].slot;
      if userType != CKU_USER && userType != CKU_SO {
        return Code(UserTypeInvalid);
      }
      var current := table.LoginStateForSlot(slot);
      if current == UserLoggedIn {
        return Code(if userType == CKU_USER then UserAlreadyLoggedIn else UserAnotherAlreadyLoggedIn);
      }
      if current == SoLoggedIn {
        return Code(if userType == CKU_SO then UserAlreadyLoggedIn else UserAnotherAlreadyLoggedIn);
      }
      if userType == CKU_SO {
        var readers := table.HasReadOnlySessionsOnSlot(slot);
        if readers {
          return Code(SessionReadOnlyExists);
        }
      }
      if userType == CKU_USER && TokenAt(tokens, slot).userPin.None? {
        return Code(UserPinNotInitialized);
      }
      var token := new Token.Load(TokenAt(tokens, slot));
      var rv := token.VerifyPin(userType, pin);
      tokens := tokens[slot := token.View()];
      if rv != CkrOk {
        return Code(rv);
      }
      EnterSlot(h, slot, if userType == CKU_SO then SoLoggedIn else UserLoggedIn, clearsTicket);
      return Code(CkrOk);
    }

    /** `C_Login`, or `C_LoginUser` when `v3`. */
    method Login(h: SessionHandle, userType: nat, pin: Bytes, v3: bool) returns (out: Out)
      requires Valid()
      modifies this, table
      ensures (View(), out) == Entry(old(View()), LoginStep(old(View()), h, userType, pin, v3)) && Valid()
    {
      hide WellLaidOut, Agreement, ContextLoginStep, UserLoginStep;
      if !initialized {
        return Code(CryptokiNotInitialized);
      }
      if h !in table.sessions {
        return Code(SessionHandleInvalid);
      }
      if userType == CKU_CONTEXT_SPECIFIC {
        out := ContextLogin(h, pin, !v3);
      } else {
        out := UserLogin(h, userType, pin, !v3);
      }
    }

    method Logout(h: SessionHandle) returns (out: Out)
      requires Valid()
      modifies table, store
      ensures (View(), out) == Entry(old(View()), LogoutStep(old(View()), h)) && Valid()
    {
      hide WellLaidOut, Agreement, SlotLogin, Without, PrivateSessionObjectsOn, LoginAll, ReleaseFinds;
      if !initialized {
        return Code(CryptokiNotInitialized);
      }
      if h !in table.sessions {
        return Code(SessionHandleInvalid);
      }
      var slot := table.sessions[h].slot;
      var current := table.LoginStateForSlot(slot);
      if current == NotLoggedIn {
        return Code(UserNotLoggedIn);
      }
      ghost var before := table.sessions;
      table.ReleaseFindContextsOnSlot(slot);
      LoginSteps.ReleaseAgrees(before, slot);
      store.DestroyPrivateSessionObjects(slot);
      table.LoginAllSessionsOnSlot(slot, NotLoggedIn);
      LoginSteps.LoginAllAgrees(ReleaseFinds(before, slot), slot, NotLoggedIn);
      return Code(CkrOk);
    }

    // ---- Objects ------------------------------------------------------------------------------------

    method CreateObject(h: SessionHandle, template: Template) returns (out: Out)
      requires Valid()
      modifies this, store
      ensures (View(), out) == Entry(old(View()), CreateObjectStep(old(View()), h, template))
      ensures Valid()
    {
      hide WellLaidOut, Agreement, Store, CollectTemplate, AttrTrue, BytesToUlong, NewKeyObject, ImportedKeyType;
      if !initialized {
        return Code(CryptokiNotInitialized);
      }
      if template == [] {
        return Code(TemplateIncomplete);
      }
      var attrs := Collect(template);
      var check := CheckTarget(h, AttrTrue(attrs, CKA_TOKEN));
      if check != CkrOk {
        return Code(check);
      }
      if CKA_CLASS !in attrs {
        return Code(TemplateIncomplete);
      }
      var class_ := BytesToUlong(attrs[CKA_CLASS]);
      var bytes := [];
      if class_ == CKO_SECRET_KEY || class_ == CKO_DATA {
        if CKA_VALUE !in attrs {
          return Code(TemplateIncomplete);
        }
        bytes := attrs[CKA_VALUE];
      } else if class_ != CKO_PUBLIC_KEY && class_ != CKO_PRIVATE_KEY {
        return Code(TemplateInconsistent);
      }
      var handle := store.NextHandle();
      StoreObject(NewKeyObject(handle, table.sessions[h].slot, ImportedKeyType(attrs, class_), bytes, attrs), h);
      return Out(CkrOk, None, None, [handle]);
    }

    method CopyObject(h: SessionHandle, target: ObjectHandle, template: Template) returns (out: Out)
      requires Valid()
      modifies this, store
      ensures (View(), out) == Entry(old(View()), CopyObjectStep(old(View()), h, target, template))
      ensures Valid()
    {
      hide WellLaidOut, Agreement, Store, CollectTemplate, OverridesAllowed, IsTrue, IsTokenObject, NewKeyObject;
      hide TargetCheck;
      if !initialized {
        return Code(CryptokiNotInitialized);
      }
      if h !in table.sessions {
        return Code(SessionHandleInvalid);
      }
      var slot := table.sessions[h].slot;
      var found := ObjectOnSlot(store.objects, target, slot);
      if found.None? {
        return Code(ObjectHandleInvalid);
      }
      var src := found.value;
      var handle := store.NextHandle();
      var overrides := Collect(template);
      var isToken := if CKA_TOKEN in overrides then IsTrue(overrides[CKA_TOKEN]) else IsTokenObject(src);
      var check := CheckTarget(h, isToken);
      TargetCheckFrame(old(View()), View(), h, isToken);
      if check != CkrOk {
        return Code(check);
      }
      var merged := ApplyOverrides(src.attrs, overrides);
      if merged.Err? {
        return Code(merged.error);
      }
      var copy := NewKeyObject(handle, slot, src.keyType, src.keyRef, merged.value);
      copy := copy.(alwaysSensitive := src.alwaysSensitive, neverExtractable := src.neverExtractable);
      StoreObject(copy, h);
      return Out(CkrOk, None, None, [handle]);
    }

    method DestroyObject(h: SessionHandle, target: ObjectHandle) returns (out: Out)
      requires Valid()
      modifies this, store
      ensures (View(), out) == Entry(old(View()), DestroyObjectStep(old(View()), h, target))
      ensures Valid()
    {
      hide WellLaidOut, Agreement, Snapshot, IsTokenObject, IsPrivateObject;
      if !initialized {
        return Code(CryptokiNotInitialized);
      }
      if h !in table.sessions {
        return Code(SessionHandleInvalid);
      }
      if target !in store.objects {
        return Code(ObjectHandleInvalid);
      }
      var o := store.objects[target];
      var check := CheckTarget(h, IsTokenObject(o));
      if check != CkrOk {
        return Code(check);
      }
      if o.slot != table.sessions[h].slot {
        return Code(ObjectHandleInvalid);
      }
      if IsPrivateObject(o) && table.sessions[h].login == NotLoggedIn {
        return Code(UserNotLoggedIn);
      }
      store.objects := store.objects - {target};
      assert store.objects == Without(old(store.objects), {target});
      if IsTokenObject(o) {
        PersistIfNeeded();
      }
      return Code(CkrOk);
    }

    method SetAttributeValue(h: SessionHandle, target: ObjectHandle, template: Template) returns (out: Out)
      requires Valid()
      modifies this, store
      ensures (View(), out) == Entry(old(View()), SetAttributeStep(old(View()), h, target, template))
      ensures Valid()
    {
      hide WellLaidOut, Agreement, Snapshot, ApplyTemplate, IsTokenObject;
      if !initialized {
        return Code(CryptokiNotInitialized);
      }
      var check := CheckTarget(h, true);
      if check != CkrOk {
        return Code(check);
      }
      if target !in store.objects {
        return Code(ObjectHandleInvalid);
      }
      var o, rv := SetAttributes(store.objects[target], template);
      store.objects := store.objects[target := o];
      if rv != CkrOk {
        return Code(rv);
      }
      if IsTokenObject(o) {
        PersistIfNeeded();
      }
      return Code(CkrOk);
    }

    // ---- Key generation, unwrapping and derivation --------------------------------------------------

    method GenerateKey(h: SessionHandle, mech: MechanismType, template: Template, made: Result<(Bytes, Bytes)>)
      returns (out: Out)
      requires Valid()
      modifies this, store
      ensures (View(), out) == Entry(old(View()), GenerateKeyStep(old(View()), h, mech, template, made))
      ensures Valid()
    {
      hide WellLaidOut, Agreement, Store, CollectTemplate, AttrTrue, BytesToUlong, NewKeyObject;
      hide GeneratedSecretAttrs, SecurityDefaults, GeneratedSecretType, StampFlags;
      if !initialized {
        return Code(CryptokiNotInitialized);
      }
      var attrs := Collect(template);
      var check := CheckTarget(h, AttrTrue(attrs, CKA_TOKEN));
      if check != CkrOk {
        return Code(check);
      }
      if CKA_CLASS in attrs && BytesToUlong(attrs[CKA_CLASS]) != CKO_SECRET_KEY {
        return Code(TemplateInconsistent);
      }
      var keyType := SecretKeyTypeOf(mech);
      if keyType.None? {
        return Code(MechanismInvalid);
      }
      if CKA_KEY_TYPE in attrs && BytesToUlong(attrs[CKA_KEY_TYPE]) != keyType.value {
        return Code(TemplateInconsistent);
      }
      var len := SecretLength(mech, attrs);
      if len.Err? {
        return Code(len.error);
      }
      if made.Err? {
        return Code(made.error);
      }
      var full := SecurityDefaults(attrs);
      var handle := store.NextHandle();
      var o := NewKeyObject(handle, table.sessions[h].slot, GeneratedSecretType(mech), made.value.0,
                            GeneratedSecretAttrs(mech, keyType.value, len.value, made.value.1, full));
      StoreObject(StampFlags(o, full, mech), h);
      return Out(CkrOk, None, None, [handle]);
    }

    method GenerateKeyPair(h: SessionHandle, mech: MechanismType, pubTemplate: Template, privTemplate: Template,
                           pair: Result<GeneratedPair>)
      returns (out: Out)
      requires Valid()
      modifies this, store
      ensures (View(), out) ==
              Entry(old(View()), GeneratePairStep(old(View()), h, mech, pubTemplate, privTemplate, pair))
      ensures Valid()
    {
      hide WellLaidOut, Agreement, Store, CollectTemplate, AttrTrue, PairSizeCheck, PublicHalf, PrivateHalf;
      hide TargetCheck;
      if !initialized {
        return Code(CryptokiNotInitialized);
      }
      var pubAttrs := Collect(pubTemplate);
      var privAttrs := Collect(privTemplate);
      var check := CheckTarget(h, AttrTrue(pubAttrs, CKA_TOKEN) || AttrTrue(privAttrs, CKA_TOKEN));
      if check != CkrOk {
        return Code(check);
      }
      if PairTypes(mech).None? {
        return Code(MechanismInvalid);
      }
      check := PairSizeCheck(mech, pubAttrs);
      if check != CkrOk {
        return Code(check);
      }
      if pair.Err? {
        return Code(pair.error);
      }
      var slot := table.sessions[h].slot;
      var pub := store.NextHandle();
      StoreObject(PublicHalf(pub, slot, mech, pair.value, pubAttrs), h);
      StoreFrame(old(View()).(nextHandle := store.next), PublicHalf(pub, slot, mech, pair.value, pubAttrs), h);
      var priv := store.NextHandle();
      StoreObject(PrivateHalf(priv, slot, mech, pair.value, privAttrs), h);
      return Out(CkrOk, None, None, [pub] + [priv]);
    }

    method UnwrapKey(h: SessionHandle, mech: MechanismType, key: ObjectHandle, wrapped: Bytes, template: Template)
      returns (out: Out)
      requires Valid()
      modifies this, table, store
      ensures (View(), out) == Entry(old(View()), UnwrapKeyStep(engine, old(View()), h, mech, key, wrapped, template))
              && Valid()
    {
      hide WellLaidOut, Agreement, Store, CollectTemplate, AttrTrue, UnwrappedObject, TargetCheck, ObjectOnSlot;
      hide Start, ClearTicket;
      if !initialized {
        return Code(CryptokiNotInitialized);
      }
      var attrs := Collect(template);
      var check := CheckTarget(h, AttrTrue(attrs, CKA_TOKEN));
      if check != CkrOk {
        return Code(check);
      }
      var slot := table.sessions[h].slot;
      var found := ObjectOnSlot(store.objects, key, slot);
      if found.None? {
        return Code(UnwrappingKeyHandleInvalid);
      }
      if !AttrTrue(found.value.attrs, CKA_UNWRAP) {
        return Code(KeyFunctionNotPermitted);
      }
      if found.value.alwaysAuthenticate && !table.sessions[h].ticket {
        return Code(UserNotLoggedIn);
      }
      if mech != CKM_AES_KEY_WRAP {
        return Code(MechanismInvalid);
      }
      var provider := slots.EngineForSlot(slot);
      if provider.Err? {
        return Code(provider.error);
      }
      var bytes := engine.keyUnwrap(found.value.keyRef, wrapped);
      if bytes.Err? {
        return Code(bytes.error);
      }
      if |bytes.value| != 16 && |bytes.value| != 24 && |bytes.value| != 32 {
        return Code(KeySizeRange);
      }
      var handle := store.NextHandle();
      StoreAndBurn(UnwrappedObject(handle, slot, mech, bytes.value, attrs), h);
      return Out(CkrOk, None, None, [handle]);
    }

    /** The last section of `C_DeriveKey`: the key is stored and the ticket spent. */
    method AddDerived(h: SessionHandle, base: KeyObject, slot: SlotId, mech: MechanismType, bytes: Bytes, len: nat,
                      unique: Bytes, attrs: Attributes)
      returns (out: Out)
      requires Valid()
      requires h in table.sessions
      modifies this`disk, table`sessions, store
      ensures var st := old(View());
              var o := DerivedKey(base, st.nextHandle, slot, mech, bytes, len, unique, attrs);
              var (st', added) := AddObject(st, h, o);
              h in st'.sessions && View() == ClearTicket(st', h) && out == added
      ensures Valid()
    {
      hide WellLaidOut, Agreement, Store, ClearTicket, DerivedKey;
      var handle := store.NextHandle();
      StoreAndBurn(DerivedKey(base, handle, slot, mech, bytes, len, unique, attrs), h);
      return Out(CkrOk, None, None, [handle]);
    }

    method DeriveKey(h: SessionHandle, mech: MechanismType, base: ObjectHandle, params: Option<HkdfParams>,
                     template: Template, unique: Result<Bytes>)
      returns (out: Out)
      requires Valid()
      modifies this, table, store
      ensures (View(), out) ==
              Entry(old(View()), DeriveKeyStep(engine, old(View()), h, mech, base, params, template, unique)) && Valid()
    {
      hide WellLaidOut, Agreement, Store, ClearTicket, CollectTemplate, AttrTrue, DerivedKey, BytesToUlong, TargetCheck,
           HkdfHash, Start, AddObject;
      if !initialized {
        return Code(CryptokiNotInitialized);
      }
      var attrs := Collect(template);
      var check := CheckTarget(h, AttrTrue(attrs, CKA_TOKEN));
      if check != CkrOk {
        return Code(check);
      }
      var slot := table.sessions[h].slot;
      if base !in store.objects {
        return Code(ObjectHandleInvalid);
      }
      var b := store.objects[base];
      if !AttrTrue(b.attrs, CKA_DERIVE) {
        return Code(KeyFunctionNotPermitted);
      }
      if b.alwaysAuthenticate && !table.sessions[h].ticket {
        return Code(UserNotLoggedIn);
      }
      if mech != CKM_HKDF_DERIVE {
        return Code(MechanismInvalid);
      }
      if params.None? || HkdfHash(params.value.prf).None? {
        return Code(MechanismParamInvalid);
      }
      var provider := slots.EngineForSlot(slot);
      if provider.Err? {
        return Code(provider.error);
      }
      var len := if CKA_VALUE_LEN in attrs then BytesToUlong(attrs[CKA_VALUE_LEN]) else 32;
      var bytes := engine.hkdf(HkdfHash(params.value.prf).value, b.keyRef, params.value.salt, params.value.info, len);
      if bytes.Err? {
        return Code(bytes.error);
      }
      if unique.Err? {
        return Code(unique.error);
      }
      out := AddDerived(h, b, slot, mech, bytes.value, len, unique.value, attrs);
    }

    // ---- Context operations -------------------------------------------------------------------------

    /** A section that holds the session: everything but slot, flags and login state may change. */
    method PutSession(h: SessionHandle, s: Session)
      requires Valid()
      requires h in table.sessions
      requires s == table.sessions[h].(ticket := s.ticket, ops := s.ops)
      modifies table`sessions
      ensures table.sessions == old(table.sessions)[h := s] && Valid()
    {
      LoginSteps.TouchAgrees(table.sessions, h, s.ticket, s.ops);
      table.sessions := table.sessions[h := s];
    }

    /**
     `C_Sign` when `data` is given, `C_SignFinal` otherwise: the context is taken, and put back after a
     length query.
     */
    method Sign(h: SessionHandle, data: Option<Bytes>, buf: OutBuf, entropy: Bytes) returns (out: Out)
      requires Valid()
      modifies table
      ensures (View(), out) ==
              Entry(old(View()),
                    OpStep(engine, old(View()), h, if data.Some? then SessionOperations.Sign(data.value, buf, entropy)
                           else SignFinal(buf, entropy))) && Valid()
    {
      hide WellLaidOut, Agreement, SessionStep, SignWith, WriteToOutput;
      PutBack(table.sessions, h);
      if h in table.sessions {
        DispatchSign(EnvOf(engine, View(), h), table.sessions[h], data, buf, entropy);
      }
      if !initialized {
        return Code(CryptokiNotInitialized);
      }
      if buf == NoLength {
        return Code(ArgumentsBad);
      }
      if h !in table.sessions {
        return Code(SessionHandleInvalid);
      }
      var s := table.sessions[h];
      if s.ops.sign.None? {
        return Code(OperationNotInitialized);
      }
      var ctx := s.ops.sign.value;
      PutSession(h, PutSign(s, None));
      if ctx.key !in store.objects {
        return Code(ObjectHandleInvalid);
      }
      var o := store.objects[ctx.key];
      if o.alwaysAuthenticate && !table.sessions[h].ticket {
        return Code(UserNotLoggedIn);
      }
      var provider := slots.EngineForSlot(s.slot);
      if provider.Err? {
        return Code(provider.error);
      }
      var r := SignWith(engine, ctx.mech, o, if data.Some? then data.value else ctx.data, entropy);
      if r.Err? {
        return Code(r.error);
      }
      ghost var taken := table.sessions[h];
      if buf.LengthQuery? {
        PutSession(h, s);
      } else {
        SetTicket(h, false);
      }
      PutTwice(old(table.sessions), h, taken, table.sessions[h]);
      return WriteToOutput(buf, r.value);
    }

    /** `C_Decrypt` or `C_DecryptFinal`. */
    method Decrypt(h: SessionHandle, data: Option<Bytes>, buf: OutBuf) returns (out: Out)
      requires Valid()
      modifies table
      ensures (View(), out) ==
              Entry(old(View()),
                    OpStep(engine, old(View()), h, if data.Some? then SessionOperations.Decrypt(data.value, buf)
                           else DecryptFinal(buf))) && Valid()
    {
      hide WellLaidOut, Agreement, SessionStep, DecryptSymmetric, WriteToOutput, RsaEncMechanism;
      PutBack(table.sessions, h);
      if h in table.sessions {
        DispatchDecrypt(EnvOf(engine, View(), h), table.sessions[h], data, buf);
      }
      if !initialized {
        return Code(CryptokiNotInitialized);
      }
      if buf == NoLength {
        return Code(ArgumentsBad);
      }
      if h !in table.sessions {
        return Code(SessionHandleInvalid);
      }
      var s := table.sessions[h];
      if s.ops.decrypt.None? {
        return Code(OperationNotInitialized);
      }
      var ctx := s.ops.decrypt.value;
      PutSession(h, PutDecrypt(s, None));
      if ctx.key !in store.objects {
        return Code(ObjectHandleInvalid);
      }
      var o := store.objects[ctx.key];
      if o.alwaysAuthenticate && !table.sessions[h].ticket {
        return Code(UserNotLoggedIn);
      }
      var provider := slots.EngineForSlot(s.slot);
      if provider.Err? {
        return Code(provider.error);
      }
      var r := if data.Some? && RsaEncMechanism(ctx.mech) then engine.rsaDecrypt(ctx.mech, o.keyRef, data.value)
               else DecryptSymmetric(engine, ctx.mech, o, ctx.iv, ctx.aad, if data.Some? then data.value
                                     else ctx.data, ctx.tagLen);
      if r.Err? {
        return Code(r.error);
      }
      ghost var taken := table.sessions[h];
      if buf.LengthQuery? {
        PutSession(h, s);
      } else {
        SetTicket(h, false);
      }
      PutTwice(old(table.sessions), h, taken, table.sessions[h]);
      return WriteToOutput(buf, r.value);
    }

    /** Hash and write; the context ends only when bytes were delivered. */
    method DeliverHash(h: SessionHandle, mech: MechanismType, data: Bytes, buf: OutBuf) returns (out: Out)
      requires Valid() && h in table.sessions && buf != NoLength
      modifies table`sessions
      ensures var (s, o) := FinishDigest(EnvOf(engine, old(View()), h), old(table.sessions[h]), mech, data, buf);
              table.sessions == old(table.sessions)[h := s] && out == o
      ensures Valid()
    {
      hide WellLaidOut, Agreement, DigestWith, WriteToOutput;
      PutBack(table.sessions, h);
      var provider := slots.EngineForSlot(table.sessions[h].slot);
      if provider.Err? {
        return Code(provider.error);
      }
      var r := DigestWith(engine, mech, data);
      if r.Err? {
        return Code(r.error);
      }
      out := WriteToOutput(buf, r.value);
      if out.rv == CkrOk && buf.Buffer? {
        PutSession(h, PutDigest(table.sessions[h], None));
      }
    }

    /** `C_Digest`: a multi-part operation under way is dropped. */
    method Digest(h: SessionHandle, data: Bytes, buf: OutBuf) returns (out: Out)
      requires Valid()
      modifies table
      ensures (View(), out) == Entry(old(View()), OpStep(engine, old(View()), h, SessionOperations.Digest(data, buf)))
              && Valid()
    {
      hide WellLaidOut, Agreement, SessionStep, DigestWith, FinishDigest;
      PutBack(table.sessions, h);
      if h in table.sessions {
        DispatchDigest(EnvOf(engine, View(), h), table.sessions[h], data, buf);
      }
      if !initialized {
        return Code(CryptokiNotInitialized);
      }
      if buf == NoLength {
        if h in table.sessions {
          PutSession(h, PutDigest(table.sessions[h], None));
        }
        return Code(ArgumentsBad);
      }
      if h !in table.sessions {
        return Code(SessionHandleInvalid);
      }
      var s := table.sessions[h];
      if s.ops.digest.None? {
        return Code(OperationNotInitialized);
      }
      var ctx := s.ops.digest.value;
      if ctx.multiPart {
        PutSession(h, PutDigest(s, None));
        return Code(OperationActive);
      }
      var marked := PutDigest(s, Some(ctx.(singlePart := true)));
      PutSession(h, marked);
      out := DeliverHash(h, ctx.mech, data, buf);
      PutTwice(old(table.sessions), h, marked, table.sessions[h]);
    }

    /** `C_DigestFinal`: a single-part operation under way is dropped. */
    method DigestFinal(h: SessionHandle, buf: OutBuf) returns (out: Out)
      requires Valid()
      modifies table
      ensures (View(), out) == Entry(old(View()), OpStep(engine, old(View()), h, SessionOperations.DigestFinal(buf)))
              && Valid()
    {
      hide WellLaidOut, Agreement, SessionStep, DigestWith, FinishDigest;
      PutBack(table.sessions, h);
      if h in table.sessions {
        DispatchDigest(EnvOf(engine, View(), h), table.sessions[h], [], buf);
      }
      if !initialized {
        return Code(CryptokiNotInitialized);
      }
      if buf == NoLength {
        if h in table.sessions {
          PutSession(h, PutDigest(table.sessions[h], None));
        }
        return Code(ArgumentsBad);
      }
      if h !in table.sessions {
        return Code(SessionHandleInvalid);
      }
      var s := table.sessions[h];
      if s.ops.digest.None? {
        return Code(OperationNotInitialized);
      }
      var ctx := s.ops.digest.value;
      if ctx.singlePart {
        PutSession(h, PutDigest(s, None));
        return Code(OperationActive);
      }
      var marked := PutDigest(s, Some(ctx.(multiPart := true)));
      PutSession(h, marked);
      out := DeliverHash(h, ctx.mech, ctx.data, buf);
      PutTwice(old(table.sessions), h, marked, table.sessions[h]);
    }

    /** `C_DigestKey`: the context is taken out and put back with the key's bytes. */
    method DigestKey(h: SessionHandle, key: ObjectHandle) returns (out: Out)
      requires Valid()
      modifies table
      ensures (View(), out) == Entry(old(View()), OpStep(engine, old(View()), h, SessionOperations.DigestKey(key)))
              && Valid()
    {
      hide WellLaidOut, Agreement, DigestKeyBytes;
      PutBack(table.sessions, h);
      if !initialized {
        return Code(CryptokiNotInitialized);
      }
      if h !in table.sessions {
        return Code(SessionHandleInvalid);
      }
      var s := table.sessions[h];
      var bytes := DigestKeyBytes(Env(if s.slot in slots.slots then Some(engine) else None, store.objects), key);
      if bytes.Err? {
        return Code(bytes.error);
      }
      if s.ops.digest.None? {
        return Code(OperationNotInitialized);
      }
      var ctx := s.ops.digest.value;
      PutSession(h, PutDigest(s, None));
      if ctx.singlePart {
        return Code(OperationActive);
      }
      PutSession(h, PutDigest(s, Some(ctx.(multiPart := true, data := ctx.data + bytes.value))));
      PutTwice(old(table.sessions), h, PutDigest(s, None), table.sessions[h]);
      return Code(CkrOk);
    }

    /** The search is legal in the machine's sense: it lists exactly the visible matches. */
    method FindObjectsInit(h: SessionHandle, template: Template) returns (out: Out, ghost results: seq<ObjectHandle>)
      requires Valid()
      modifies table
      ensures Legal(old(View()), Op(h, SessionOperations.FindObjectsInit(template, results)))
      ensures (View(), out) ==
              Entry(old(View()), OpStep(engine, old(View()), h, SessionOperations.FindObjectsInit(template, results)))
                && Valid()
    {
      hide WellLaidOut, Agreement, Enumerates, VisibleMatches, CollectTemplateVec;
      PutBack(table.sessions, h);
      results := [];
      if !initialized || h !in table.sessions {
        out := Code(if !initialized then CryptokiNotInitialized else SessionHandleInvalid);
        if h in table.sessions {
          var other := Search.FindMatching(store.objects, table.sessions[h].slot, CollectTemplateVec(template),
                                           table.sessions[h].login != NotLoggedIn);
          results := other;
        }
        return;
      }
      var s := table.sessions[h];
      var found := Search.FindMatching(store.objects, s.slot, CollectTemplateVec(template), s.login != NotLoggedIn);
      results := found;
      if s.ops.find.Some? {
        return Code(OperationActive), found;
      }
      PutSession(h, PutFind(s, Some(FindContext(found, 0))));
      return Code(CkrOk), found;
    }

    /** A call that is one closure on its session. */
    method InSession(h: SessionHandle, op: SessionOp) returns (out: Out)
      requires Valid() && !op.Digest? && !op.DigestFinal?
      modifies table
      ensures (View(), out) == Entry(old(View()), OpStep(engine, old(View()), h, op)) && Valid()
    {
      hide WellLaidOut, Agreement, SessionStep;
      if !initialized {
        return Code(CryptokiNotInitialized);
      }
      if h !in table.sessions {
        return Code(if Precheck(op) != CkrOk then Precheck(op) else SessionHandleInvalid);
      }
      var s := table.sessions[h];
      var env := Env(if s.slot in slots.slots then Some(engine) else None, store.objects);
      SessionStepFrame(env, s, op);
      var (s', o) := SessionStep(env, s, op);
      PutSession(h, s');
      return o;
    }

    // ---- Any sequence of calls ----------------------------------------------------------------------

    method PerformOp(h: SessionHandle, op: SessionOp) returns (out: Out, ghost done: SessionOp)
      requires Valid()
      modifies table
      ensures Valid() && SameOperation(op, done) && Legal(old(View()), Op(h, done))
      ensures (View(), out) == Entry(old(View()), OpStep(engine, old(View()), h, done))
    {
      hide Valid, OpStep, Legal;
      OtherOpsAreLegal(View(), h, op);
      done := op;
      match op
      case Sign(data, buf, entropy) => out := Sign(h, Some(data), buf, entropy);
      case SignFinal(buf, entropy) => out := Sign(h, None, buf, entropy);
      case Decrypt(data, buf) => out := Decrypt(h, Some(data), buf);
      case DecryptFinal(buf) => out := Decrypt(h, None, buf);
      case Digest(data, buf) => out := Digest(h, data, buf);
      case DigestFinal(buf) => out := DigestFinal(h, buf);
      case DigestKey(key) => out := DigestKey(h, key);
      case FindObjectsInit(template, _) =>
        ghost var results;
        out, results := FindObjectsInit(h, template);
        done := SessionOperations.FindObjectsInit(template, results);
      case _ => out := InSession(h, op);
    }

    method PerformLifecycle(c: Call) returns (out: Out)
      requires Valid() && (c.Initialize? || c.Finalize? || c.Crash?)
      modifies this, slots, table, store
      ensures Valid() && (View(), out) == Step(engine, old(View()), c)
    {
      hide WellLaidOut, Agreement, InitializeStep, FinalizeStep, Boot;
      match c
      case Initialize(args, slotCount) => out := Initialize(args, slotCount);
      case Finalize(reserved) => out := Finalize(reserved);
      case Crash => out := Crash();
    }

    method PerformOnSessions(c: Call) returns (out: Out)
      requires Valid() && OnSessions(c)
      modifies this, table, store
      ensures Valid() && (View(), out) == Entry(old(View()), RunningStep(engine, old(View()), c))
    {
      hide Valid, View;
      hide InitTokenStep, InitPinStep, SetPinStep, OpenSessionStep, CloseSessionStep, CloseAllStep, LoginStep;
      hide LogoutStep;
      match c
      case InitToken(slot, pin, text) => out := InitToken(slot, pin, text);
      case InitPIN(h, pin) => out := InitPIN(h, pin);
      case SetPIN(h, oldPin, newPin) => out := SetPIN(h, oldPin, newPin);
      case OpenSession(slot, flags) => out := OpenSession(slot, flags);
      case CloseSession(h) => out := CloseSession(h);
      case CloseAllSessions(slot) => out := CloseAllSessions(slot);
      case Login(h, userType, pin) => out := Login(h, userType, pin, false);
      case LoginUser(h, userType, pin) => out := Login(h, userType, pin, true);
      case Logout(h) => out := Logout(h);
    }

    method PerformOnObjects(c: Call) returns (out: Out)
      requires Valid() && OnObjects(c)
      modifies this, table, store
      ensures Valid() && (View(), out) == Entry(old(View()), RunningStep(engine, old(View()), c))
    {
      hide Valid, View;
      hide CreateObjectStep, CopyObjectStep, DestroyObjectStep, SetAttributeStep, GenerateKeyStep, GeneratePairStep;
      hide UnwrapKeyStep, DeriveKeyStep;
      match c
      case CreateObject(h, template) => out := CreateObject(h, template);
      case CopyObject(h, target, template) => out := CopyObject(h, target, template);
      case DestroyObject(h, target) => out := DestroyObject(h, target);
      case SetAttributeValue(h, target, template) => out := SetAttributeValue(h, target, template);
      case GenerateKey(h, mech, template, made) => out := GenerateKey(h, mech, template, made);
      case GenerateKeyPair(h, mech, pubT, privT, pair) => out := GenerateKeyPair(h, mech, pubT, privT, pair);
      case UnwrapKey(h, mech, key, wrapped, template) => out := UnwrapKey(h, mech, key, wrapped, template);
      case DeriveKey(h, mech, base, params, template, unique) =>
        out := DeriveKey(h, mech, base, params, template, unique);
    }

    /** One call, whatever it is, is one legal step; only the order of a search's matches is the map's own. */
    method Perform(c: Call) returns (out: Out, ghost done: Call)
      requires Valid()
      modifies this, slots, table, store
      ensures Valid() && SameRequest(c, done) && Legal(old(View()), done)
      ensures (View(), out) == Step(engine, old(View()), done)
    {
      hide WellLaidOut, Agreement, RunningStep, InitializeStep, FinalizeStep, Boot, OpStep, Enumerates;
      done := c;
      if c.Initialize? || c.Finalize? || c.Crash? {
        out := PerformLifecycle(c);
      } else if c.Op? {
        ghost var op;
        out, op := PerformOp(c.h, c.op);
        done := Op(c.h, op);
        OpIsStep(engine, old(View()), c.h, op);
      } else if OnSessions(c) {
        out := PerformOnSessions(c);
        EntryIsStep(engine, old(View()), c);
      } else {
        out := PerformOnObjects(c);
        EntryIsStep(engine, old(View()), c);
      }
    }

    /**
     Any sequence of calls, performed by this code, is a legal run of the state machine: it
     ends in the machine's state and every answer is the machine's answer.
     */
    method Run(calls: seq<Call>) returns (outs: seq<Out>, ghost done: seq<Call>)
      requires Valid()
      modifies this, slots, table, store
      ensures Valid() && |outs| == |done| == |calls|
      ensures forall i :: 0 <= i < |calls| ==> SameRequest(calls[i], done[i])
      ensures View() == After(engine, old(View()), done) && LegalRun(engine, old(View()), done)
      ensures forall i :: 0 <= i < |calls| ==> outs[i] == Step(engine, After(engine, old(View()), done[..i]), done[i]).1
    {
      hide Step, SameRequest, Legal;
      ghost var start := View();
      outs, done := [], [];
      for i := 0 to |calls|
        invariant Valid() && |outs| == |done| == i
        invariant forall j :: 0 <= j < i ==> SameRequest(calls[j], done[j])
        invariant View() == After(engine, start, done) && LegalRun(engine, start, done)
        invariant forall j :: 0 <= j < i ==> outs[j] == Step(engine, After(engine, start, done[..j]), done[j]).1
      {
        var out;
        ghost var c;
        out, c := Perform(calls[i]);
        ghost var longer := done + [c];
        assert longer[..i] == done && done[..i] == done;
        assert forall j :: 0 <= j < i ==> longer[..j] == done[..j];
        outs, done := outs + [out], longer;
      }
    }
  }

  predicate OnSessions(c: Call) {
    || c.InitToken? || c.InitPIN? || c.SetPIN? || c.OpenSession? || c.CloseSession? || c.CloseAllSessions?
    || c.Login? || c.LoginUser? || c.Logout?
  }

  predicate OnObjects(c: Call) {
    || c.CreateObject? || c.CopyObject? || c.DestroyObject? || c.SetAttributeValue?
    || c.GenerateKey? || c.GenerateKeyPair? || c.UnwrapKey? || c.DeriveKey?
  }

  /** The same call; a search may list its matches in another order. */
  predicate SameOperation(op: SessionOp, done: SessionOp) {
    done == op || (op.FindObjectsInit? && done.FindObjectsInit? && done.template == op.template)
  }

  predicate SameRequest(c: Call, done: Call) {
    done == c || (c.Op? && done.Op? && done.h == c.h && SameOperation(c.op, done.op))
  }

  lemma {:induction false} SameDraws(calls: seq<Call>, done: seq<Call>)
    requires |done| == |calls| && forall i :: 0 <= i < |calls| ==> SameRequest(calls[i], done[i])
    ensures TotalDraws(done) == TotalDraws(calls)
  {
    if calls != [] {
      SameDraws(calls[..|calls| - 1], done[..|done| - 1]);
    }
  }

  /**
   A process over a well-formed disk, serving any calls with fewer than 2^64 draws in all,
   ends with the whole invariant: the run theorem, carried over to this code.
   */
  method Serve(engine: Engine, disk: Option<StoredState>, calls: seq<Call>) returns (p: Provider, outs: seq<Out>)
    requires DiskOk(disk) && Fits(Boot(disk), TotalDraws(calls))
    ensures fresh(p) && p.Valid() && Inv(p.View()) && |outs| == |calls|
  {
    hide After, Inv, LegalRun, Step;
    p := new Provider(engine, disk);
    ghost var done;
    outs, done := p.Run(calls);
    SameDraws(calls, done);
    RunKeepsInv(engine, disk, done, 0);
  }

  lemma OtherOpsAreLegal(st: State, h: SessionHandle, op: SessionOp)
    ensures !op.FindObjectsInit? ==> Legal(st, Op(h, op))
  {
  }

  lemma OpIsStep(e: Engine, st: State, h: SessionHandle, op: SessionOp)
    ensures Step(e, st, Op(h, op)) == Entry(st, OpStep(e, st, h, op))
  {
    hide OpStep;
  }

  /** Putting a session back unchanged changes nothing. */
  lemma PutBack(sessions: SessionMap, h: SessionHandle)
    ensures h in sessions ==> sessions[h := sessions[h]] == sessions
  {
  }

  lemma PutTwice(sessions: SessionMap, h: SessionHandle, s: Session, s': Session)
    ensures sessions[h := s][h := s'] == sessions[h := s']
  {
  }

  lemma DispatchDigest(env: Env, s: Session, data: Bytes, buf: OutBuf)
    ensures SessionStep(env, s, SessionOperations.Digest(data, buf)) == DigestStep(env, s, data, buf)
    ensures SessionStep(env, s, SessionOperations.DigestFinal(buf)) == DigestFinalStep(env, s, buf)
  {
    hide DigestStep, DigestFinalStep;
  }

  lemma DispatchDecrypt(env: Env, s: Session, data: Option<Bytes>, buf: OutBuf)
    ensures SessionStep(env, s, if data.Some? then SessionOperations.Decrypt(data.value, buf)
                        else DecryptFinal(buf)) == DecryptStep(env, s, data, buf)
  {
    hide DecryptStep;
  }

  lemma DispatchSign(env: Env, s: Session, data: Option<Bytes>, buf: OutBuf, entropy: Bytes)
    ensures SessionStep(env, s, if data.Some? then SessionOperations.Sign(data.value, buf, entropy)
                        else SignFinal(buf, entropy))
            == SignStep(env, s, data, buf, entropy)
  {
    hide SignStep;
  }

  lemma OneMoreToken(base: map<SlotId, TokenData>, loaded: map<SlotId, TokenData>, left: set<SlotId>, s: SlotId)
    requires s in left && s in loaded
    ensures base + (loaded - (left - {s})) == (base + (loaded - left))[s := loaded[s]]
  {
  }

  /** The check looks at the sessions only. */
  lemma TargetCheckFrame(st: State, st': State, h: SessionHandle, isToken: bool)
    requires st'.sessions == st.sessions
    ensures TargetCheck(st', h, isToken) == TargetCheck(st, h, isToken)
  {
  }

  /** Storing leaves the counter and the sessions alone. */
  lemma StoreFrame(st: State, o: KeyObject, session: SessionHandle)
    ensures Store(st, o, session).nextHandle == st.nextHandle && Store(st, o, session).sessions == st.sessions
  {
    hide Snapshot;
  }
}
