/**
 Session-object ownership and crash consistency: in which runs the disk image is
 current at every call boundary, and what a restart then brings back.
 */
module Persistence {
  import opened Types
  import opened Objects
  import opened AttributePolicy
  import opened TemplateWrites
  import opened Backend
  import opened Registry
  import opened Sessions
  import opened SessionOperations
  import opened Tokens
  import opened Storage
  import opened Machine
  import opened Invariants

  // ---- Ownership and the current disk image -----------------------------------------------------------

  /** A session object is owned by an open session of its slot; a token object by nobody. */
  predicate Owned(o: KeyObject, sessions: SessionMap) {
    if IsSessionObject(o) then
      o.creatingSession.Some? && o.creatingSession.value in sessions && sessions[o.creatingSession.value].slot == o.slot
    else o.creatingSession.None?
  }

  predicate NoOrphans(objects: ObjectMap, sessions: SessionMap) {
    forall h :: h in objects ==> Owned(objects[h], sessions)
  }

  function DiskObjects(disk: Option<StoredState>): map<ObjectHandle, StoredObject> {
    if disk.Some? then disk.value.objects else map[]
  }

  /** While the library is initialised, the disk holds exactly the non-profile token objects in memory. */
  predicate DiskCurrent(st: State) {
    st.initialized ==> DiskObjects(st.disk) == DiskImage(st.objects)
  }

  predicate Sound(st: State) {
    NoOrphans(st.objects, st.sessions) && DiskCurrent(st)
  }

  /**
   The two calls that can break soundness, with the guard a caller can check first:
   a `C_SetAttributeValue` template must be clean for its object, and a `C_Initialize`
   must register the slot of every stored object.
   */
  ghost predicate Clean(st: State, c: Call) {
    match c
    case SetAttributeValue(h, target, template) =>
      st.initialized && RwCheck(st, h) == CkrOk && target in st.objects ==> CleanTemplate(st.objects[target], template)
    case Initialize(args, slotCount) =>
      InitArgsCheck(args) == CkrOk && !st.initialized ==> SlotsCovered(st.disk, slotCount)
    case _ => true
  }

  predicate SlotsCovered(disk: Option<StoredState>, slotCount: nat) {
    forall h :: h in DiskObjects(disk) ==> DiskObjects(disk)[h].slot < slotCount
  }

  // ---- How the image follows the store ------------------------------------------------------------------

  lemma ImagePut(objects: ObjectMap, h: ObjectHandle, o: KeyObject)
    requires !Persistable(o) && (h in objects ==> !Persistable(objects[h]))
    ensures DiskImage(objects[h := o]) == DiskImage(objects)
  {
  }

  /** Saving makes the image current. */
  lemma PersistIsCurrent(st: State)
    requires Inv(st)
    ensures DiskCurrent(Persist(st))
  {
    SnapshotObjects(st);
  }

  lemma AddObjectSound(st: State, h: SessionHandle, o: KeyObject)
    requires Inv(st) && Sound(st) && st.initialized && Fits(st, 1) && h in st.sessions
    requires o.handle == st.nextHandle && o.slot == st.sessions[h].slot && o.creatingSession.None?
    ensures Sound(AddObject(st, h, o).0)
  {
    hide Inv, DiskImage, Snapshot;
    NextHandleIsFresh(st);
    SessionSlotRegistered(st, h);
    if IsTokenObject(o) {
      InsertKeepsInv(st, o);
      PersistIsCurrent(Draw(st).(objects := st.objects[o.handle := o]));
    } else {
      ImagePut(st.objects, o.handle, o.(creatingSession := Some(h)));
    }
  }

  /** Dropping objects that are not persisted keeps the image current without a save. */
  lemma WithoutSound(st: State, gone: set<ObjectHandle>)
    requires Sound(st)
    requires forall h :: h in st.objects && h in gone ==> !Persistable(st.objects[h])
    ensures Sound(st.(objects := Without(st.objects, gone)))
  {
  }

  /** Ownership only looks at which sessions exist and on which slots. */
  lemma SameSlotsNoOrphans(objects: ObjectMap, sessions: SessionMap, sessions': SessionMap)
    requires NoOrphans(objects, sessions)
    requires forall h :: h in sessions ==> h in sessions' && sessions'[h].slot == sessions[h].slot
    ensures NoOrphans(objects, sessions')
  {
  }

  // ---- One lemma per entry point that touches objects or sessions ------------------------------------------

  lemma CloseSessionSound(st: State, h: SessionHandle)
    requires Inv(st) && Sound(st) && st.initialized
    ensures Sound(CloseSessionStep(st, h).0)
  {
    if h in st.sessions {
      WithoutSound(st, OwnedBy(st.objects, h));
    }
  }

  lemma CloseAllSound(st: State, slot: SlotId)
    requires Inv(st) && Sound(st) && st.initialized
    ensures Sound(CloseAllStep(st, slot).0)
  {
  }

  lemma LoginAllSlots(sessions: SessionMap, slot: SlotId, login: LoginState)
    ensures forall h :: h in sessions ==>
            h in LoginAll(sessions, slot, login) && LoginAll(sessions, slot, login)[h].slot == sessions[h].slot
    ensures forall h :: h in sessions ==>
            h in ReleaseFinds(sessions, slot) && ReleaseFinds(sessions, slot)[h].slot == sessions[h].slot
  {
  }

  lemma LogoutSound(st: State, h: SessionHandle)
    requires Inv(st) && Sound(st) && st.initialized
    ensures Sound(LogoutStep(st, h).0)
  {
    if h in st.sessions {
      var slot := st.sessions[h].slot;
      WithoutSound(st, PrivateSessionObjectsOn(st.objects, slot));
      LoginAllSlots(st.sessions, slot, NotLoggedIn);
      LoginAllSlots(ReleaseFinds(st.sessions, slot), slot, NotLoggedIn);
      SameSlotsNoOrphans(Without(st.objects, PrivateSessionObjectsOn(st.objects, slot)), st.sessions,
                         LoginAll(ReleaseFinds(st.sessions, slot), slot, NotLoggedIn));
    }
  }

  lemma DestroySound(st: State, h: SessionHandle, target: ObjectHandle)
    requires Inv(st) && Sound(st) && st.initialized
    ensures Sound(DestroyObjectStep(st, h, target).0)
  {
    hide Sound, Inv, Snapshot, IsPrivateObject, Without;
    if target in st.objects {
      DroppedSound(st, target);
    }
  }

  lemma DroppedSound(st: State, target: ObjectHandle)
    requires Inv(st) && Sound(st) && st.initialized && target in st.objects
    ensures var st1 := st.(objects := Without(st.objects, {target}));
            Sound(if IsTokenObject(st.objects[target]) then Persist(st1) else st1)
  {
    if IsTokenObject(st.objects[target]) {
      WithoutKeepsInv(st, {target});
      PersistIsCurrent(st.(objects := Without(st.objects, {target})));
    } else {
      WithoutSound(st, {target});
    }
  }

  lemma EnsureProfileOwned(st: State, slot: SlotId)
    requires NoOrphans(st.objects, st.sessions)
    ensures NoOrphans(EnsureProfile(st, slot).objects, st.sessions)
  {
  }

  lemma InitTokenSound(st: State, slot: SlotId, pin: Bytes, text: Bytes)
    requires Inv(st) && Sound(st) && st.initialized && Fits(st, 1)
    ensures Sound(InitTokenStep(st, slot, pin, text).0)
  {
    hide InitTokenSpec;
    if slot in st.registry.slots && !HasSessions(st.sessions, slot) {
      var (t, rv) := InitTokenSpec(TokenAt(st.tokens, slot), pin, Padded(text, LABEL_LEN));
      if rv == CkrOk {
        InitTokenKeepsInv(st, slot, pin, text);
        var st2 := Persist(PutToken(st, slot, t).(objects := Without(st.objects, ObjectsOn(st.objects, slot))));
        EnsureProfileOwned(st2, slot);
        var st3 := EnsureProfile(st2, slot);
        assert InitTokenStep(st, slot, pin, text).0 == Persist(st3);
        assert ObjectsOk(st3.objects, st3.nextHandle, st3.registry.slots.Keys);
        SnapshotObjects(st3);
      }
    }
  }

  /** Writes to one object: sound afterwards exactly when the template was clean. */
  lemma SetAttributeSoundExact(st: State, h: SessionHandle, target: ObjectHandle, template: Template)
    requires Inv(st) && Sound(st) && st.initialized && RwCheck(st, h) == CkrOk && target in st.objects
    ensures Sound(SetAttributeStep(st, h, target, template).0) <==> CleanTemplate(st.objects[target], template)
  {
    hide ApplyTemplate, CleanTemplate;
    var o := st.objects[target];
    ApplyTemplateKeepsIdentity(o, template);
    CleanTemplateExact(o, template);
    var (o', rv) := ApplyTemplate(o, template);
    var st1 := st.(objects := st.objects[target := o']);
    var st' := SetAttributeStep(st, h, target, template).0;
    assert st'.objects == st1.objects && st'.sessions == st.sessions;
    assert NoOrphans(st'.objects, st'.sessions) <==> IsTokenObject(o') == IsTokenObject(o) by {
      WriteOwnedExact(st, target, o');
    }
    if IsTokenObject(o') == IsTokenObject(o) {
      WriteImageExact(st, target, o', rv);
    }
  }

  lemma WriteOwnedExact(st: State, target: ObjectHandle, o': KeyObject)
    requires NoOrphans(st.objects, st.sessions) && target in st.objects && SameIdentity(st.objects[target], o')
    ensures NoOrphans(st.objects[target := o'], st.sessions) <==> IsTokenObject(o') == IsTokenObject(st.objects[target])
  {
    assert Owned(st.objects[target], st.sessions);
    var after := st.objects[target := o'];
    assert after[target] == o';
  }

  lemma WriteImageExact(st: State, target: ObjectHandle, o': KeyObject, rv: Rv)
    requires Inv(st) && Sound(st) && st.initialized && target in st.objects && SameIdentity(st.objects[target], o')
    requires IsTokenObject(o') == IsTokenObject(st.objects[target])
    ensures var st1 := st.(objects := st.objects[target := o']);
            var st' := if rv == CkrOk && IsTokenObject(o') then Persist(st1) else st1;
            DiskCurrent(st') <==>
              (rv != CkrOk && Persistable(st.objects[target]) ==> o'.attrs == st.objects[target].attrs)
  {
    var o := st.objects[target];
    var st1 := st.(objects := st.objects[target := o']);
    if rv == CkrOk && IsTokenObject(o') {
      ReplaceObjectKeepsInv(st, target, o');
      PersistIsCurrent(st1);
    } else if !Persistable(o) {
      ImagePut(st.objects, target, o');
    } else {
      ImageReplace(st.objects, target, o');
    }
  }

  lemma ImageReplace(objects: ObjectMap, target: ObjectHandle, o': KeyObject)
    requires target in objects && Persistable(objects[target]) && Persistable(o') && SameIdentity(objects[target], o')
    ensures DiskImage(objects[target := o']) == DiskImage(objects) <==> o'.attrs == objects[target].attrs
  {
    var before, after := DiskImage(objects), DiskImage(objects[target := o']);
    assert before[target].attrs == objects[target].attrs && after[target].attrs == o'.attrs;
    assert forall h :: h in before && h != target ==> after[h] == before[h];
  }

  // ---- Restart ---------------------------------------------------------------------------------------------

  /** Restoring and storing again is the identity on stored token objects. */
  lemma StoreAfterRestore(s: StoredObject)
    requires AttrTrue(s.attrs, CKA_TOKEN)
    ensures Persistable(Restore(s)) && ToStored(Restore(s)) == s && Restore(s).creatingSession.None?
  {
  }

  lemma LoadedAreTokens(d: StoredState, registry: RegistryData)
    requires DiskOk(Some(d))
    ensures NoOrphans(LoadedObjects(d, registry), map[])
    ensures var image := DiskImage(LoadedObjects(d, registry));
            && image.Keys == LoadedObjects(d, registry).Keys
            && forall h :: h in image ==> h in d.objects && image[h] == d.objects[h]
  {
    var loaded := LoadedObjects(d, registry);
    forall h | h in loaded ensures Persistable(loaded[h]) && ToStored(loaded[h]) == d.objects[h]
      && loaded[h].creatingSession.None? {
      StoreAfterRestore(d.objects[h]);
    }
  }

  lemma LoadedImageExact(d: StoredState, slotCount: nat)
    requires DiskOk(Some(d))
    ensures DiskImage(LoadedObjects(d, Register(EMPTY, slotCount))) == d.objects <==> SlotsCovered(Some(d), slotCount)
  {
    hide DiskImage, DiskOk, Register;
    var registry := Register(EMPTY, slotCount);
    var image := DiskImage(LoadedObjects(d, registry));
    FreshRegistry(slotCount);
    LoadedAreTokens(d, registry);
    forall h | h in d.objects ensures h in image <==> d.objects[h].slot < slotCount {
      assert d.objects[h].slot in registry.slots <==> d.objects[h].slot in Range(0, slotCount);
    }
    assert DiskObjects(Some(d)) == d.objects;
    if SlotsCovered(Some(d), slotCount) {
      assert forall h :: h in d.objects ==> h in image;
    }
  }

  lemma ExtendsImage(objects: ObjectMap, next: nat, objects': ObjectMap, sessions: SessionMap)
    requires Extends(objects, next, objects') && NoOrphans(objects, sessions)
    ensures DiskImage(objects') == DiskImage(objects) && NoOrphans(objects', sessions)
  {
  }

  /** After `C_Initialize` the disk is current exactly when every stored object's slot was registered. */
  lemma StartUpSoundExact(st: State, slotCount: nat)
    requires Inv(st) && !st.initialized && Fits(st, slotCount)
    ensures Sound(StartUp(st, slotCount)) <==> SlotsCovered(st.disk, slotCount)
    ensures NoOrphans(StartUp(st, slotCount).objects, map[])
  {
    hide DiskImage, StartUp, Inv, SlotsCovered, NoOrphans;
    BeforeProfilesFacts(st, slotCount);
    var r := BeforeProfiles(st, slotCount);
    StartUpFacts(st, slotCount);
    NoOrphansEmpty();
    SlotsCoveredEmpty(slotCount);
    if st.disk.Some? {
      LoadedImageExact(st.disk.value, slotCount);
      LoadedAreTokens(st.disk.value, Register(EMPTY, slotCount));
    }
    ExtendsImage(r.objects, r.nextHandle, StartUp(st, slotCount).objects, map[]);
  }

  lemma NoOrphansEmpty()
    ensures NoOrphans(map[], map[]) && DiskImage(map[]) == map[]
  {
  }

  lemma SlotsCoveredEmpty(slotCount: nat)
    ensures SlotsCovered(None, slotCount)
  {
  }

  lemma BeforeProfilesFacts(st: State, slotCount: nat)
    requires Inv(st) && !st.initialized && Fits(st, 0)
    ensures BeforeProfiles(st, slotCount).objects == StoredObjectsFor(st.disk, Register(EMPTY, slotCount))
    ensures BeforeProfiles(st, slotCount).nextHandle ==
            if st.disk.Some? then st.disk.value.nextHandle else st.nextHandle
    ensures DiskOk(st.disk)
  {
    BeforeProfilesShape(st, slotCount);
  }

  lemma StartUpFacts(st: State, slotCount: nat)
    requires Inv(st) && !st.initialized && Fits(st, slotCount)
    ensures var st' := StartUp(st, slotCount);
            && st'.initialized && st'.disk == st.disk && st'.sessions == map[]
            && Extends(BeforeProfiles(st, slotCount).objects, BeforeProfiles(st, slotCount).nextHandle, st'.objects)
  {
    StartKeepsInv(st, slotCount);
    BeforeProfilesShape(st, slotCount);
    BeforeProfilesOk(st, slotCount);
    FreshRegistry(slotCount);
    EnsureProfilesOk(BeforeProfiles(st, slotCount), Range(0, slotCount));
  }

  // ---- The remaining entry points ---------------------------------------------------------------------------

  lemma FrameSound(st: State, st': State)
    requires Sound(st) && st'.objects == st.objects && st'.disk == st.disk && st'.initialized == st.initialized
    requires forall h :: h in st.sessions ==> h in st'.sessions && st'.sessions[h].slot == st.sessions[h].slot
    ensures Sound(st')
  {
  }

  lemma SavedSound(st: State, st': State)
    requires Sound(st) && Inv(st') && st'.objects == st.objects && st'.sessions == st.sessions
    ensures Sound(Persist(st'))
  {
  }

  lemma InitPinGood(t: TokenData, slot: SlotId, pin: Bytes)
    requires TokenGood(t, slot)
    ensures TokenGood(InitPinSpec(t, pin).0, slot)
  {
  }

  lemma InitPinSound(st: State, h: SessionHandle, pin: Bytes)
    requires Inv(st) && Sound(st) && st.initialized
    ensures Sound(InitPinStep(st, h, pin).0)
  {
    hide Sound, TokenGood, TokenAt, Snapshot, Inv;
    if h in st.sessions {
      var slot := st.sessions[h].slot;
      SessionSlotRegistered(st, h);
      TokenAtGood(st, slot);
      InitPinGood(TokenAt(st.tokens, slot), slot, pin);
      var (t, rv) := InitPinSpec(TokenAt(st.tokens, slot), pin);
      PutTokenKeepsInv(st, slot, t);
      FrameSound(st, PutToken(st, slot, t));
      SavedSound(st, PutToken(st, slot, t));
    }
  }

  lemma PinChangedSound(st: State, h: SessionHandle, t: TokenData)
    requires Inv(st) && Sound(st) && st.initialized && h in st.sessions && TokenGood(t, st.sessions[h].slot)
    ensures var put := PutToken(st, st.sessions[h].slot, t);
            Sound(put) && Sound(ClearTicket(Persist(put), h))
  {
    hide Sound, TokenGood, Inv, Snapshot;
    var put := PutToken(st, st.sessions[h].slot, t);
    PutTokenKeepsInv(st, st.sessions[h].slot, t);
    FrameSound(st, put);
    SavedSound(st, put);
    FrameSound(Persist(put), ClearTicket(Persist(put), h));
  }

  lemma SetPinSound(st: State, h: SessionHandle, oldPin: Bytes, newPin: Bytes)
    requires Inv(st) && Sound(st) && st.initialized
    ensures Sound(SetPinStep(st, h, oldPin, newPin).0)
  {
    hide ChangePinSpec, Sound, TokenGood, Inv, Snapshot, TokenAt;
    if h in st.sessions {
      var slot := st.sessions[h].slot;
      var userType := if st.sessions[h].login == SoLoggedIn then CKU_SO else CKU_USER;
      SessionSlotRegistered(st, h);
      TokenAtGood(st, slot);
      ChangePinGood(TokenAt(st.tokens, slot), slot, userType, oldPin, newPin);
      PinChangedSound(st, h, ChangePinSpec(TokenAt(st.tokens, slot), userType, oldPin, newPin).0);
    }
  }

  lemma OpenSessionSound(st: State, slot: SlotId, flags: nat)
    requires Inv(st) && Sound(st) && st.initialized
    ensures Sound(OpenSessionStep(st, slot, flags).0)
  {
  }

  lemma LoginSound(st: State, h: SessionHandle, userType: nat, pin: Bytes, v3: bool)
    requires Inv(st) && Sound(st) && st.initialized
    ensures Sound(LoginStep(st, h, userType, pin, v3).0)
  {
    hide Sound, SlotLogin, VerifyPinSpec, HasReadOnly, Inv, TokenAt;
    FrameSound(st, LoginStep(st, h, userType, pin, v3).0);
  }

  lemma CreateObjectSound(st: State, h: SessionHandle, template: Template)
    requires Inv(st) && Sound(st) && st.initialized && Fits(st, 1)
    ensures Sound(CreateObjectStep(st, h, template).0)
  {
    hide Sound, Inv, AddObject, AttrTrue, BytesToUlong, CollectTemplate;
    if h in st.sessions && CKA_CLASS in CollectTemplate(template) {
      AddObjectSound(st, h, ImportedObject(st.nextHandle, st.sessions[h].slot, CollectTemplate(template)));
    }
  }

  lemma CopyObjectSound(st: State, h: SessionHandle, target: ObjectHandle, template: Template)
    requires Inv(st) && Sound(st) && st.initialized && Fits(st, 1)
    ensures Sound(CopyObjectStep(st, h, target, template).0)
  {
    hide Sound, Inv, AddObject, AttrTrue, OverridesAllowed, CollectTemplate;
    FrameSound(st, Draw(st));
    if h in st.sessions && ObjectOnSlot(st.objects, target, st.sessions[h].slot).Some? {
      AddObjectSound(st, h, CopyOf(st.objects[target], st.nextHandle, st.sessions[h].slot, CollectTemplate(template)));
    }
  }

  lemma GenerateKeySound(st: State, h: SessionHandle, mech: MechanismType, template: Template,
                         made: Result<(Bytes, Bytes)>)
    requires Inv(st) && Sound(st) && st.initialized && Fits(st, 1)
    ensures Sound(GenerateKeyStep(st, h, mech, template, made).0)
  {
    hide Sound, Inv, AddObject, AttrTrue, BytesToUlong, CollectTemplate, GeneratedSecretAttrs, SecurityDefaults;
    var attrs := CollectTemplate(template);
    if h in st.sessions && SecretKeyTypeOf(mech).Some? && SecretLength(mech, attrs).Ok? && made.Ok? {
      AddObjectSound(st, h,
                     GeneratedSecret(st.nextHandle, st.sessions[h].slot, mech, made.value.0,
                                     SecretLength(mech, attrs).value, made.value.1, attrs));
    }
  }

  lemma AddTwoSound(st: State, h: SessionHandle, a: KeyObject, b: KeyObject)
    requires Inv(st) && Sound(st) && st.initialized && Fits(st, 2) && h in st.sessions
    requires a.handle == st.nextHandle && b.handle == st.nextHandle + 1
    requires a.slot == b.slot == st.sessions[h].slot && a.creatingSession.None? && b.creatingSession.None?
    ensures AddObject(st, h, a).0.nextHandle == st.nextHandle + 1
    ensures Sound(AddObject(AddObject(st, h, a).0, h, b).0)
  {
    hide Sound, Inv, AddObject;
    SessionSlotRegistered(st, h);
    AddObjectKeepsInv(st, h, a);
    AddObjectSound(st, h, a);
    var st1 := AddObject(st, h, a).0;
    KeepsFits(st, st1, 1, 1);
    AddObjectSound(st1, h, b);
  }

  lemma GeneratePairSound(st: State, h: SessionHandle, mech: MechanismType, pubTemplate: Template,
                          privTemplate: Template,
                          pair: Result<GeneratedPair>)
    requires Inv(st) && Sound(st) && st.initialized && Fits(st, 2)
    ensures Sound(GeneratePairStep(st, h, mech, pubTemplate, privTemplate, pair).0)
  {
    hide Sound, Inv, AddObject, AttrTrue, CollectTemplate, PairAttrs, SecurityDefaults, PairSizeCheck;
    if h in st.sessions && pair.Ok? && PairTypes(mech).Some? {
      var slot := st.sessions[h].slot;
      AddTwoSound(st, h, PublicHalf(st.nextHandle, slot, mech, pair.value, CollectTemplate(pubTemplate)),
               PrivateHalf(st.nextHandle + 1, slot, mech, pair.value, CollectTemplate(privTemplate)));
    }
  }

  lemma AddAndBurnSound(st: State, h: SessionHandle, o: KeyObject)
    requires Inv(st) && Sound(st) && st.initialized && Fits(st, 1) && h in st.sessions
    requires o.handle == st.nextHandle && o.slot == st.sessions[h].slot && o.creatingSession.None?
    ensures h in AddObject(st, h, o).0.sessions
    ensures Sound(ClearTicket(AddObject(st, h, o).0, h))
  {
    hide Sound, Inv, AddObject;
    SessionSlotRegistered(st, h);
    AddObjectKeepsInv(st, h, o);
    AddObjectSound(st, h, o);
    FrameSound(AddObject(st, h, o).0, ClearTicket(AddObject(st, h, o).0, h));
  }

  lemma UnwrapKeySound(e: Engine, st: State, h: SessionHandle, mech: MechanismType, key: ObjectHandle, wrapped: Bytes,
                       template: Template)
    requires Inv(st) && Sound(st) && st.initialized && Fits(st, 1)
    ensures Sound(UnwrapKeyStep(e, st, h, mech, key, wrapped, template).0)
  {
    hide Sound, AttrTrue, CollectTemplate, UlongBytes, Inv, AddObject;
    if h in st.sessions && ObjectOnSlot(st.objects, key, st.sessions[h].slot).Some? {
      var r := e.keyUnwrap(st.objects[key].keyRef, wrapped);
      if r.Ok? {
        AddAndBurnSound(st, h,
                        UnwrappedObject(st.nextHandle, st.sessions[h].slot, mech, r.value, CollectTemplate(template)));
      }
    }
  }

  lemma DeriveKeySound(e: Engine, st: State, h: SessionHandle, mech: MechanismType, base: ObjectHandle,
                       params: Option<HkdfParams>, template: Template, unique: Result<Bytes>)
    requires Inv(st) && Sound(st) && st.initialized && Fits(st, 1)
    ensures Sound(DeriveKeyStep(e, st, h, mech, base, params, template, unique).0)
  {
    hide Sound, AttrTrue, CollectTemplate, UlongBytes, BytesToUlong, Inv, AddObject;
    if h in st.sessions && base in st.objects && params.Some? && HkdfHash(params.value.prf).Some? && unique.Ok? {
      var attrs := CollectTemplate(template);
      var len := if CKA_VALUE_LEN in attrs then BytesToUlong(attrs[CKA_VALUE_LEN]) else 32;
      var r := e.hkdf(HkdfHash(params.value.prf).value, st.objects[base].keyRef, params.value.salt, params.value.info,
                      len);
      if r.Ok? {
        AddAndBurnSound(st, h,
                        DerivedKey(st.objects[base], st.nextHandle, st.sessions[h].slot, mech, r.value, len,
                                   unique.value, attrs));
      }
    }
  }

  lemma OpSound(e: Engine, st: State, h: SessionHandle, op: SessionOp)
    requires Sound(st)
    ensures Sound(OpStep(e, st, h, op).0)
  {
    hide SessionStep, Sound;
    if h in st.sessions {
      SessionStepFrame(EnvOf(e, st, h), st.sessions[h], op);
    }
    FrameSound(st, OpStep(e, st, h, op).0);
  }

  lemma RunningStepSound(e: Engine, st: State, c: Call)
    requires Inv(st) && Sound(st) && st.initialized && Fits(st, Draws(c)) && Clean(st, c)
    requires !c.Initialize? && !c.Finalize? && !c.Crash?
    ensures Sound(RunningStep(e, st, c).0)
  {
    hide Inv, Sound, CleanTemplate;
    hide InitTokenStep, InitPinStep, SetPinStep, OpenSessionStep, CloseSessionStep, CloseAllStep, LoginStep, LogoutStep;
    hide CreateObjectStep, CopyObjectStep, DestroyObjectStep, GenerateKeyStep, GeneratePairStep;
    hide UnwrapKeyStep, DeriveKeyStep, OpStep;
    match c
    case InitToken(slot, pin, text) => InitTokenSound(st, slot, pin, text);
    case InitPIN(h, pin) => InitPinSound(st, h, pin);
    case SetPIN(h, oldPin, newPin) => SetPinSound(st, h, oldPin, newPin);
    case OpenSession(slot, flags) => OpenSessionSound(st, slot, flags);
    case CloseSession(h) => CloseSessionSound(st, h);
    case CloseAllSessions(slot) => CloseAllSound(st, slot);
    case Login(h, userType, pin) => LoginSound(st, h, userType, pin, false);
    case LoginUser(h, userType, pin) => LoginSound(st, h, userType, pin, true);
    case Logout(h) => LogoutSound(st, h);
    case CreateObject(h, template) => CreateObjectSound(st, h, template);
    case CopyObject(h, target, template) => CopyObjectSound(st, h, target, template);
    case DestroyObject(h, target) => DestroySound(st, h, target);
    case SetAttributeValue(h, target, template) =>
      if RwCheck(st, h) == CkrOk && target in st.objects {
        SetAttributeSoundExact(st, h, target, template);
      }
    case GenerateKey(h, mech, template, made) => GenerateKeySound(st, h, mech, template, made);
    case GenerateKeyPair(h, mech, pubT, privT, pair) => GeneratePairSound(st, h, mech, pubT, privT, pair);
    case UnwrapKey(h, mech, key, wrapped, template) => UnwrapKeySound(e, st, h, mech, key, wrapped, template);
    case DeriveKey(h, mech, base, params, template, unique) =>
      DeriveKeySound(e, st, h, mech, base, params, template, unique);
    case Op(h, op) => OpSound(e, st, h, op);
  }
}
