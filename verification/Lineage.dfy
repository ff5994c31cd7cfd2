/**
 Where every object in the store comes from, and what that means for the history
 flags: when they tell the truth about the whole life of a key.
 */
module Lineage {
  import opened Types
  import opened Objects
  import opened AttributePolicy
  import opened Backend
  import opened Registry
  import opened Sessions
  import opened SessionOperations
  import opened Tokens
  import opened Machine
  import opened Invariants
  import opened Persistence

  // ---- The origin of every object -------------------------------------------------------------------------

  /** `o` is the copy that `C_CopyObject` makes of `src` under `template`. */
  predicate CopiedFrom(src: KeyObject, template: Template, o: KeyObject) {
    var overrides := CollectTemplate(template);
    && OverridesAllowed(src.attrs, overrides)
    && o.attrs == WithDefault(src.attrs + overrides, CKA_TOKEN, [CK_FALSE])
    && o.keyType == src.keyType && o.keyRef == src.keyRef
    && o.alwaysSensitive == src.alwaysSensitive && o.neverExtractable == src.neverExtractable
  }

  /** A derived key takes its flags from the base key and its attributes from the template. */
  predicate DerivedFrom(base: KeyObject, template: Template, o: KeyObject) {
    var attrs := CollectTemplate(template);
    && o.alwaysSensitive == base.alwaysSensitive && o.neverExtractable == base.neverExtractable
    && Lookup(o.attrs, CKA_SENSITIVE) == Lookup(attrs, CKA_SENSITIVE)
    && Lookup(o.attrs, CKA_EXTRACTABLE) == Lookup(attrs, CKA_EXTRACTABLE)
  }

  /** Every way an object can be in the store under handle `h` after a call; new handles come from the counter. */
  predicate ComesFrom(st: State, c: Call, h: ObjectHandle, o: KeyObject) {
    if h in st.objects then
      o == st.objects[h] || (c.SetAttributeValue? && c.target == h && o == ApplyTemplate(st.objects[h], c.template).0)
    else
      st.nextHandle <= h
      && match c
         case CopyObject(_, target, template) => target in st.objects && CopiedFrom(st.objects[target], template, o)
         case DeriveKey(_, _, base, _, template, _) => base in st.objects && DerivedFrom(st.objects[base], template, o)
         case _ => !c.SetAttributeValue? && FlagsTruthful(o)
  }

  predicate AllComeFrom(st: State, c: Call, objects': ObjectMap) {
    forall h :: h in objects' ==> ComesFrom(st, c, h, objects'[h])
  }

  lemma SubsetComesFrom(st: State, c: Call, objects': ObjectMap)
    requires forall h :: h in objects' ==> h in st.objects && objects'[h] == st.objects[h]
    ensures AllComeFrom(st, c, objects')
  {
  }

  lemma PutComesFrom(st: State, c: Call, objects': ObjectMap, h: ObjectHandle, o: KeyObject)
    requires forall k :: k in objects' && k != h ==> k in st.objects && objects'[k] == st.objects[k]
    requires h in objects' && objects'[h] == o && ComesFrom(st, c, h, o)
    ensures AllComeFrom(st, c, objects')
  {
  }

  /** The object as `AddObject` stores it. */
  function Tagged(o: KeyObject, session: SessionHandle): KeyObject {
    if IsTokenObject(o) then o else o.(creatingSession := Some(session))
  }

  lemma AddedObjects(st: State, h: SessionHandle, o: KeyObject)
    requires o.handle == st.nextHandle
    ensures AddObject(st, h, o).0.objects == st.objects[st.nextHandle := Tagged(o, h)]
    ensures AddObject(st, h, o).0.nextHandle == Bump(st.nextHandle)
  {
  }

  lemma AddComesFrom(st: State, c: Call, h: SessionHandle, o: KeyObject)
    requires o.handle == st.nextHandle && st.nextHandle !in st.objects
    requires ComesFrom(st, c, st.nextHandle, Tagged(o, h))
    ensures AllComeFrom(st, c, AddObject(st, h, o).0.objects)
  {
    hide AddObject, ComesFrom;
    AddedObjects(st, h, o);
    PutComesFrom(st, c, AddObject(st, h, o).0.objects, st.nextHandle, Tagged(o, h));
  }

  lemma GeneratedFlags(handle: ObjectHandle, slot: SlotId, mech: MechanismType, keyRef: Bytes, len: nat, unique: Bytes,
                       attrs: Attributes)
    requires SecretKeyTypeOf(mech).Some?
    ensures FlagsTruthful(GeneratedSecret(handle, slot, mech, keyRef, len, unique, attrs))
  {
    hide UlongBytes;
  }

  lemma PairFlags(handle: ObjectHandle, slot: SlotId, mech: MechanismType, p: GeneratedPair, attrs: Attributes)
    requires PairTypes(mech).Some?
    ensures FlagsTruthful(PublicHalf(handle, slot, mech, p, attrs))
            && FlagsTruthful(PrivateHalf(handle, slot, mech, p, attrs))
  {
    hide UlongBytes;
  }

  lemma DerivedFlags(base: KeyObject, handle: ObjectHandle, slot: SlotId, mech: MechanismType, bytes: Bytes, len: nat,
                     unique: Bytes, template: Template)
    ensures DerivedFrom(base, template,
                        DerivedKey(base, handle, slot, mech, bytes, len, unique, CollectTemplate(template)))
  {
    hide UlongBytes, CollectTemplate;
  }

  lemma CreateComesFrom(st: State, c: Call)
    requires c.CreateObject? && st.nextHandle !in st.objects
    ensures AllComeFrom(st, c, CreateObjectStep(st, c.h, c.template).0.objects)
  {
    hide AddObject, AllComeFrom, CollectTemplate, ImportedObject, BytesToUlong, FlagsTruthful;
    SubsetComesFrom(st, c, st.objects);
    var attrs := CollectTemplate(c.template);
    if c.h in st.sessions && CKA_CLASS in attrs {
      var o := ImportedObject(st.nextHandle, st.sessions[c.h].slot, attrs);
      ImportedShape(st.nextHandle, st.sessions[c.h].slot, attrs, c.h);
      AddComesFrom(st, c, c.h, o);
    }
  }

  lemma ImportedShape(handle: ObjectHandle, slot: SlotId, attrs: Attributes, session: SessionHandle)
    requires CKA_CLASS in attrs
    ensures ImportedObject(handle, slot, attrs).handle == handle
            && FlagsTruthful(Tagged(ImportedObject(handle, slot, attrs), session))
  {
  }

  lemma CopyComesFrom(st: State, c: Call)
    requires c.CopyObject? && st.nextHandle !in st.objects
    ensures AllComeFrom(st, c, CopyObjectStep(st, c.h, c.target, c.template).0.objects)
  {
    hide AddObject, AllComeFrom, CollectTemplate, OverridesAllowed;
    SubsetComesFrom(st, c, st.objects);
    if c.h in st.sessions && ObjectOnSlot(st.objects, c.target, st.sessions[c.h].slot).Some?
       && OverridesAllowed(st.objects[c.target].attrs, CollectTemplate(c.template)) {
      AddComesFrom(st, c, c.h,
                   CopyOf(st.objects[c.target], st.nextHandle, st.sessions[c.h].slot, CollectTemplate(c.template)));
    }
  }

  lemma GenerateComesFrom(st: State, c: Call)
    requires c.GenerateKey? && st.nextHandle !in st.objects
    ensures AllComeFrom(st, c, GenerateKeyStep(st, c.h, c.mech, c.template, c.made).0.objects)
  {
    hide AddObject, AllComeFrom, CollectTemplate, GeneratedSecretAttrs, SecurityDefaults, BytesToUlong;
    SubsetComesFrom(st, c, st.objects);
    var attrs := CollectTemplate(c.template);
    if c.h in st.sessions && SecretKeyTypeOf(c.mech).Some? && SecretLength(c.mech, attrs).Ok? && c.made.Ok? {
      var slot, len := st.sessions[c.h].slot, SecretLength(c.mech, attrs).value;
      GeneratedFlags(st.nextHandle, slot, c.mech, c.made.value.0, len, c.made.value.1, attrs);
      AddComesFrom(st, c, c.h,
                   GeneratedSecret(st.nextHandle, slot, c.mech, c.made.value.0, len, c.made.value.1, attrs));
    }
  }

  lemma PairComesFrom(st: State, c: Call)
    requires c.GenerateKeyPair? && st.nextHandle !in st.objects && Bump(st.nextHandle) !in st.objects
             && Bump(st.nextHandle) > st.nextHandle
    ensures AllComeFrom(st, c, GeneratePairStep(st, c.h, c.mech, c.pubTemplate, c.privTemplate, c.pair).0.objects)
  {
    hide AddObject, CollectTemplate, PairAttrs, SecurityDefaults, PairSizeCheck, AttrTrue, FlagsTruthful, ApplyTemplate;
    hide CopiedFrom, DerivedFrom;
    if c.h in st.sessions && c.pair.Ok? && PairTypes(c.mech).Some? {
      var slot := st.sessions[c.h].slot;
      var a := PublicHalf(st.nextHandle, slot, c.mech, c.pair.value, CollectTemplate(c.pubTemplate));
      var b := PrivateHalf(Bump(st.nextHandle), slot, c.mech, c.pair.value, CollectTemplate(c.privTemplate));
      AddedObjects(st, c.h, a);
      AddedObjects(AddObject(st, c.h, a).0, c.h, b);
      TaggedPair(st.nextHandle, slot, c.mech, c.pair.value, CollectTemplate(c.pubTemplate), c.h);
      TaggedPair(Bump(st.nextHandle), slot, c.mech, c.pair.value, CollectTemplate(c.privTemplate), c.h);
    }
  }

  lemma TaggedPair(handle: ObjectHandle, slot: SlotId, mech: MechanismType, p: GeneratedPair, attrs: Attributes,
                   session: SessionHandle)
    requires PairTypes(mech).Some?
    ensures FlagsTruthful(Tagged(PublicHalf(handle, slot, mech, p, attrs), session))
    ensures FlagsTruthful(Tagged(PrivateHalf(handle, slot, mech, p, attrs), session))
  {
    hide PublicHalf, PrivateHalf;
    PairFlags(handle, slot, mech, p, attrs);
  }

  lemma UnwrapComesFrom(e: Engine, st: State, c: Call)
    requires c.UnwrapKey? && st.nextHandle !in st.objects
    ensures AllComeFrom(st, c, UnwrapKeyStep(e, st, c.h, c.mech, c.key, c.wrapped, c.template).0.objects)
  {
    hide AddObject, AllComeFrom, CollectTemplate, UlongBytes, AttrTrue;
    SubsetComesFrom(st, c, st.objects);
    if c.h in st.sessions && ObjectOnSlot(st.objects, c.key, st.sessions[c.h].slot).Some? {
      var r := e.keyUnwrap(st.objects[c.key].keyRef, c.wrapped);
      if r.Ok? {
        AddComesFrom(st, c, c.h,
                     UnwrappedObject(st.nextHandle, st.sessions[c.h].slot, c.mech, r.value,
                                     CollectTemplate(c.template)));
        AddedSessions(st, c.h,
                      UnwrappedObject(st.nextHandle, st.sessions[c.h].slot, c.mech, r.value,
                                      CollectTemplate(c.template)));
      }
    }
  }

  lemma AddedSessions(st: State, h: SessionHandle, o: KeyObject)
    ensures AddObject(st, h, o).0.sessions == st.sessions
  {
  }

  lemma DeriveComesFrom(e: Engine, st: State, c: Call)
    requires c.DeriveKey? && st.nextHandle !in st.objects
    ensures AllComeFrom(st, c, DeriveKeyStep(e, st, c.h, c.mech, c.base, c.params, c.template, c.unique).0.objects)
  {
    hide AddObject, AllComeFrom, CollectTemplate, AttrTrue, BytesToUlong, DerivedKey;
    SubsetComesFrom(st, c, st.objects);
    if c.h in st.sessions && c.base in st.objects && c.params.Some? && HkdfHash(c.params.value.prf).Some?
      && c.unique.Ok? {
      var attrs := CollectTemplate(c.template);
      var len := if CKA_VALUE_LEN in attrs then BytesToUlong(attrs[CKA_VALUE_LEN]) else 32;
      var base := st.objects[c.base];
      var r := e.hkdf(HkdfHash(c.params.value.prf).value, base.keyRef, c.params.value.salt, c.params.value.info, len);
      if r.Ok? {
        var o := DerivedKey(base, st.nextHandle, st.sessions[c.h].slot, c.mech, r.value, len, c.unique.value, attrs);
        DerivedFlags(base, st.nextHandle, st.sessions[c.h].slot, c.mech, r.value, len, c.unique.value, c.template);
        DerivedHandle(base, st.nextHandle, st.sessions[c.h].slot, c.mech, r.value, len, c.unique.value, attrs);
        AddComesFrom(st, c, c.h, o);
        AddedSessions(st, c.h, o);
      }
    }
  }

  lemma DerivedHandle(base: KeyObject, handle: ObjectHandle, slot: SlotId, mech: MechanismType, bytes: Bytes, len: nat,
                      unique: Bytes, attrs: Attributes)
    ensures DerivedKey(base, handle, slot, mech, bytes, len, unique, attrs).handle == handle
  {
  }

  lemma InitTokenComesFrom(st: State, c: Call)
    requires c.InitToken? && st.nextHandle !in st.objects
    ensures AllComeFrom(st, c, InitTokenStep(st, c.slot, c.pin, c.text).0.objects)
  {
    hide InitTokenSpec, Snapshot, HasProfile, HasSessions, ProfileObject;
    ProfileFlags(st.nextHandle, c.slot);
  }

  lemma ProfileFlags(handle: ObjectHandle, slot: SlotId)
    ensures FlagsTruthful(ProfileObject(handle, slot))
  {
  }

  lemma SetAttributeComesFrom(st: State, c: Call)
    requires c.SetAttributeValue?
    ensures AllComeFrom(st, c, SetAttributeStep(st, c.h, c.target, c.template).0.objects)
  {
    hide Snapshot, ApplyTemplate;
  }

  lemma DestroyComesFrom(st: State, c: Call)
    requires c.DestroyObject?
    ensures AllComeFrom(st, c, DestroyObjectStep(st, c.h, c.target).0.objects)
  {
    hide Snapshot;
  }

  lemma OtherComesFrom(e: Engine, st: State, c: Call)
    requires c.InitPIN? || c.SetPIN? || c.OpenSession? || c.CloseSession? || c.CloseAllSessions? || c.Login?
             || c.LoginUser? || c.Logout? || c.Op?
    ensures AllComeFrom(st, c, RunningStep(e, st, c).0.objects)
  {
    hide Snapshot, ChangePinSpec, InitPinSpec, VerifyPinSpec, OpenSpec, SlotLogin, SessionStep, AllComeFrom;
    hide ReleaseFinds, LoginAll, HasReadOnly;
    hide TokenAt, PrivateOpActive, Verifies, CloseAll, IsSessionObject, IsPrivateObject;
    SubsetComesFrom(st, c, RunningStep(e, st, c).0.objects);
  }

  /** After any call, every object was there before, was written by this call, or was created by it. */
  lemma ObjectsComeFrom(e: Engine, st: State, c: Call)
    requires Inv(st) && st.initialized && Fits(st, Draws(c))
    requires !c.Initialize? && !c.Finalize? && !c.Crash?
    ensures AllComeFrom(st, c, RunningStep(e, st, c).0.objects)
  {
    hide Inv, AllComeFrom;
    hide InitTokenStep, InitPinStep, SetPinStep, OpenSessionStep, CloseSessionStep, CloseAllStep, LoginStep, LogoutStep;
    hide CreateObjectStep, CopyObjectStep, DestroyObjectStep, GenerateKeyStep, GeneratePairStep, SetAttributeStep;
    hide UnwrapKeyStep, DeriveKeyStep, OpStep;
    NextHandleIsFresh(st);
    match c
    case InitToken(_, _, _) => InitTokenComesFrom(st, c);
    case CreateObject(_, _) => CreateComesFrom(st, c);
    case CopyObject(_, _, _) => CopyComesFrom(st, c);
    case DestroyObject(_, _) => DestroyComesFrom(st, c);
    case SetAttributeValue(_, _, _) => SetAttributeComesFrom(st, c);
    case GenerateKey(_, _, _, _) => GenerateComesFrom(st, c);
    case GenerateKeyPair(_, _, _, _, _) => SecondHandleIsFresh(st); PairComesFrom(st, c);
    case UnwrapKey(_, _, _, _, _) => UnwrapComesFrom(e, st, c);
    case DeriveKey(_, _, _, _, _, _) => DeriveComesFrom(e, st, c);
    case _ => OtherComesFrom(e, st, c);
  }

  lemma SecondHandleIsFresh(st: State)
    requires Inv(st) && Fits(st, 2)
    ensures Bump(st.nextHandle) !in st.objects && Bump(st.nextHandle) > st.nextHandle
  {
  }

  // ---- The history flags ---------------------------------------------------------------------------------

  predicate WellFormedWrites(c: Call) {
    match c
    case SetAttributeValue(_, _, template) => WellFormedTemplate(template)
    case CopyObject(_, _, template) => WellFormedAttributes(CollectTemplate(template))
    case _ => true
  }

  /** A derived key's flags are truthful exactly when the template keeps what the base key's flags claim. */
  predicate DeriveSafe(base: KeyObject, attrs: Attributes) {
    && (base.alwaysSensitive ==> AttrTrue(attrs, CKA_SENSITIVE))
    && (base.neverExtractable ==> ExplicitlyUnextractable(attrs))
  }

  lemma DerivedFlagsExact(base: KeyObject, template: Template, o: KeyObject)
    requires DerivedFrom(base, template, o)
    ensures FlagsTruthful(o) <==> DeriveSafe(base, CollectTemplate(template))
  {
    hide CollectTemplate;
  }

  const DERIVABLE: Template := [TemplateEntry(CKA_DERIVE, Some([CK_TRUE]), 0)]

  lemma DerivableAttributes()
    ensures CollectTemplate(DERIVABLE) == map[CKA_DERIVE := [CK_TRUE]] && CollectTemplate([]) == map[]
  {
    assert DERIVABLE[..0] == [];
  }

  /** A generated key that may derive: locked both ways by default, with both flags up. */
  lemma DerivableBase(st: State, h: SessionHandle, keyRef: Bytes, unique: Bytes)
    requires Inv(st) && st.initialized && h in st.sessions
    ensures var (st1, out) := GenerateKeyStep(st, h, CKM_GENERIC_SECRET_KEY_GEN, DERIVABLE, Ok((keyRef, unique)));
            && out.rv == CkrOk && st1.sessions == st.sessions && st1.registry == st.registry
            && st1.nextHandle == Bump(st.nextHandle)
            && st.nextHandle in st1.objects
            && var base := st1.objects[st.nextHandle];
               && AttrTrue(base.attrs, CKA_DERIVE) && base.alwaysSensitive && base.neverExtractable
               && !base.alwaysAuthenticate && FlagsTruthful(base) && base.keyRef == keyRef
  {
    hide Snapshot, UlongBytes, Inv, CollectTemplate, BytesToUlong;
    DerivableAttributes();
  }

  /**
   A run of two accepted calls whose result lies: generate a key that may derive, with
   the defaults otherwise, then derive from it with an empty template.
   */
  lemma DerivedFlagsCanLie(e: Engine, st: State, h: SessionHandle, keyRef: Bytes, unique: Bytes, params: HkdfParams)
    requires Inv(st) && st.initialized && Fits(st, 2) && h in st.sessions && HkdfHash(params.prf).Some?
    requires e.hkdf(HkdfHash(params.prf).value, keyRef, params.salt, params.info, 32).Ok?
    ensures var (st1, out1) := GenerateKeyStep(st, h, CKM_GENERIC_SECRET_KEY_GEN, DERIVABLE, Ok((keyRef, unique)));
            var (st2, out2) := DeriveKeyStep(e, st1, h, CKM_HKDF_DERIVE, st.nextHandle, Some(params), [], Ok(unique));
            && out1.rv == CkrOk && out2.rv == CkrOk && out2.handles == [st.nextHandle + 1]
            && st.nextHandle + 1 in st2.objects && !FlagsTruthful(st2.objects[st.nextHandle + 1])
  {
    hide Snapshot, UlongBytes, Inv, CollectTemplate, GenerateKeyStep, HkdfHash, DerivedKey, FlagsTruthful;
    DerivableBase(st, h, keyRef, unique);
    DerivableAttributes();
    SessionSlotRegistered(st, h);
    var st1 := GenerateKeyStep(st, h, CKM_GENERIC_SECRET_KEY_GEN, DERIVABLE, Ok((keyRef, unique))).0;
    var bytes := e.hkdf(HkdfHash(params.prf).value, keyRef, params.salt, params.info, 32).value;
    var base := st1.objects[st.nextHandle];
    var slot := st.sessions[h].slot;
    var derived := DerivedKey(base, st1.nextHandle, slot, CKM_HKDF_DERIVE, bytes, 32, unique, map[]);
    DerivedFlags(base, st1.nextHandle, slot, CKM_HKDF_DERIVE, bytes, 32, unique, []);
    DerivedFlagsExact(base, [], Tagged(derived, h));
    DerivedHandle(base, st1.nextHandle, slot, CKM_HKDF_DERIVE, bytes, 32, unique, map[]);
    AddedObjects(st1, h, derived);
  }

  /** Objects whose flags came from an unsafe derivation, directly or through copies. */
  ghost function Doubt(e: Engine, st: State, c: Call, doubtful: set<ObjectHandle>): set<ObjectHandle> {
    var (st', out) := Step(e, st, c);
    var unsafe := || (c.DeriveKey? && c.base in st.objects
                      && !DeriveSafe(st.objects[c.base], CollectTemplate(c.template)))
                  || (c.CopyObject? && c.target in doubtful);
    (doubtful + if unsafe && out.rv == CkrOk then {st.nextHandle} else {}) * st'.objects.Keys
  }

  ghost function DoubtAfter(e: Engine, st: State, calls: seq<Call>, doubtful: set<ObjectHandle>): set<ObjectHandle> {
    if calls == [] then doubtful
    else Doubt(e, After(e, st, calls[..|calls| - 1]), calls[|calls| - 1],
               DoubtAfter(e, st, calls[..|calls| - 1], doubtful))
  }

  predicate TruthfulBut(objects: ObjectMap, doubtful: set<ObjectHandle>) {
    forall h :: h in objects && h !in doubtful ==> FlagsTruthful(objects[h])
  }

  lemma CopyStaysTruthful(src: KeyObject, template: Template, o: KeyObject)
    requires FlagsTruthful(src) && WellFormedAttributes(CollectTemplate(template)) && CopiedFrom(src, template, o)
    ensures FlagsTruthful(o)
  {
  }

  /** A new object appears only when the call reports success, under the next handle. */
  ghost predicate Reported(st: State, r: (State, Out)) {
    && (r.1.rv != CkrOk ==> r.0.objects == st.objects)
    && (forall h :: h in r.0.objects && h !in st.objects ==> h == st.nextHandle)
  }

  lemma CopyReported(st: State, h: SessionHandle, target: ObjectHandle, template: Template)
    ensures Reported(st, CopyObjectStep(st, h, target, template))
  {
    hide Snapshot, CollectTemplate, OverridesAllowed, AttrTrue;
  }

  lemma DeriveReported(e: Engine, st: State, h: SessionHandle, mech: MechanismType, base: ObjectHandle,
                       params: Option<HkdfParams>, template: Template, unique: Result<Bytes>)
    ensures Reported(st, DeriveKeyStep(e, st, h, mech, base, params, template, unique))
  {
    hide Snapshot, BytesToUlong, CollectTemplate, AttrTrue, UlongBytes;
  }

  lemma CreationReported(e: Engine, st: State, c: Call)
    requires c.CopyObject? || c.DeriveKey?
    ensures Reported(st, RunningStep(e, st, c))
  {
    hide CopyObjectStep, DeriveKeyStep, Reported;
    if c.CopyObject? {
      CopyReported(st, c.h, c.target, c.template);
    } else {
      DeriveReported(e, st, c.h, c.mech, c.base, c.params, c.template, c.unique);
    }
  }

  lemma RunningStepKeepsTruth(e: Engine, st: State, c: Call, doubtful: set<ObjectHandle>)
    requires Inv(st) && st.initialized && Fits(st, Draws(c)) && WellFormedWrites(c) && TruthfulBut(st.objects, doubtful)
    requires !c.Initialize? && !c.Finalize? && !c.Crash?
    ensures TruthfulBut(RunningStep(e, st, c).0.objects, Doubt(e, st, c, doubtful))
  {
    hide Inv, RunningStep, ApplyTemplate, CopiedFrom, FlagsTruthful, DerivedFrom, WellFormedTemplate;
    hide WellFormedAttributes, DeriveSafe;
    ObjectsComeFrom(e, st, c);
    var st' := RunningStep(e, st, c).0;
    forall h | h in st'.objects && h !in Doubt(e, st, c, doubtful) ensures FlagsTruthful(st'.objects[h]) {
      assert ComesFrom(st, c, h, st'.objects[h]);
      if h in st.objects {
        if c.SetAttributeValue? {
          ApplyTemplateKeepsFlags(st.objects[h], c.template);
        }
      } else if c.CopyObject? {
        CreationReported(e, st, c);
        CopyStaysTruthful(st.objects[c.target], c.template, st'.objects[h]);
      } else if c.DeriveKey? {
        CreationReported(e, st, c);
        DerivedFlagsExact(st.objects[c.base], c.template, st'.objects[h]);
      }
    }
  }

  lemma StartUpTruthful(st: State, slotCount: nat)
    requires Inv(st) && !st.initialized && Fits(st, slotCount)
    ensures TruthfulBut(StartUp(st, slotCount).objects, {})
  {
    hide StartUp, BeforeProfiles, Register, ProfileObject;
    StartUpFacts(st, slotCount);
    BeforeProfilesShape(st, slotCount);
    var st' := StartUp(st, slotCount);
    forall h | h in st'.objects ensures FlagsTruthful(st'.objects[h]) {
      ProfileFlags(h, st'.objects[h].slot);
    }
  }

  lemma StepKeepsTruth(e: Engine, st: State, c: Call, doubtful: set<ObjectHandle>)
    requires Inv(st) && Fits(st, Draws(c)) && WellFormedWrites(c) && TruthfulBut(st.objects, doubtful)
    ensures TruthfulBut(Step(e, st, c).0.objects, Doubt(e, st, c, doubtful))
  {
    hide Inv, RunningStep, StartUp, Snapshot, FlagsTruthful, WellFormedWrites;
    if c.Initialize? && InitArgsCheck(c.args) == CkrOk && !st.initialized {
      StartUpTruthful(st, c.slotCount);
    } else if !c.Initialize? && !c.Finalize? && !c.Crash? && st.initialized {
      RunningStepKeepsTruth(e, st, c, doubtful);
    }
  }

  ghost predicate WellFormedRun(calls: seq<Call>) {
    forall i :: 0 <= i < |calls| ==> WellFormedWrites(calls[i])
  }

  /** In every reachable state every flag is backed by its attribute, doubtful derivations aside. */
  lemma {:induction false} RunKeepsTruth(e: Engine, st: State, calls: seq<Call>, doubtful: set<ObjectHandle>)
    requires Inv(st) && Fits(st, TotalDraws(calls)) && WellFormedRun(calls) && TruthfulBut(st.objects, doubtful)
    ensures TruthfulBut(After(e, st, calls).objects, DoubtAfter(e, st, calls, doubtful))
  {
    hide Inv, Step, TruthfulBut, Doubt, WellFormedWrites;
    if calls != [] {
      var before := calls[..|calls| - 1];
      RunKeepsTruth(e, st, before, doubtful);
      ReachKeepsInv(e, st, before, Draws(calls[|calls| - 1]));
      StepKeepsTruth(e, After(e, st, before), calls[|calls| - 1], DoubtAfter(e, st, before, doubtful));
    }
  }

  /** An object present before and after a step is the same object, as it was or as this call wrote it. */
  lemma SameObject(e: Engine, st: State, c: Call, h: ObjectHandle)
    requires Inv(st) && Fits(st, Draws(c)) && h in st.objects && h in Step(e, st, c).0.objects
    ensures var o' := Step(e, st, c).0.objects[h];
            o' == st.objects[h] || (c.SetAttributeValue? && o' == ApplyTemplate(st.objects[h], c.template).0)
  {
    hide RunningStep, StartUp, Snapshot, ApplyTemplate;
    if !c.Initialize? && !c.Finalize? && !c.Crash? && st.initialized {
      ObjectsComeFrom(e, st, c);
      assert ComesFrom(st, c, h, RunningStep(e, st, c).0.objects[h]);
    }
  }

  ghost predicate PresentSince(e: Engine, st: State, calls: seq<Call>, k: nat, h: ObjectHandle) {
    forall j :: k <= j <= |calls| ==> h in After(e, st, calls[..j]).objects
  }

  /**
   As long as an object is there, no call changes its key, its key type, its slot or an
   immutable attribute, whatever the templates say.
   */
  lemma {:induction false} ImmutableSinceCreation(e: Engine, st: State, calls: seq<Call>, k: nat, h: ObjectHandle)
    requires Inv(st) && Fits(st, TotalDraws(calls)) && k <= |calls| && PresentSince(e, st, calls, k, h)
    ensures h in After(e, st, calls).objects && h in After(e, st, calls[..k]).objects
    ensures var last, was := After(e, st, calls).objects[h], After(e, st, calls[..k]).objects[h];
            SameIdentity(was, last) && forall t :: Immutable(t) ==> Lookup(last.attrs, t) == Lookup(was.attrs, t)
    decreases |calls|
  {
    hide Inv, Step, ApplyTemplate, Immutable;
    assert calls[..|calls|] == calls;
    if k < |calls| {
      var before := calls[..|calls| - 1];
      var c := calls[|calls| - 1];
      assert forall j :: 0 <= j <= |before| ==> before[..j] == calls[..j];
      assert PresentSince(e, st, before, k, h);
      ImmutableSinceCreation(e, st, before, k, h);
      ReachKeepsInv(e, st, before, Draws(c));
      var mid := After(e, st, before);
      assert h in mid.objects;
      SameObject(e, mid, c, h);
      if c.SetAttributeValue? {
        ApplyTemplateKeepsIdentity(mid.objects[h], c.template);
      }
    }
  }

  /** While an object stays, well-formed calls can only lower its flags. */
  lemma FlagsOnlyFall(e: Engine, st: State, c: Call, h: ObjectHandle)
    requires Inv(st) && Fits(st, Draws(c)) && h in st.objects && h in Step(e, st, c).0.objects
    requires FlagsTruthful(st.objects[h]) && WellFormedWrites(c)
    ensures var o' := Step(e, st, c).0.objects[h];
            (o'.alwaysSensitive ==> st.objects[h].alwaysSensitive)
              && (o'.neverExtractable ==> st.objects[h].neverExtractable)
  {
    hide Inv, Step, ApplyTemplate, FlagsTruthful, WellFormedTemplate, WellFormedAttributes;
    SameObject(e, st, c, h);
    if c.SetAttributeValue? {
      ApplyTemplateKeepsFlags(st.objects[h], c.template);
    }
  }

  /**
   The history flags tell the truth: if an object that was never doubtful ends a run
   with `CKA_ALWAYS_SENSITIVE` it was sensitive in every state since it was created,
   and with `CKA_NEVER_EXTRACTABLE` it was never extractable in any of them.
   */
  lemma {:induction false} FlagsTellTheTruth(e: Engine, st: State, calls: seq<Call>, doubtful: set<ObjectHandle>,
                                             k: nat, h: ObjectHandle)
    requires Inv(st) && Fits(st, TotalDraws(calls)) && WellFormedRun(calls) && TruthfulBut(st.objects, doubtful)
    requires k <= |calls| && PresentSince(e, st, calls, k, h) && h !in DoubtAfter(e, st, calls, doubtful)
    ensures h in After(e, st, calls).objects && h in After(e, st, calls[..k]).objects
    ensures var last, was := After(e, st, calls).objects[h], After(e, st, calls[..k]).objects[h];
            && (last.alwaysSensitive ==> was.alwaysSensitive && AttrTrue(was.attrs, CKA_SENSITIVE))
            && (last.neverExtractable ==> was.neverExtractable && !AttrTrue(was.attrs, CKA_EXTRACTABLE))
    decreases |calls|
  {
    hide Inv, Step, WellFormedWrites, Doubt;
    assert calls[..|calls|] == calls;
    RunKeepsTruth(e, st, calls, doubtful);
    if k < |calls| {
      var before := calls[..|calls| - 1];
      var c := calls[|calls| - 1];
      assert forall j :: 0 <= j <= |before| ==> before[..j] == calls[..j];
      assert PresentSince(e, st, before, k, h);
      StillUndoubted(e, After(e, st, before), c, DoubtAfter(e, st, before, doubtful), h);
      FlagsTellTheTruth(e, st, before, doubtful, k, h);
      RunKeepsTruth(e, st, before, doubtful);
      ReachKeepsInv(e, st, before, Draws(c));
      FlagsOnlyFall(e, After(e, st, before), c, h);
    }
  }

  lemma StillUndoubted(e: Engine, st: State, c: Call, doubtful: set<ObjectHandle>, h: ObjectHandle)
    requires h in Step(e, st, c).0.objects && h !in Doubt(e, st, c, doubtful)
    ensures h !in doubtful
  {
    hide Step;
  }
}
