/**
 Which calls write the disk, and what they write of tokens and objects.
 */
module Saving {
  import opened Types
  import opened Objects
  import opened AttributePolicy
  import opened TemplateWrites
  import opened Backend
  import opened Sessions
  import opened SessionOperations
  import opened Tokens
  import opened Storage
  import opened Machine
  import opened Invariants

  predicate AsksForToken(template: Template) {
    AttrTrue(CollectTemplate(template), CKA_TOKEN)
  }

  /** Does the copy become a token object? */
  predicate CopiesToToken(st: State, target: ObjectHandle, template: Template) {
    var overrides := CollectTemplate(template);
    if CKA_TOKEN in overrides then IsTrue(overrides[CKA_TOKEN])
    else target in st.objects && IsTokenObject(st.objects[target])
  }

  /** A call that answered `rv` has saved: it succeeded, and it set a PIN or label or touched a token object. */
  predicate Saves(st: State, c: Call, rv: Rv) {
    && rv == CkrOk
    && match c
       case InitToken(_, _, _) => true
       case InitPIN(_, _) => true
       case SetPIN(_, _, _) => true
       case CreateObject(_, template) => AsksForToken(template)
       case CopyObject(_, target, template) => CopiesToToken(st, target, template)
       case DestroyObject(_, target) => target in st.objects && IsTokenObject(st.objects[target])
       case SetAttributeValue(_, target, template) =>
         target in st.objects && TokenValue(ValueBefore(st.objects[target].attrs, template, |template|, CKA_TOKEN))
       case GenerateKey(_, _, template, _) => AsksForToken(template)
       case GenerateKeyPair(_, _, pubTemplate, privTemplate, _) =>
         AsksForToken(pubTemplate) || AsksForToken(privTemplate)
       case UnwrapKey(_, _, _, _, template) => AsksForToken(template)
       case DeriveKey(_, _, _, _, template, _) => AsksForToken(template)
       case _ => false
  }

  /** The disk has the token of every registered slot as it is in memory, and nothing older. */
  predicate TokensSaved(st: State) {
    st.disk.Some? && st.disk.value.tokens == Snapshot(st).tokens && st.disk.value.legacyToken == None
  }

  /** The disk has the objects in memory that a save takes in, as they are, and no others. */
  predicate ObjectsSaved(st: State) {
    st.disk.Some? && st.disk.value.objects == Snapshot(st).objects
  }

  predicate Saved(st: State) {
    TokensSaved(st) && ObjectsSaved(st)
  }

  /** The second handle a call may draw names nothing stored, nor the object stored under the first. */
  predicate SecondIsFresh(st: State) {
    Bump(st.nextHandle) !in st.objects && Bump(st.nextHandle) != st.nextHandle
  }

  /** A saving call leaves tokens and objects saved, any other leaves the disk alone. */
  predicate SavesExactly(st: State, c: Call, r: (State, Out)) {
    if Saves(st, c, r.1.rv) then TokensSaved(r.0) && (SecondIsFresh(st) ==> ObjectsSaved(r.0))
    else r.0.disk == st.disk
  }

  lemma PersistSaves(st: State)
    ensures Saved(Persist(st))
  {
  }

  /** `AddObject` saves exactly token objects, and leaves tokens and registry alone. */
  lemma AddObjectSaves(st: State, h: SessionHandle, o: KeyObject)
    ensures var (st', out) := AddObject(st, h, o);
            && out.rv == CkrOk && st'.tokens == st.tokens && st'.registry == st.registry && st'.sessions == st.sessions
            && st'.nextHandle == Bump(st.nextHandle)
            && (if IsTokenObject(o) then Saved(st')
                else st'.disk == st.disk && st'.objects == st.objects[o.handle := o.(creatingSession := Some(h))])
  {
  }

  lemma TokenKindOfNew(handle: ObjectHandle, slot: SlotId, keyType: KeyType, keyRef: Bytes, attrs: Attributes)
    ensures IsTokenObject(NewKeyObject(handle, slot, keyType, keyRef, attrs)) == AttrTrue(attrs, CKA_TOKEN)
  {
  }

  lemma CreateSaves(st: State, h: SessionHandle, template: Template)
    ensures SavesExactly(st, CreateObject(h, template), CreateObjectStep(st, h, template))
  {
    hide AddObject, TokensSaved, ObjectsSaved, CollectTemplate, BytesToUlong, IsTokenObject;
    var attrs := CollectTemplate(template);
    if h in st.sessions && CKA_CLASS in attrs {
      var o := ImportedObject(st.nextHandle, st.sessions[h].slot, attrs);
      AddObjectSaves(st, h, o);
      TokenKindOfNew(o.handle, o.slot, o.keyType, o.keyRef, attrs);
    }
  }

  lemma CopySaves(st: State, h: SessionHandle, target: ObjectHandle, template: Template)
    ensures SavesExactly(st, CopyObject(h, target, template), CopyObjectStep(st, h, target, template))
  {
    hide AddObject, TokensSaved, ObjectsSaved, CollectTemplate, OverridesAllowed;
    if h in st.sessions && ObjectOnSlot(st.objects, target, st.sessions[h].slot).Some? {
      AddObjectSaves(st, h, CopyOf(st.objects[target], st.nextHandle, st.sessions[h].slot, CollectTemplate(template)));
    }
  }

  lemma DestroySaves(st: State, h: SessionHandle, target: ObjectHandle)
    ensures SavesExactly(st, DestroyObject(h, target), DestroyObjectStep(st, h, target))
  {
    hide IsTokenObject, IsPrivateObject, TokensSaved, ObjectsSaved, Persist;
    if target in st.objects {
      PersistSaves(st.(objects := Without(st.objects, {target})));
    }
  }

  lemma SetAttributeSaves(st: State, h: SessionHandle, target: ObjectHandle, template: Template)
    ensures SavesExactly(st, SetAttributeValue(h, target, template), SetAttributeStep(st, h, target, template))
  {
    hide ApplyTemplate, FirstRefused, ValueBefore, TokenValue, TokensSaved, ObjectsSaved, Persist, IsTokenObject;
    if target in st.objects {
      var o := st.objects[target];
      ApplyTemplateExact(o, template);
      KindAfter(o, template);
      PersistSaves(st.(objects := st.objects[target := ApplyTemplate(o, template).0]));
    }
  }

  lemma GenerateSaves(st: State, h: SessionHandle, mech: MechanismType, template: Template,
                      made: Result<(Bytes, Bytes)>)
    ensures SavesExactly(st, GenerateKey(h, mech, template, made), GenerateKeyStep(st, h, mech, template, made))
  {
    hide AddObject, TokensSaved, ObjectsSaved, CollectTemplate, BytesToUlong, UlongBytes;
    var attrs := CollectTemplate(template);
    if h in st.sessions && SecretKeyTypeOf(mech).Some? && SecretLength(mech, attrs).Ok? && made.Ok? {
      AddObjectSaves(st, h, GeneratedSecret(st.nextHandle, st.sessions[h].slot, mech, made.value.0,
                                            SecretLength(mech, attrs).value, made.value.1, attrs));
    }
  }

  lemma PairKinds(handle: ObjectHandle, slot: SlotId, mech: MechanismType, p: GeneratedPair, attrs: Attributes)
    requires PairTypes(mech).Some?
    ensures IsTokenObject(PublicHalf(handle, slot, mech, p, attrs)) == AttrTrue(attrs, CKA_TOKEN)
    ensures IsTokenObject(PrivateHalf(handle, slot, mech, p, attrs)) == AttrTrue(attrs, CKA_TOKEN)
    ensures PublicHalf(handle, slot, mech, p, attrs).handle == handle
    ensures PrivateHalf(handle, slot, mech, p, attrs).handle == handle
  {
    hide UlongBytes;
  }

  lemma PairSaves(st: State, h: SessionHandle, mech: MechanismType, pubTemplate: Template, privTemplate: Template,
                  pair: Result<GeneratedPair>)
    ensures SavesExactly(st, GenerateKeyPair(h, mech, pubTemplate, privTemplate, pair),
                         GeneratePairStep(st, h, mech, pubTemplate, privTemplate, pair))
  {
    hide AddObject, TokensSaved, ObjectsSaved, CollectTemplate, PublicHalf, PrivateHalf, PairSizeCheck, IsTokenObject;
    hide AttrTrue;
    if h in st.sessions && pair.Ok? && PairTypes(mech).Some? {
      var slot, pubAttrs, privAttrs := st.sessions[h].slot, CollectTemplate(pubTemplate), CollectTemplate(privTemplate);
      var pub := PublicHalf(st.nextHandle, slot, mech, pair.value, pubAttrs);
      var st1 := AddObject(st, h, pub).0;
      var priv := PrivateHalf(st1.nextHandle, slot, mech, pair.value, privAttrs);
      AddObjectSaves(st, h, pub);
      AddObjectSaves(st1, h, priv);
      PairKinds(st.nextHandle, slot, mech, pair.value, pubAttrs);
      PairKinds(st1.nextHandle, slot, mech, pair.value, privAttrs);
      if !IsTokenObject(priv) && IsTokenObject(pub) {
        PublicStaysSaved(st, h, pub, priv);
      }
    }
  }

  /** What is saved stays saved while disk, tokens and registry stay. */
  lemma SavedCarriesOver(st: State, st': State)
    requires st'.tokens == st.tokens && st'.registry == st.registry && st'.disk == st.disk
    ensures TokensSaved(st') == TokensSaved(st)
    ensures st'.objects == st.objects ==> Saved(st') == Saved(st)
  {
  }

  lemma SessionObjectNotSaved(st: State, o: KeyObject, next: ObjectHandle)
    requires o.handle !in st.objects && !IsTokenObject(o)
    ensures Snapshot(st.(objects := st.objects[o.handle := o], nextHandle := next)).objects == Snapshot(st).objects
  {
  }

  /** A session object stored beside a token object that was just saved. */
  lemma PublicStaysSaved(st: State, h: SessionHandle, pub: KeyObject, priv: KeyObject)
    requires pub.handle == st.nextHandle && priv.handle == Bump(st.nextHandle)
    requires IsTokenObject(pub) && !IsTokenObject(priv)
    ensures var st' := AddObject(AddObject(st, h, pub).0, h, priv).0;
            TokensSaved(st') && (SecondIsFresh(st) ==> ObjectsSaved(st'))
  {
    hide Snapshot, IsTokenObject;
    var st1 := AddObject(st, h, pub).0;
    PersistSaves(Draw(st).(objects := st.objects[pub.handle := pub]));
    assert Saved(st1);
    SavedCarriesOver(st1, AddObject(st1, h, priv).0);
    if SecondIsFresh(st) {
      var tagged := priv.(creatingSession := Some(h));
      TaggedKind(priv, h);
      SessionObjectNotSaved(st1, tagged, Bump(st1.nextHandle));
    }
  }

  lemma TaggedKind(o: KeyObject, h: SessionHandle)
    ensures IsTokenObject(o.(creatingSession := Some(h))) == IsTokenObject(o)
  {
  }

  lemma UnwrapSaves(e: Engine, st: State, h: SessionHandle, mech: MechanismType, key: ObjectHandle, wrapped: Bytes,
                    template: Template)
    ensures SavesExactly(st, UnwrapKey(h, mech, key, wrapped, template),
                         UnwrapKeyStep(e, st, h, mech, key, wrapped, template))
  {
    hide AddObject, TokensSaved, ObjectsSaved, CollectTemplate, UnwrappedObject, AttrTrue, IsTokenObject;
    if h in st.sessions && ObjectOnSlot(st.objects, key, st.sessions[h].slot).Some? {
      var r := e.keyUnwrap(st.objects[key].keyRef, wrapped);
      if r.Ok? {
        var o := UnwrappedObject(st.nextHandle, st.sessions[h].slot, mech, r.value, CollectTemplate(template));
        AddObjectSaves(st, h, o);
        UnwrappedKind(st.nextHandle, st.sessions[h].slot, mech, r.value, CollectTemplate(template));
        SavedCarriesOver(AddObject(st, h, o).0, ClearTicket(AddObject(st, h, o).0, h));
      }
    }
  }

  lemma UnwrappedKind(handle: ObjectHandle, slot: SlotId, mech: MechanismType, bytes: Bytes, attrs: Attributes)
    ensures IsTokenObject(UnwrappedObject(handle, slot, mech, bytes, attrs)) == AttrTrue(attrs, CKA_TOKEN)
  {
    hide UlongBytes;
  }

  lemma DerivedKind(base: KeyObject, handle: ObjectHandle, slot: SlotId, mech: MechanismType, bytes: Bytes, len: nat,
                    unique: Bytes, attrs: Attributes)
    ensures IsTokenObject(DerivedKey(base, handle, slot, mech, bytes, len, unique, attrs)) == AttrTrue(attrs, CKA_TOKEN)
  {
    hide UlongBytes;
  }

  lemma DeriveSaves(e: Engine, st: State, h: SessionHandle, mech: MechanismType, base: ObjectHandle,
                    params: Option<HkdfParams>, template: Template, unique: Result<Bytes>)
    ensures SavesExactly(st, DeriveKey(h, mech, base, params, template, unique),
                         DeriveKeyStep(e, st, h, mech, base, params, template, unique))
  {
    hide AddObject, TokensSaved, ObjectsSaved, CollectTemplate, BytesToUlong, DerivedKey, AttrTrue, IsTokenObject;
    if h in st.sessions && base in st.objects && params.Some? && HkdfHash(params.value.prf).Some? && unique.Ok? {
      var attrs := CollectTemplate(template);
      var len := if CKA_VALUE_LEN in attrs then BytesToUlong(attrs[CKA_VALUE_LEN]) else 32;
      var r := e.hkdf(HkdfHash(params.value.prf).value, st.objects[base].keyRef, params.value.salt, params.value.info,
                      len);
      if r.Ok? {
        var o := DerivedKey(st.objects[base], st.nextHandle, st.sessions[h].slot, mech, r.value, len, unique.value,
                            attrs);
        AddObjectSaves(st, h, o);
        DerivedKind(st.objects[base], st.nextHandle, st.sessions[h].slot, mech, r.value, len, unique.value, attrs);
        SavedCarriesOver(AddObject(st, h, o).0, ClearTicket(AddObject(st, h, o).0, h));
      }
    }
  }

  lemma InitTokenSaves(st: State, slot: SlotId, pin: Bytes, text: Bytes)
    ensures SavesExactly(st, InitToken(slot, pin, text), InitTokenStep(st, slot, pin, text))
  {
    hide InitTokenSpec, HasSessions, HasProfile, ProfileObject, Without, Padded, TokenAt;
  }

  lemma PinCallsSave(st: State, h: SessionHandle, pin: Bytes, oldPin: Bytes, newPin: Bytes)
    ensures SavesExactly(st, InitPIN(h, pin), InitPinStep(st, h, pin))
    ensures SavesExactly(st, SetPIN(h, oldPin, newPin), SetPinStep(st, h, oldPin, newPin))
  {
    hide InitPinSpec, ChangePinSpec, TokenAt;
  }

  lemma OtherCallsDoNotSave(e: Engine, st: State, c: Call)
    requires c.OpenSession? || c.CloseSession? || c.CloseAllSessions? || c.Login? || c.LoginUser? || c.Logout? || c.Op?
    ensures RunningStep(e, st, c).0.disk == st.disk
  {
    hide VerifyPinSpec, OpenSpec, SlotLogin, SessionStep, ReleaseFinds, LoginAll, HasReadOnly, TokenAt, CloseAll;
    hide Without;
  }

  /** Every call saves exactly when it should, and a save takes in every registered token and every token object. */
  lemma SaveExact(e: Engine, st: State, c: Call)
    requires !c.Initialize? && !c.Finalize? && !c.Crash?
    ensures SavesExactly(st, c, RunningStep(e, st, c))
  {
    hide TokensSaved, ObjectsSaved, AsksForToken, CopiesToToken, ValueBefore;
    hide InitTokenStep, InitPinStep, SetPinStep, OpenSessionStep, CloseSessionStep, CloseAllStep, LoginStep, LogoutStep;
    hide CreateObjectStep, CopyObjectStep, DestroyObjectStep, SetAttributeStep, GenerateKeyStep, GeneratePairStep;
    hide UnwrapKeyStep, DeriveKeyStep, OpStep;
    match c
    case InitToken(slot, pin, text) => InitTokenSaves(st, slot, pin, text);
    case InitPIN(h, pin) => PinCallsSave(st, h, pin, [], []);
    case SetPIN(h, oldPin, newPin) => PinCallsSave(st, h, [], oldPin, newPin);
    case CreateObject(h, template) => CreateSaves(st, h, template);
    case CopyObject(h, target, template) => CopySaves(st, h, target, template);
    case DestroyObject(h, target) => DestroySaves(st, h, target);
    case SetAttributeValue(h, target, template) => SetAttributeSaves(st, h, target, template);
    case GenerateKey(h, mech, template, made) => GenerateSaves(st, h, mech, template, made);
    case GenerateKeyPair(h, mech, pubT, privT, pair) => PairSaves(st, h, mech, pubT, privT, pair);
    case UnwrapKey(h, mech, key, wrapped, template) => UnwrapSaves(e, st, h, mech, key, wrapped, template);
    case DeriveKey(h, mech, base, params, template, unique) =>
      DeriveSaves(e, st, h, mech, base, params, template, unique);
    case _ => OtherCallsDoNotSave(e, st, c);
  }

  // ---- The token a restart would find ----------------------------------------------------------------------

  /** The token start-up gives a slot over this disk: the stored one, else the default one. */
  function TokenOnDisk(disk: Option<StoredState>, slot: SlotId): TokenData {
    TokenAt(StoredTokensFor(disk), slot)
  }

  /** Once saved, the disk has a registered slot's token as it is; an unregistered slot's token is dropped. */
  lemma SavedToken(st: State, slot: SlotId)
    requires TokensSaved(st) && TokensOk(st.tokens, st.registry.slots.Keys)
    ensures TokenOnDisk(st.disk, slot) == if slot in st.registry.slots then TokenAt(st.tokens, slot)
            else DefaultToken(slot)
  {
    hide RestoreToken, DefaultToken, TokenGood;
    SnapshotTokens(st);
    SavedKeys(st);
  }

  lemma SavedKeys(st: State)
    ensures Snapshot(st).tokens.Keys == st.registry.slots.Keys
  {
  }
}
