/**
 What every entry point keeps, in every reachable state: handles are fresh and
 registered, login state is a fact about the slot, tokens obey the PIN automaton,
 and the disk image is well formed.
 */
module Invariants {
  import opened Types
  import opened Objects
  import opened AttributePolicy
  import opened Backend
  import opened Registry
  import opened Sessions
  import opened SessionOperations
  import opened Tokens
  import opened Storage
  import opened Machine

  // ---- The invariant, store by store ---------------------------------------------------------------

  /** Handles equal their keys, are nonzero, lie below the counter, and belong to a registered slot. */
  predicate SessionsOk(sessions: SessionMap, next: nat, slots: set<SlotId>) {
    forall h :: h in sessions ==> sessions[h].handle == h && 0 < h < next && sessions[h].slot in slots
  }

  predicate ObjectsOk(objects: ObjectMap, next: nat, slots: set<SlotId>) {
    forall h :: h in objects ==> objects[h].handle == h && 0 < h < next && objects[h].slot in slots
  }

  predicate TokenGood(t: TokenData, slot: SlotId) {
    TokenOk(t) && StorableToken(t, slot)
  }

  predicate TokensOk(tokens: map<SlotId, TokenData>, slots: set<SlotId>) {
    slots <= tokens.Keys && forall s :: s in tokens ==> TokenGood(tokens[s], s)
  }

  predicate StoredObjectsOk(objects: map<ObjectHandle, StoredObject>, next: nat) {
    forall h :: h in objects ==> objects[h].handle == h && 0 < h < next && AttrTrue(objects[h].attrs, CKA_TOKEN)
  }

  predicate StoredTokensOk(d: StoredState) {
    && (forall s :: s in d.tokens ==> TokenGood(RestoreToken(d.tokens[s], s), s))
    && (d.legacyToken.Some? ==> TokenGood(RestoreToken(d.legacyToken.value, 0), 0))
  }

  predicate DiskOk(disk: Option<StoredState>) {
    disk.Some? ==>
      && StoredObjectsOk(disk.value.objects, disk.value.nextHandle)
      && StoredTokensOk(disk.value)
      && disk.value.nextHandle > 0
  }

  predicate LoginOk(sessions: SessionMap) {
    Agreement(sessions) && SoImpliesRw(sessions)
  }

  predicate Empty(st: State) {
    st.registry == EMPTY && st.sessions == map[] && st.objects == map[] && st.tokens == map[]
  }

  function DiskNext(disk: Option<StoredState>): nat {
    if disk.Some? then disk.value.nextHandle else 0
  }

  ghost predicate Inv(st: State) {
    && WellLaidOut(st.registry)
    && (!st.initialized ==> Empty(st))
    && SessionsOk(st.sessions, st.nextSession, st.registry.slots.Keys)
    && LoginOk(st.sessions)
    && ObjectsOk(st.objects, st.nextHandle, st.registry.slots.Keys)
    && TokensOk(st.tokens, st.registry.slots.Keys)
    && DiskOk(st.disk)
    && st.nextHandle > 0 && st.nextSession > 0
    && (st.initialized ==> DiskNext(st.disk) <= st.nextHandle)
  }

  /** Room for `b` more draws from either counter before 64 bits run out. */
  predicate Fits(st: State, b: nat) {
    && st.nextHandle + b < TWO_64
    && DiskNext(st.disk) + b < TWO_64
    && st.nextSession + b < TWO_64
  }

  /** The next handle names no stored object, so storing under it overwrites nothing. */
  lemma NextHandleIsFresh(st: State)
    requires Inv(st)
    ensures st.nextHandle !in st.objects && st.nextSession !in st.sessions
  {
  }

  // ---- Primitives --------------------------------------------------------------------------------------

  lemma SnapshotObjects(st: State)
    requires ObjectsOk(st.objects, st.nextHandle, st.registry.slots.Keys)
    ensures Snapshot(st).objects == DiskImage(st.objects)
    ensures StoredObjectsOk(Snapshot(st).objects, st.nextHandle)
  {
  }

  lemma SnapshotTokens(st: State)
    requires TokensOk(st.tokens, st.registry.slots.Keys)
    ensures forall s :: s in st.registry.slots ==> RestoreToken(Snapshot(st).tokens[s], s) == st.tokens[s]
    ensures StoredTokensOk(Snapshot(st))
  {
    forall s | s in st.registry.slots ensures RestoreToken(Snapshot(st).tokens[s], s) == st.tokens[s] {
      TokenRoundTrip(st.tokens[s], s);
    }
  }

  lemma PersistKeepsInv(st: State)
    requires Inv(st) && st.initialized
    ensures Inv(Persist(st))
  {
  }

  lemma DrawKeepsInv(st: State)
    requires Inv(st) && st.initialized && st.nextHandle + 1 < TWO_64
    ensures Inv(Draw(st)) && Draw(st).nextHandle == st.nextHandle + 1
  {
  }

  lemma InsertKeepsInv(st: State, o: KeyObject)
    requires Inv(st) && st.initialized && st.nextHandle + 1 < TWO_64
    requires o.handle == st.nextHandle && o.slot in st.registry.slots
    ensures Inv(Draw(st).(objects := st.objects[o.handle := o]))
  {
  }

  lemma AddObjectKeepsInv(st: State, h: SessionHandle, o: KeyObject)
    requires Inv(st) && st.initialized && st.nextHandle + 1 < TWO_64
    requires o.handle == st.nextHandle && o.slot in st.registry.slots
    ensures var st' := AddObject(st, h, o).0;
            Inv(st') && st'.nextHandle == st.nextHandle + 1 && st'.sessions == st.sessions
              && st'.registry == st.registry
            && st'.initialized && st'.nextSession == st.nextSession
  {
    var st1 := Draw(st).(objects := st.objects[o.handle := o]);
    InsertKeepsInv(st, o);
    if IsTokenObject(o) {
      PersistKeepsInv(st1);
    } else {
      InsertKeepsInv(st, o.(creatingSession := Some(h)));
    }
  }

  lemma WithoutKeepsInv(st: State, gone: set<ObjectHandle>)
    requires Inv(st)
    ensures Inv(st.(objects := Without(st.objects, gone)))
  {
  }

  lemma PutTokenKeepsInv(st: State, slot: SlotId, t: TokenData)
    requires Inv(st) && st.initialized && TokenGood(t, slot)
    ensures Inv(PutToken(st, slot, t))
  {
  }

  lemma TokenAtGood(st: State, slot: SlotId)
    requires Inv(st) && slot in st.registry.slots
    ensures TokenGood(TokenAt(st.tokens, slot), slot)
  {
  }

  lemma SessionSlotRegistered(st: State, h: SessionHandle)
    requires Inv(st) && h in st.sessions
    ensures st.sessions[h].slot in st.registry.slots
  {
  }

  lemma ClearTicketKeepsInv(st: State, h: SessionHandle)
    requires Inv(st) && h in st.sessions
    ensures Inv(ClearTicket(st, h))
  {
    UpdateSessionKeepsInv(st, h, st.sessions[h].(ticket := false));
  }

  /** Replacing one session by one with the same identity, flags and login state. */
  lemma UpdateSessionKeepsInv(st: State, h: SessionHandle, s: Session)
    requires Inv(st) && h in st.sessions
    requires var s0 := st.sessions[h];
             && s.handle == s0.handle
             && s.slot == s0.slot
             && s.flags == s0.flags
             && s.login == s0.login
    ensures Inv(st.(sessions := st.sessions[h := s]))
  {
  }

  lemma EnsureProfileKeepsInv(st: State, slot: SlotId)
    requires Inv(st) && st.initialized && st.nextHandle + 1 < TWO_64 && slot in st.registry.slots
    ensures Inv(EnsureProfile(st, slot)) && EnsureProfile(st, slot).nextHandle <= st.nextHandle + 1
    ensures EnsureProfile(st, slot).initialized
  {
    hide Inv, HasProfile, UlongBytes;
    if !HasProfile(st.objects, slot) {
      InsertKeepsInv(st, ProfileObject(st.nextHandle, slot));
    }
  }

  // ---- Lifecycle ---------------------------------------------------------------------------------------

  /** Profiles are added under fresh handles; everything already stored stays as it is. */
  ghost predicate Extends(objects: ObjectMap, next: nat, objects': ObjectMap) {
    && (forall h :: h in objects ==> h in objects' && objects'[h] == objects[h])
    && (forall h :: h in objects' && h !in objects ==> next <= h && objects'[h] == ProfileObject(h, objects'[h].slot))
  }

  lemma ProfileExtends(objects: ObjectMap, next: nat, mid: State, slot: SlotId)
    requires Extends(objects, next, mid.objects) && next <= mid.nextHandle
    requires ObjectsOk(mid.objects, mid.nextHandle, mid.registry.slots.Keys) && slot in mid.registry.slots
    requires 0 < mid.nextHandle < TWO_64 - 1
    ensures var st' := EnsureProfile(mid, slot);
            && ObjectsOk(st'.objects, st'.nextHandle, mid.registry.slots.Keys)
            && Extends(objects, next, st'.objects)
            && mid.nextHandle <= st'.nextHandle <= mid.nextHandle + 1
  {
    hide ProfileObject, HasProfile;
    if !HasProfile(mid.objects, slot) {
      var o := ProfileObject(mid.nextHandle, slot);
      var objects' := mid.objects[mid.nextHandle := o];
      assert EnsureProfile(mid, slot).objects == objects';
      forall h | h in objects' && h !in objects ensures next <= h && objects'[h] == ProfileObject(h, objects'[h].slot) {
        if h == mid.nextHandle {
          assert objects'[h] == o;
        } else {
          assert h in mid.objects;
        }
      }
    }
  }

  lemma {:induction false} EnsureProfilesOk(st: State, ids: seq<SlotId>)
    requires ObjectsOk(st.objects, st.nextHandle, st.registry.slots.Keys)
    requires 0 < st.nextHandle && st.nextHandle + |ids| < TWO_64
    requires forall i :: 0 <= i < |ids| ==> ids[i] in st.registry.slots
    ensures var st' := EnsureProfiles(st, ids);
            && st' == st.(objects := st'.objects, nextHandle := st'.nextHandle)
            && ObjectsOk(st'.objects, st'.nextHandle, st.registry.slots.Keys)
            && Extends(st.objects, st.nextHandle, st'.objects)
            && st.nextHandle <= st'.nextHandle <= st.nextHandle + |ids|
  {
    if ids != [] {
      var before := ids[..|ids| - 1];
      EnsureProfilesOk(st, before);
      assert ids[|ids| - 1] in st.registry.slots;
      ProfileExtends(st.objects, st.nextHandle, EnsureProfiles(st, before), ids[|ids| - 1]);
    }
  }

  /** What a reload leaves: exactly the stored objects of registered slots, and the saved counter. */
  lemma LoadOk(d: StoredState, registry: RegistryData)
    requires DiskOk(Some(d)) && d.nextHandle < TWO_64
    ensures var objects := LoadedObjects(d, registry);
            && ObjectsOk(objects, d.nextHandle, registry.slots.Keys)
            && Max(d.nextHandle, Bump(MaxOf(objects.Keys))) == d.nextHandle
  {
  }

  lemma LoadedTokensOk(d: StoredState)
    requires DiskOk(Some(d))
    ensures forall s :: s in LoadedTokens(d, map[]) ==> TokenGood(LoadedTokens(d, map[])[s], s)
  {
  }

  lemma EnsureTokensOk(tokens: map<SlotId, TokenData>, ids: seq<SlotId>)
    requires forall s :: s in tokens ==> TokenGood(tokens[s], s)
    ensures TokensOk(EnsureTokens(tokens, ids), set i | i in ids)
  {
  }

  /** The state `C_Initialize` builds before it adds profiles. */
  ghost function BeforeProfiles(st: State, slotCount: nat): State {
    var ids := Range(st.registry.next, slotCount);
    var loaded := Load(st.(registry := Register(st.registry, slotCount)));
    loaded.(tokens := EnsureTokens(loaded.tokens, ids))
  }

  lemma FreshRegistry(slotCount: nat)
    ensures WellLaidOut(EMPTY) && WellLaidOut(Register(EMPTY, slotCount))
    ensures forall s :: s in Register(EMPTY, slotCount).slots <==> s in Range(0, slotCount)
  {
  }

  function StoredObjectsFor(disk: Option<StoredState>, registry: RegistryData): ObjectMap {
    if disk.Some? then LoadedObjects(disk.value, registry) else map[]
  }

  function StoredTokensFor(disk: Option<StoredState>): map<SlotId, TokenData> {
    if disk.Some? then LoadedTokens(disk.value, map[]) else map[]
  }

  lemma BeforeProfilesShape(st: State, slotCount: nat)
    requires Empty(st) && DiskOk(st.disk) && Fits(st, 0)
    ensures var r := BeforeProfiles(st, slotCount);
            r == st.(registry := Register(EMPTY, slotCount),
                     objects := StoredObjectsFor(st.disk, Register(EMPTY, slotCount)),
                     nextHandle := if st.disk.Some? then st.disk.value.nextHandle else st.nextHandle,
                     tokens := EnsureTokens(StoredTokensFor(st.disk), Range(0, slotCount)))
  {
    if st.disk.Some? {
      var registry := Register(EMPTY, slotCount);
      LoadOk(st.disk.value, registry);
      assert st.objects + LoadedObjects(st.disk.value, registry) == LoadedObjects(st.disk.value, registry);
    }
  }

  lemma BeforeProfilesOk(st: State, slotCount: nat)
    requires Inv(st) && !st.initialized && Fits(st, 0)
    ensures var r := BeforeProfiles(st, slotCount);
            && ObjectsOk(r.objects, r.nextHandle, r.registry.slots.Keys)
            && TokensOk(r.tokens, r.registry.slots.Keys)
  {
    BeforeProfilesShape(st, slotCount);
    FreshRegistry(slotCount);
    if st.disk.Some? {
      LoadOk(st.disk.value, Register(EMPTY, slotCount));
      LoadedTokensOk(st.disk.value);
    }
    EnsureTokensOk(StoredTokensFor(st.disk), Range(0, slotCount));
    assert Register(EMPTY, slotCount).slots.Keys == set i | i in Range(0, slotCount);
  }

  lemma StartKeepsInv(st: State, slotCount: nat)
    requires Inv(st) && !st.initialized && Fits(st, slotCount)
    ensures Inv(StartUp(st, slotCount)) && Fits(StartUp(st, slotCount), 0)
    ensures StartUp(st, slotCount).nextSession == st.nextSession && StartUp(st, slotCount).disk == st.disk
    ensures StartUp(st, slotCount).nextHandle <= BeforeProfiles(st, slotCount).nextHandle + slotCount
    ensures Extends(BeforeProfiles(st, slotCount).objects, BeforeProfiles(st, slotCount).nextHandle,
                    StartUp(st, slotCount).objects)
  {
    BeforeProfilesShape(st, slotCount);
    BeforeProfilesOk(st, slotCount);
    FreshRegistry(slotCount);
    EnsureProfilesOk(BeforeProfiles(st, slotCount), Range(0, slotCount));
  }

  lemma FinalizeKeepsInv(st: State)
    requires Inv(st) && st.initialized
    ensures Inv(Shutdown(st))
  {
    FreshRegistry(0);
    SnapshotObjects(st);
    SnapshotTokens(st);
    assert Snapshot(st.(sessions := map[])) == Snapshot(st);
  }

  // ---- One lemma per entry point ----------------------------------------------------------------------

  /** The step keeps the invariant and draws at most `n` handles from each counter. */
  ghost predicate Keeps(st: State, st': State, n: nat) {
    Inv(st') && st'.initialized && st'.nextHandle <= st.nextHandle + n && st'.nextSession <= st.nextSession + n
  }

  lemma InitTokenKeepsInv(st: State, slot: SlotId, pin: Bytes, text: Bytes)
    requires Inv(st) && st.initialized && Fits(st, 1)
    ensures Keeps(st, InitTokenStep(st, slot, pin, text).0, 1)
  {
    hide Inv, Snapshot, HasProfile, HasSessions, ProfileObject;
    if slot in st.registry.slots && !HasSessions(st.sessions, slot) {
      TokenAtGood(st, slot);
      assert |Padded(text, LABEL_LEN)| == LABEL_LEN;
      var (t, rv) := InitTokenSpec(TokenAt(st.tokens, slot), pin, Padded(text, LABEL_LEN));
      PutTokenKeepsInv(st, slot, t);
      if rv == CkrOk {
        var st1 := PutToken(st, slot, t);
        WithoutKeepsInv(st1, ObjectsOn(st.objects, slot));
        var st2 := st1.(objects := Without(st.objects, ObjectsOn(st.objects, slot)));
        PersistKeepsInv(st2);
        EnsureProfileKeepsInv(Persist(st2), slot);
        PersistKeepsInv(EnsureProfile(Persist(st2), slot));
      }
    }
  }

  lemma InitPinKeepsInv(st: State, h: SessionHandle, pin: Bytes)
    requires Inv(st) && st.initialized
    ensures Keeps(st, InitPinStep(st, h, pin).0, 0)
  {
    hide Inv, Snapshot;
    if h in st.sessions {
      var slot := st.sessions[h].slot;
      SessionSlotRegistered(st, h);
      TokenAtGood(st, slot);
      var (t, rv) := InitPinSpec(TokenAt(st.tokens, slot), pin);
      PutTokenKeepsInv(st, slot, t);
      PersistKeepsInv(PutToken(st, slot, t));
    }
  }

  lemma ChangePinGood(t: TokenData, slot: SlotId, userType: nat, oldPin: Bytes, newPin: Bytes)
    requires TokenGood(t, slot)
    ensures TokenGood(ChangePinSpec(t, userType, oldPin, newPin).0, slot)
  {
  }

  lemma SetPinKeepsInv(st: State, h: SessionHandle, oldPin: Bytes, newPin: Bytes)
    requires Inv(st) && st.initialized
    ensures Keeps(st, SetPinStep(st, h, oldPin, newPin).0, 0)
  {
    hide Inv, TokenGood, TokenAt, ChangePinSpec, Snapshot;
    if h in st.sessions {
      var slot := st.sessions[h].slot;
      SessionSlotRegistered(st, h);
      var userType := if st.sessions[h].login == SoLoggedIn then CKU_SO else CKU_USER;
      TokenAtGood(st, slot);
      ChangePinGood(TokenAt(st.tokens, slot), slot, userType, oldPin, newPin);
      PinChangedKeepsInv(st, h, ChangePinSpec(TokenAt(st.tokens, slot), userType, oldPin, newPin).0);
    }
  }

  lemma PinChangedKeepsInv(st: State, h: SessionHandle, t: TokenData)
    requires Inv(st) && st.initialized && h in st.sessions && TokenGood(t, st.sessions[h].slot)
    ensures Inv(PutToken(st, st.sessions[h].slot, t))
    ensures Inv(ClearTicket(Persist(PutToken(st, st.sessions[h].slot, t)), h))
  {
    PutTokenKeepsInv(st, st.sessions[h].slot, t);
    PersistKeepsInv(PutToken(st, st.sessions[h].slot, t));
    ClearTicketKeepsInv(Persist(PutToken(st, st.sessions[h].slot, t)), h);
  }

  lemma OpenSessionKeepsInv(st: State, slot: SlotId, flags: nat)
    requires Inv(st) && st.initialized && Fits(st, 1)
    ensures Keeps(st, OpenSessionStep(st, slot, flags).0, 1)
  {
    hide TokensOk, DiskOk, ObjectsOk, WellLaidOut, Agreement, SoImpliesRw, SlotLogin;
    OpenKeepsAgreement(st.sessions, st.nextSession, slot, flags);
  }

  lemma CloseSessionKeepsInv(st: State, h: SessionHandle)
    requires Inv(st) && st.initialized
    ensures Keeps(st, CloseSessionStep(st, h).0, 0)
  {
  }

  lemma CloseAllKeepsInv(st: State, slot: SlotId)
    requires Inv(st) && st.initialized
    ensures Keeps(st, CloseAllStep(st, slot).0, 0)
  {
  }

  lemma LoginAllKeepsSessions(sessions: SessionMap, next: nat, slots: set<SlotId>, slot: SlotId, login: LoginState)
    requires SessionsOk(sessions, next, slots)
    ensures SessionsOk(LoginAll(sessions, slot, login), next, slots)
  {
  }

  /** The successful end of a login: token updated, ticket perhaps cleared, the slot logged in. */
  lemma LoggedInKeepsInv(st: State, h: SessionHandle, t: TokenData, clearsTicket: bool, login: LoginState)
    requires Inv(st) && st.initialized && h in st.sessions && TokenGood(t, st.sessions[h].slot)
    requires login == SoLoggedIn ==> !HasReadOnly(st.sessions, st.sessions[h].slot)
    ensures Inv(PutToken(st, st.sessions[h].slot, t))
    ensures var slot := st.sessions[h].slot;
            var st1 := PutToken(st, slot, t);
            var st2 := if clearsTicket then ClearTicket(st1, h) else st1;
            Inv(st2.(sessions := LoginAll(st2.sessions, slot, login)))
  {
    var slot := st.sessions[h].slot;
    PutTokenKeepsInv(st, slot, t);
    var st1 := PutToken(st, slot, t);
    ClearTicketKeepsInv(st1, h);
    var st2 := if clearsTicket then ClearTicket(st1, h) else st1;
    ReadOnlyUnchanged(st1, h, slot);
    LoginAllExact(st2.sessions, slot, login);
    LoginAllKeepsSessions(st2.sessions, st2.nextSession, st2.registry.slots.Keys, slot, login);
  }

  lemma VerifiedTokenGood(st: State, h: SessionHandle, userType: nat, pin: Bytes)
    requires Inv(st) && h in st.sessions
    ensures TokenGood(VerifyPinSpec(TokenAt(st.tokens, st.sessions[h].slot), userType, pin).0, st.sessions[h].slot)
  {
  }

  lemma UserLoginKeepsInv(st: State, h: SessionHandle, userType: nat, pin: Bytes, clearsTicket: bool)
    requires Inv(st) && st.initialized && h in st.sessions
    ensures Keeps(st, UserLoginStep(st, h, userType, pin, clearsTicket).0, 0)
  {
    hide Inv, TokenGood, SomeOn, HasReadOnly, LoginAll, Verifies;
    var slot := st.sessions[h].slot;
    VerifiedTokenGood(st, h, userType, pin);
    var t := VerifyPinSpec(TokenAt(st.tokens, slot), userType, pin).0;
    if userType == CKU_SO {
      if !HasReadOnly(st.sessions, slot) {
        LoggedInKeepsInv(st, h, t, clearsTicket, SoLoggedIn);
      }
    } else {
      LoggedInKeepsInv(st, h, t, clearsTicket, UserLoggedIn);
    }
  }

  lemma ReadOnlyUnchanged(st: State, h: SessionHandle, slot: SlotId)
    requires h in st.sessions
    ensures HasReadOnly(ClearTicket(st, h).sessions, slot) == HasReadOnly(st.sessions, slot)
  {
    var after := ClearTicket(st, h).sessions;
    if HasReadOnly(st.sessions, slot) {
      var a :| a in st.sessions && st.sessions[a].slot == slot && !IsRw(st.sessions[a]);
      assert a in after && after[a].slot == slot && !IsRw(after[a]);
    }
    if HasReadOnly(after, slot) {
      var a :| a in after && after[a].slot == slot && !IsRw(after[a]);
      assert a in st.sessions && st.sessions[a].slot == slot && !IsRw(st.sessions[a]);
    }
  }

  lemma LoginKeepsInv(st: State, h: SessionHandle, userType: nat, pin: Bytes, v3: bool)
    requires Inv(st) && st.initialized
    ensures Keeps(st, LoginStep(st, h, userType, pin, v3).0, 0)
  {
    if h in st.sessions {
      if userType == CKU_CONTEXT_SPECIFIC {
        UpdateSessionKeepsInv(st, h, st.sessions[h].(ticket := true));
      } else {
        UserLoginKeepsInv(st, h, userType, pin, !v3);
      }
    }
  }

  lemma ReleaseFindsKeeps(sessions: SessionMap, next: nat, slots: set<SlotId>, slot: SlotId)
    requires SessionsOk(sessions, next, slots) && LoginOk(sessions)
    ensures SessionsOk(ReleaseFinds(sessions, slot), next, slots) && LoginOk(ReleaseFinds(sessions, slot))
  {
  }

  lemma LogoutKeepsInv(st: State, h: SessionHandle)
    requires Inv(st) && st.initialized
    ensures Keeps(st, LogoutStep(st, h).0, 0)
  {
    if h in st.sessions {
      var slot := st.sessions[h].slot;
      ReleaseFindsKeeps(st.sessions, st.nextSession, st.registry.slots.Keys, slot);
      LoginAllExact(ReleaseFinds(st.sessions, slot), slot, NotLoggedIn);
      LoginAllKeepsSessions(ReleaseFinds(st.sessions, slot), st.nextSession, st.registry.slots.Keys, slot, NotLoggedIn);
      WithoutKeepsInv(st, PrivateSessionObjectsOn(st.objects, slot));
    }
  }

  lemma CreateObjectKeepsInv(st: State, h: SessionHandle, template: Template)
    requires Inv(st) && st.initialized && Fits(st, 1)
    ensures Keeps(st, CreateObjectStep(st, h, template).0, 1)
  {
    hide Inv, AddObject, AttrTrue, BytesToUlong, CollectTemplate;
    if h in st.sessions && CKA_CLASS in CollectTemplate(template) {
      SessionSlotRegistered(st, h);
      AddObjectKeepsInv(st, h, ImportedObject(st.nextHandle, st.sessions[h].slot, CollectTemplate(template)));
    }
  }

  lemma CopyObjectKeepsInv(st: State, h: SessionHandle, target: ObjectHandle, template: Template)
    requires Inv(st) && st.initialized && Fits(st, 1)
    ensures Keeps(st, CopyObjectStep(st, h, target, template).0, 1)
  {
    hide OverridesAllowed, AttrTrue, CollectTemplate, Inv, AddObject;
    DrawKeepsInv(st);
    if h in st.sessions && ObjectOnSlot(st.objects, target, st.sessions[h].slot).Some? {
      SessionSlotRegistered(st, h);
      AddObjectKeepsInv(st, h,
                        CopyOf(st.objects[target], st.nextHandle, st.sessions[h].slot, CollectTemplate(template)));
    }
  }

  lemma DestroyObjectKeepsInv(st: State, h: SessionHandle, target: ObjectHandle)
    requires Inv(st) && st.initialized
    ensures Keeps(st, DestroyObjectStep(st, h, target).0, 0)
  {
    WithoutKeepsInv(st, {target});
    PersistKeepsInv(st.(objects := Without(st.objects, {target})));
  }

  lemma ReplaceObjectKeepsInv(st: State, target: ObjectHandle, o: KeyObject)
    requires Inv(st) && target in st.objects && o.handle == target && o.slot == st.objects[target].slot
    ensures Inv(st.(objects := st.objects[target := o]))
  {
  }

  lemma SetAttributeKeepsInv(st: State, h: SessionHandle, target: ObjectHandle, template: Template)
    requires Inv(st) && st.initialized
    ensures Keeps(st, SetAttributeStep(st, h, target, template).0, 0)
  {
    if target in st.objects {
      ApplyTemplateKeepsIdentity(st.objects[target], template);
      var o := ApplyTemplate(st.objects[target], template).0;
      ReplaceObjectKeepsInv(st, target, o);
      PersistKeepsInv(st.(objects := st.objects[target := o]));
    }
  }

  lemma GenerateKeyKeepsInv(st: State, h: SessionHandle, mech: MechanismType, template: Template,
                            made: Result<(Bytes, Bytes)>)
    requires Inv(st) && st.initialized && Fits(st, 1)
    ensures Keeps(st, GenerateKeyStep(st, h, mech, template, made).0, 1)
  {
    hide Inv, AddObject, AttrTrue, BytesToUlong, CollectTemplate, GeneratedSecretAttrs, SecurityDefaults;
    var attrs := CollectTemplate(template);
    if h in st.sessions && SecretKeyTypeOf(mech).Some? && SecretLength(mech, attrs).Ok? && made.Ok? {
      SessionSlotRegistered(st, h);
      AddObjectKeepsInv(st, h,
                        GeneratedSecret(st.nextHandle, st.sessions[h].slot, mech, made.value.0,
                                        SecretLength(mech, attrs).value, made.value.1, attrs));
    }
  }

  lemma AddTwoKeepsInv(st: State, h: SessionHandle, a: KeyObject, b: KeyObject)
    requires Inv(st) && st.initialized && Fits(st, 2)
    requires a.handle == st.nextHandle && b.handle == st.nextHandle + 1
    requires a.slot in st.registry.slots && b.slot in st.registry.slots
    ensures AddObject(st, h, a).0.nextHandle == st.nextHandle + 1
    ensures Keeps(st, AddObject(AddObject(st, h, a).0, h, b).0, 2)
  {
    AddObjectKeepsInv(st, h, a);
    AddObjectKeepsInv(AddObject(st, h, a).0, h, b);
  }

  lemma GeneratePairKeepsInv(st: State, h: SessionHandle, mech: MechanismType, pubTemplate: Template,
                             privTemplate: Template,
                             pair: Result<GeneratedPair>)
    requires Inv(st) && st.initialized && Fits(st, 2)
    ensures Keeps(st, GeneratePairStep(st, h, mech, pubTemplate, privTemplate, pair).0, 2)
  {
    hide AttrTrue, CollectTemplate, PairAttrs, SecurityDefaults, PairSizeCheck, Inv, AddObject;
    if h in st.sessions && pair.Ok? && PairTypes(mech).Some? {
      SessionSlotRegistered(st, h);
      var slot := st.sessions[h].slot;
      AddTwoKeepsInv(st, h, PublicHalf(st.nextHandle, slot, mech, pair.value, CollectTemplate(pubTemplate)),
               PrivateHalf(st.nextHandle + 1, slot, mech, pair.value, CollectTemplate(privTemplate)));
    }
  }

  /** A new object, then the ticket is burnt. */
  lemma AddAndBurnKeepsInv(st: State, h: SessionHandle, o: KeyObject)
    requires Inv(st) && st.initialized && Fits(st, 1) && h in st.sessions
    requires o.handle == st.nextHandle && o.slot == st.sessions[h].slot
    ensures h in AddObject(st, h, o).0.sessions
    ensures Keeps(st, ClearTicket(AddObject(st, h, o).0, h), 1)
  {
    SessionSlotRegistered(st, h);
    AddObjectKeepsInv(st, h, o);
    ClearTicketKeepsInv(AddObject(st, h, o).0, h);
  }

  lemma UnwrapKeyKeepsInv(e: Engine, st: State, h: SessionHandle, mech: MechanismType, key: ObjectHandle,
                          wrapped: Bytes, template: Template)
    requires Inv(st) && st.initialized && Fits(st, 1)
    ensures Keeps(st, UnwrapKeyStep(e, st, h, mech, key, wrapped, template).0, 1)
  {
    hide AttrTrue, CollectTemplate, UlongBytes, Inv, AddObject;
    if h in st.sessions && ObjectOnSlot(st.objects, key, st.sessions[h].slot).Some? {
      var r := e.keyUnwrap(st.objects[key].keyRef, wrapped);
      if r.Ok? {
        AddAndBurnKeepsInv(st, h,
                           UnwrappedObject(st.nextHandle, st.sessions[h].slot, mech, r.value,
                                           CollectTemplate(template)));
      }
    }
  }

  lemma DeriveKeyKeepsInv(e: Engine, st: State, h: SessionHandle, mech: MechanismType, base: ObjectHandle,
                          params: Option<HkdfParams>, template: Template, unique: Result<Bytes>)
    requires Inv(st) && st.initialized && Fits(st, 1)
    ensures Keeps(st, DeriveKeyStep(e, st, h, mech, base, params, template, unique).0, 1)
  {
    hide AttrTrue, CollectTemplate, UlongBytes, BytesToUlong, Inv, AddObject;
    if h in st.sessions && base in st.objects && params.Some? && HkdfHash(params.value.prf).Some? && unique.Ok? {
      var attrs := CollectTemplate(template);
      var len := if CKA_VALUE_LEN in attrs then BytesToUlong(attrs[CKA_VALUE_LEN]) else 32;
      var r := e.hkdf(HkdfHash(params.value.prf).value, st.objects[base].keyRef, params.value.salt, params.value.info,
                      len);
      if r.Ok? {
        AddAndBurnKeepsInv(st, h,
                           DerivedKey(st.objects[base], st.nextHandle, st.sessions[h].slot, mech, r.value, len,
                                      unique.value, attrs));
      }
    }
  }

  lemma OpKeepsInv(e: Engine, st: State, h: SessionHandle, op: SessionOp)
    requires Inv(st) && st.initialized
    ensures Keeps(st, OpStep(e, st, h, op).0, 0)
  {
    hide SessionStep;
    if h in st.sessions {
      SessionStepFrame(EnvOf(e, st, h), st.sessions[h], op);
      UpdateSessionKeepsInv(st, h, SessionStep(EnvOf(e, st, h), st.sessions[h], op).0);
    }
  }

  // ---- Whole runs -----------------------------------------------------------------------------------------

  lemma RunningStepKeepsInv(e: Engine, st: State, c: Call)
    requires Inv(st) && st.initialized && Fits(st, Draws(c))
    requires !c.Initialize? && !c.Finalize? && !c.Crash?
    ensures Keeps(st, RunningStep(e, st, c).0, Draws(c))
  {
    hide Inv;
    hide InitTokenStep, InitPinStep, SetPinStep, OpenSessionStep, CloseSessionStep, CloseAllStep, LoginStep, LogoutStep;
    hide CreateObjectStep, CopyObjectStep, DestroyObjectStep, SetAttributeStep, GenerateKeyStep, GeneratePairStep;
    hide UnwrapKeyStep, DeriveKeyStep, OpStep;
    match c
    case InitToken(slot, pin, text) => InitTokenKeepsInv(st, slot, pin, text);
    case InitPIN(h, pin) => InitPinKeepsInv(st, h, pin);
    case SetPIN(h, oldPin, newPin) => SetPinKeepsInv(st, h, oldPin, newPin);
    case OpenSession(slot, flags) => OpenSessionKeepsInv(st, slot, flags);
    case CloseSession(h) => CloseSessionKeepsInv(st, h);
    case CloseAllSessions(slot) => CloseAllKeepsInv(st, slot);
    case Login(h, userType, pin) => LoginKeepsInv(st, h, userType, pin, false);
    case LoginUser(h, userType, pin) => LoginKeepsInv(st, h, userType, pin, true);
    case Logout(h) => LogoutKeepsInv(st, h);
    case CreateObject(h, template) => CreateObjectKeepsInv(st, h, template);
    case CopyObject(h, target, template) => CopyObjectKeepsInv(st, h, target, template);
    case DestroyObject(h, target) => DestroyObjectKeepsInv(st, h, target);
    case SetAttributeValue(h, target, template) => SetAttributeKeepsInv(st, h, target, template);
    case GenerateKey(h, mech, template, made) => GenerateKeyKeepsInv(st, h, mech, template, made);
    case GenerateKeyPair(h, mech, pubT, privT, pair) => GeneratePairKeepsInv(st, h, mech, pubT, privT, pair);
    case UnwrapKey(h, mech, key, wrapped, template) => UnwrapKeyKeepsInv(e, st, h, mech, key, wrapped, template);
    case DeriveKey(h, mech, base, params, template, unique) =>
      DeriveKeyKeepsInv(e, st, h, mech, base, params, template, unique);
    case Op(h, op) => OpKeepsInv(e, st, h, op);
  }

  lemma BootKeepsInv(disk: Option<StoredState>)
    requires DiskOk(disk)
    ensures Inv(Boot(disk))
  {
  }

  lemma KeepsFits(st: State, st': State, n: nat, b: nat)
    requires Keeps(st, st', n) && Fits(st, b + n)
    ensures Fits(st', b)
  {
  }

  lemma InitializeKeepsInv(st: State, args: Option<InitArgs>, slotCount: nat, b: nat)
    requires Inv(st) && Fits(st, b + slotCount)
    ensures Inv(InitializeStep(st, args, slotCount).0) && Fits(InitializeStep(st, args, slotCount).0, b)
  {
    if InitArgsCheck(args) == CkrOk && !st.initialized {
      StartKeepsInv(st, slotCount);
      BeforeProfilesShape(st, slotCount);
      BeforeProfilesOk(st, slotCount);
    }
  }

  lemma FinalizeStepKeepsInv(st: State, reserved: bool, b: nat)
    requires Inv(st) && Fits(st, b)
    ensures Inv(FinalizeStep(st, reserved).0) && Fits(FinalizeStep(st, reserved).0, b)
  {
    if st.initialized {
      FinalizeKeepsInv(st);
    }
  }

  lemma BootStepKeepsInv(st: State, b: nat)
    requires Inv(st) && Fits(st, b)
    ensures Inv(Boot(st.disk)) && Fits(Boot(st.disk), b)
  {
  }

  /** Every step, the lifecycle and crashes included, keeps the invariant and stays within its draws. */
  lemma StepKeepsInv(e: Engine, st: State, c: Call, b: nat)
    requires Inv(st) && Fits(st, b + Draws(c))
    ensures Inv(Step(e, st, c).0) && Fits(Step(e, st, c).0, b)
  {
    hide RunningStep, InitializeStep, FinalizeStep, Inv, Boot;
    if c.Initialize? {
      InitializeKeepsInv(st, c.args, c.slotCount, b);
    } else if c.Finalize? {
      FinalizeStepKeepsInv(st, c.reserved, b);
    } else if c.Crash? {
      BootStepKeepsInv(st, b);
    } else if st.initialized {
      RunningStepKeepsInv(e, st, c);
      KeepsFits(st, RunningStep(e, st, c).0, Draws(c), b);
    }
  }

  /**
   In every state reachable from a process start over a well-formed disk, with fewer
   than 2^64 draws in all, the whole invariant holds: handles are fresh, also across
   crashes and restarts, login state is a slot-wide fact, the SO never meets a
   read-only session, and every token obeys the PIN automaton.
   */
  lemma {:induction false} RunKeepsInv(e: Engine, disk: Option<StoredState>, calls: seq<Call>, b: nat)
    requires DiskOk(disk) && Fits(Boot(disk), b + TotalDraws(calls))
    ensures Inv(After(e, Boot(disk), calls)) && Fits(After(e, Boot(disk), calls), b)
  {
    hide Inv, Step;
    if calls == [] {
      BootKeepsInv(disk);
    } else {
      var before := calls[..|calls| - 1];
      var c := calls[|calls| - 1];
      RunKeepsInv(e, disk, before, b + Draws(c));
      StepKeepsInv(e, After(e, Boot(disk), before), c, b);
    }
  }

  /**
   In every reachable state `C_GetSessionInfo` tells the truth: the state reported for a
   session agrees with its own flags, and with the login state of every session of its slot.
   */
  lemma ReportedStateAgrees(e: Engine, disk: Option<StoredState>, calls: seq<Call>, h: SessionHandle, k: SessionHandle)
    requires DiskOk(disk) && Fits(Boot(disk), TotalDraws(calls))
    requires h in After(e, Boot(disk), calls).sessions && k in After(e, Boot(disk), calls).sessions
    ensures var sessions := After(e, Boot(disk), calls).sessions;
            var reported := InfoState(sessions[h]);
            && (reported in {RwPublic, RwUser, RwSo} <==> IsRw(sessions[h]))
            && (sessions[k].slot == sessions[h].slot ==>
                  && (reported in {RoPublic, RwPublic} <==> sessions[k].login == NotLoggedIn)
                  && (reported in {RoUser, RwUser} <==> sessions[k].login == UserLoggedIn)
                  && (reported == RwSo <==> sessions[k].login == SoLoggedIn && IsRw(sessions[k])))
  {
    hide After;
    RunKeepsInv(e, disk, calls, 0);
    InfoAgreesWithFlags(After(e, Boot(disk), calls).sessions, h);
  }

  /** The invariant along a run from any state that has it. */
  lemma {:induction false} ReachKeepsInv(e: Engine, st: State, calls: seq<Call>, b: nat)
    requires Inv(st) && Fits(st, b + TotalDraws(calls))
    ensures Inv(After(e, st, calls)) && Fits(After(e, st, calls), b)
  {
    hide Inv, Step;
    if calls != [] {
      ReachKeepsInv(e, st, calls[..|calls| - 1], b + Draws(calls[|calls| - 1]));
      StepKeepsInv(e, After(e, st, calls[..|calls| - 1]), calls[|calls| - 1], b);
    }
  }
}
