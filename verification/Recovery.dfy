/**
 Crash consistency over whole runs, and what a restart brings back.
 */
module Recovery {
  import opened Types
  import opened Objects
  import opened AttributePolicy
  import opened TemplateWrites
  import opened Backend
  import opened Registry
  import opened Sessions
  import opened Tokens
  import opened Storage
  import opened Machine
  import opened Invariants
  import opened Persistence

  // ---- Every call boundary ------------------------------------------------------------------------------

  lemma OffSound(st: State)
    requires !st.initialized && st.objects == map[]
    ensures Sound(st)
  {
  }

  lemma InitializeSoundExact(st: State, args: Option<InitArgs>, slotCount: nat)
    requires Inv(st) && Sound(st) && Fits(st, slotCount)
    ensures Sound(InitializeStep(st, args, slotCount).0) <==> Clean(st, Initialize(args, slotCount))
  {
    hide Inv, Sound, StartUp, SlotsCovered;
    if InitArgsCheck(args) == CkrOk && !st.initialized {
      StartUpSoundExact(st, slotCount);
    }
  }

  lemma SetAttributeStepSoundExact(st: State, h: SessionHandle, target: ObjectHandle, template: Template)
    requires Inv(st) && Sound(st) && st.initialized
    ensures Sound(SetAttributeStep(st, h, target, template).0) <==> Clean(st, SetAttributeValue(h, target, template))
  {
    hide Inv, Sound, CleanTemplate, ApplyTemplate;
    if RwCheck(st, h) == CkrOk && target in st.objects {
      SetAttributeSoundExact(st, h, target, template);
    }
  }

  lemma RunningStepSoundExact(e: Engine, st: State, c: Call)
    requires Inv(st) && Sound(st) && st.initialized && Fits(st, Draws(c))
    requires !c.Initialize? && !c.Finalize? && !c.Crash?
    ensures Sound(RunningStep(e, st, c).0) <==> Clean(st, c)
  {
    hide *;
    if c.SetAttributeValue? {
      SetAttributeStepSoundExact(st, c.h, c.target, c.template);
      SetAttributeIsStep(e, st, c);
    } else {
      CleanOtherwise(st, c);
      RunningStepSound(e, st, c);
    }
  }

  lemma SetAttributeIsStep(e: Engine, st: State, c: Call)
    requires c.SetAttributeValue?
    ensures RunningStep(e, st, c) == SetAttributeStep(st, c.h, c.target, c.template)
  {
    hide SetAttributeStep;
  }

  lemma CleanOtherwise(st: State, c: Call)
    requires !c.SetAttributeValue? && !c.Initialize?
    ensures Clean(st, c)
  {
  }

  /**
   One step from a sound state ends in a sound state exactly when the call was clean:
   no other call, crash or shutdown included, can orphan a session object or leave
   the disk behind.
   */
  lemma StepSoundExact(e: Engine, st: State, c: Call)
    requires Inv(st) && Sound(st) && Fits(st, Draws(c))
    ensures Sound(Step(e, st, c).0) <==> Clean(st, c)
  {
    hide Inv, Sound, RunningStep, InitializeStep, Clean, Persist;
    if c.Initialize? {
      InitializeSoundExact(st, c.args, c.slotCount);
    } else if c.SetAttributeValue? && !st.initialized {
      CleanWhenOff(st, c);
    } else {
      if !c.SetAttributeValue? {
        CleanOtherwise(st, c);
      }
      if c.Finalize? {
        if st.initialized && !c.reserved {
          OffSound(Shutdown(st));
        }
      } else if c.Crash? {
        OffSound(Boot(st.disk));
      } else if st.initialized {
        RunningStepSoundExact(e, st, c);
      }
    }
  }

  lemma CleanWhenOff(st: State, c: Call)
    requires c.SetAttributeValue? && !st.initialized
    ensures Clean(st, c)
  {
  }

  ghost predicate CleanRun(e: Engine, st: State, calls: seq<Call>) {
    calls == [] || (CleanRun(e, st, calls[..|calls| - 1])
                    && Clean(After(e, st, calls[..|calls| - 1]), calls[|calls| - 1]))
  }

  /**
   Crash consistency: at every call boundary of every clean run from a process start,
   with crashes and restarts anywhere, the disk holds exactly the non-profile token
   objects in memory and every session object is owned by an open session of its slot.
   */
  lemma {:induction false} RunSound(e: Engine, disk: Option<StoredState>, calls: seq<Call>)
    requires DiskOk(disk) && Fits(Boot(disk), TotalDraws(calls)) && CleanRun(e, Boot(disk), calls)
    ensures Inv(After(e, Boot(disk), calls)) && Sound(After(e, Boot(disk), calls))
  {
    hide Inv, Step, Sound, Clean;
    RunKeepsInv(e, disk, calls, 0);
    if calls == [] {
      OffSound(Boot(disk));
    } else {
      var before := calls[..|calls| - 1];
      var c := calls[|calls| - 1];
      RunSound(e, disk, before);
      RunKeepsInv(e, disk, before, Draws(c));
      StepSoundExact(e, After(e, Boot(disk), before), c);
    }
  }

  // ---- Restart -------------------------------------------------------------------------------------------

  /** The restarted store: exactly the persisted objects as a reload leaves them, and one fresh profile per slot. */
  ghost predicate Restored(objects: ObjectMap, next: nat, objects': ObjectMap, slotCount: nat) {
    && (forall h :: h in objects && Persistable(objects[h]) ==> h in objects' && objects'[h] == Reloaded(objects[h]))
    && (forall h :: h in objects' && !(h in objects && Persistable(objects[h])) ==>
          next <= h && objects'[h] == ProfileObject(h, objects'[h].slot))
    && OneProfileEach(objects', slotCount)
  }

  ghost predicate OneProfileEach(objects: ObjectMap, slotCount: nat) {
    && (forall s: nat :: s < slotCount ==> HasProfile(objects, s))
    && ProfilesDistinct(objects)
  }

  predicate ProfileOf(objects: ObjectMap, h: ObjectHandle, slot: SlotId) {
    h in objects && objects[h].keyType == Profile && objects[h].slot == slot
  }

  ghost predicate ProfilesDistinct(objects: ObjectMap) {
    forall a, b, slot :: ProfileOf(objects, a, slot) && ProfileOf(objects, b, slot) ==> a == b
  }

  lemma EnsureProfileDistinct(st: State, slot: SlotId)
    requires ProfilesDistinct(st.objects) && st.nextHandle !in st.objects
    ensures ProfilesDistinct(EnsureProfile(st, slot).objects) && HasProfile(EnsureProfile(st, slot).objects, slot)
    ensures forall h :: h in st.objects ==>
            h in EnsureProfile(st, slot).objects && EnsureProfile(st, slot).objects[h] == st.objects[h]
  {
    if !HasProfile(st.objects, slot) {
      var after := EnsureProfile(st, slot).objects;
      assert after[st.nextHandle] == ProfileObject(st.nextHandle, slot);
      forall a, b, other | ProfileOf(after, a, other) && ProfileOf(after, b, other) ensures a == b {
        assert a != st.nextHandle ==> ProfileOf(st.objects, a, other);
        assert b != st.nextHandle ==> ProfileOf(st.objects, b, other);
      }
    }
  }

  lemma {:induction false} EnsureProfilesDistinct(st: State, ids: seq<SlotId>)
    requires ObjectsOk(st.objects, st.nextHandle, st.registry.slots.Keys) && ProfilesDistinct(st.objects)
    requires 0 < st.nextHandle && st.nextHandle + |ids| < TWO_64
    requires forall i :: 0 <= i < |ids| ==> ids[i] in st.registry.slots
    ensures ProfilesDistinct(EnsureProfiles(st, ids).objects)
    ensures forall s :: s in ids ==> HasProfile(EnsureProfiles(st, ids).objects, s)
  {
    hide EnsureProfile;
    if ids != [] {
      var before := ids[..|ids| - 1];
      EnsureProfilesDistinct(st, before);
      EnsureProfilesOk(st, before);
      var mid := EnsureProfiles(st, before);
      EnsureProfileDistinct(mid, ids[|ids| - 1]);
      var st' := EnsureProfile(mid, ids[|ids| - 1]);
      forall s | s in ids ensures HasProfile(st'.objects, s) {
        if s in before {
          var h :| h in mid.objects && mid.objects[h].slot == s && mid.objects[h].keyType == Profile;
          assert h in st'.objects && st'.objects[h] == mid.objects[h];
        }
      }
    }
  }

  lemma StartUpShape(st: State, slotCount: nat)
    requires Inv(st) && !st.initialized && Fits(st, slotCount)
    ensures var r := BeforeProfiles(st, slotCount);
            && StartUp(st, slotCount).objects == EnsureProfiles(r, Range(0, slotCount)).objects
            && ObjectsOk(r.objects, r.nextHandle, r.registry.slots.Keys) && ProfilesDistinct(r.objects)
            && 0 < r.nextHandle && r.nextHandle + slotCount < TWO_64
            && |Range(0, slotCount)| == slotCount
            && forall s :: s in Range(0, slotCount) ==> s in r.registry.slots
  {
    hide EnsureProfiles, Register, ProfilesDistinct;
    BeforeProfilesShape(st, slotCount);
    BeforeProfilesOk(st, slotCount);
    FreshRegistry(slotCount);
    NothingLoadedIsProfile(st.disk, Register(EMPTY, slotCount));
  }

  lemma NothingLoadedIsProfile(disk: Option<StoredState>, registry: RegistryData)
    ensures ProfilesDistinct(StoredObjectsFor(disk, registry))
  {
  }

  lemma StartUpProfiles(st: State, slotCount: nat)
    requires Inv(st) && !st.initialized && Fits(st, slotCount)
    ensures OneProfileEach(StartUp(st, slotCount).objects, slotCount)
  {
    hide Inv, EnsureProfiles, HasProfile, ProfilesDistinct, StartUp, BeforeProfiles, ObjectsOk;
    var r := BeforeProfiles(st, slotCount);
    var ids := Range(0, slotCount);
    StartUpShape(st, slotCount);
    EnsureProfilesDistinct(r, ids);
    forall s: nat | s < slotCount ensures HasProfile(StartUp(st, slotCount).objects, s) {
      assert s in ids;
    }
  }

  /** Reloading a current image gives back every persisted object, up to the struct-only fields. */
  lemma ReloadExact(objects: ObjectMap, d: StoredState, registry: RegistryData)
    requires d.objects == DiskImage(objects)
    requires forall h :: h in objects ==> objects[h].slot in registry.slots
    ensures forall h :: h in LoadedObjects(d, registry) <==> h in objects && Persistable(objects[h])
    ensures forall h :: h in LoadedObjects(d, registry) ==> LoadedObjects(d, registry)[h] == Reloaded(objects[h])
  {
    forall h | h in objects && Persistable(objects[h])
      ensures h in LoadedObjects(d, registry) && LoadedObjects(d, registry)[h] == Reloaded(objects[h]) {
      ObjectRoundTrip(objects[h]);
    }
  }

  /**
   Start-up over a disk that is current for `objects` restores exactly their persisted
   part: same handles, slots, key types, key bytes and attributes.
   */
  lemma StartUpRestores(st: State, objects: ObjectMap, slotCount: nat)
    requires Inv(st) && !st.initialized && Fits(st, slotCount)
    requires DiskObjects(st.disk) == DiskImage(objects)
    requires forall h :: h in objects ==> objects[h].slot < slotCount
    ensures Restored(objects, BeforeProfiles(st, slotCount).nextHandle, StartUp(st, slotCount).objects, slotCount)
  {
    hide Inv, StartUp, DiskImage, LoadedObjects, Register, OneProfileEach, Restored, Extends, BeforeProfiles;
    var r := BeforeProfiles(st, slotCount);
    StartUpProfiles(st, slotCount);
    StartUpFacts(st, slotCount);
    BeforeProfilesFacts(st, slotCount);
    var registry := Register(EMPTY, slotCount);
    FreshRegistry(slotCount);
    forall h | h in objects ensures objects[h].slot in registry.slots {
      assert objects[h].slot in Range(0, slotCount);
    }
    if st.disk.Some? {
      ReloadExact(objects, st.disk.value, registry);
    } else {
      EmptyImage(objects);
    }
    RestoredWithProfiles(objects, r.objects, r.nextHandle, StartUp(st, slotCount).objects, slotCount);
  }

  lemma RestoredWithProfiles(objects: ObjectMap, loaded: ObjectMap, next: nat, objects': ObjectMap, slotCount: nat)
    requires forall h :: h in loaded <==> h in objects && Persistable(objects[h])
    requires forall h :: h in loaded ==> loaded[h] == Reloaded(objects[h])
    requires Extends(loaded, next, objects') && OneProfileEach(objects', slotCount)
    ensures Restored(objects, next, objects', slotCount)
  {
    hide OneProfileEach;
  }

  lemma EmptyImage(objects: ObjectMap)
    requires DiskImage(objects) == map[]
    ensures forall h :: h in objects ==> !Persistable(objects[h])
  {
    forall h | h in objects ensures !Persistable(objects[h]) {
      assert Persistable(objects[h]) ==> h in DiskImage(objects);
    }
  }

  lemma RegisteredBelow(st: State, slotCount: nat)
    requires Inv(st) && st.registry.next <= slotCount
    ensures forall h :: h in st.objects ==> st.objects[h].slot < slotCount
  {
  }

  /**
   Losing memory at any call boundary and initialising again, over at least as many
   slots, restores exactly the persisted objects.
   */
  lemma CrashThenInitialize(e: Engine, st: State, args: Option<InitArgs>, slotCount: nat)
    requires Inv(st) && Sound(st) && st.initialized && Fits(st, slotCount)
    requires InitArgsCheck(args) == CkrOk && st.registry.next <= slotCount
    ensures var st' := After(e, st, [Crash, Initialize(args, slotCount)]);
            && st'.initialized && st'.sessions == map[]
            && Restored(st.objects, DiskNext(st.disk), st'.objects, slotCount)
  {
    hide Inv, StartUp, Restored;
    assert [Crash, Initialize(args, slotCount)][..1] == [Crash] && [Crash][..0] == [];
    var off := Boot(st.disk);
    BootStepKeepsInv(st, slotCount);
    assert After(e, st, [Crash]) == off;
    assert After(e, st, [Crash, Initialize(args, slotCount)]) == StartUp(off, slotCount);
    RegisteredBelow(st, slotCount);
    RestartFrom(st, off, slotCount);
  }

  lemma RestartFrom(st: State, off: State, slotCount: nat)
    requires Inv(st) && st.initialized && Inv(off) && !off.initialized && Fits(off, slotCount)
    requires DiskObjects(off.disk) == DiskImage(st.objects)
    requires off.disk.None? ==> off.nextHandle >= DiskNext(st.disk)
    requires off.disk.Some? ==> off.disk.value.nextHandle >= DiskNext(st.disk)
    requires forall h :: h in st.objects ==> st.objects[h].slot < slotCount
    ensures var st' := StartUp(off, slotCount);
            && st'.initialized && st'.sessions == map[]
            && Restored(st.objects, DiskNext(st.disk), st'.objects, slotCount)
  {
    hide Inv, StartUp, DiskImage, Restored, BeforeProfiles, Extends;
    StartUpRestores(off, st.objects, slotCount);
    StartUpFacts(off, slotCount);
    BeforeProfilesFacts(off, slotCount);
    RestoredFromLower(st.objects, BeforeProfiles(off, slotCount).nextHandle, DiskNext(st.disk),
                      StartUp(off, slotCount).objects, slotCount);
  }

  lemma RestoredFromLower(objects: ObjectMap, next: nat, lower: nat, objects': ObjectMap, slotCount: nat)
    requires Restored(objects, next, objects', slotCount) && lower <= next
    ensures Restored(objects, lower, objects', slotCount)
  {
    hide OneProfileEach, ProfileObject, Reloaded, Persistable;
  }

  /**
   Shutting down and initialising again restores the persisted objects whether or not
   the disk was current before, and every registered token unchanged: label, state,
   PINs and counters.
   */
  lemma FinalizeThenInitialize(e: Engine, st: State, args: Option<InitArgs>, slotCount: nat)
    requires Inv(st) && st.initialized && Fits(st, slotCount)
    requires InitArgsCheck(args) == CkrOk && st.registry.next <= slotCount
    ensures var st' := After(e, st, [Finalize(false), Initialize(args, slotCount)]);
            && st'.initialized && st'.sessions == map[]
            && Restored(st.objects, DiskNext(st.disk), st'.objects, slotCount)
            && forall s :: s in st.registry.slots ==> s in st'.tokens && st'.tokens[s] == st.tokens[s]
  {
    hide Inv, StartUp, Restored, Shutdown;
    var calls := [Finalize(false), Initialize(args, slotCount)];
    assert calls[..1] == [Finalize(false)] && [Finalize(false)][..0] == [];
    var off := Shutdown(st);
    FinalizeStepKeepsInv(st, false, slotCount);
    ShutdownFacts(st);
    assert After(e, st, [Finalize(false)]) == off;
    assert After(e, st, calls) == StartUp(off, slotCount);
    RegisteredBelow(st, slotCount);
    RestartFrom(st, off, slotCount);
    TokensComeBack(st, slotCount);
  }

  lemma ShutdownFacts(st: State)
    requires Inv(st) && st.initialized
    ensures var off := Shutdown(st);
            && !off.initialized && off.disk.Some? && off.disk.value.nextHandle == st.nextHandle
            && off.disk.value.objects == DiskImage(st.objects)
            && off.disk.value.tokens == Snapshot(st).tokens
            && DiskNext(st.disk) <= st.nextHandle
  {
    SnapshotObjects(st);
  }

  lemma TokensComeBack(st: State, slotCount: nat)
    requires Inv(st) && st.initialized && Fits(Shutdown(st), slotCount)
    requires Inv(Shutdown(st)) && st.registry.next <= slotCount
    ensures forall s :: s in st.registry.slots ==>
              s in StartUp(Shutdown(st), slotCount).tokens && StartUp(Shutdown(st), slotCount).tokens[s] == st.tokens[s]
  {
    hide Snapshot, RestoreToken;
    var off := Shutdown(st);
    ShutdownFacts(st);
    SnapshotTokens(st);
    SnapshotKeys(st);
    StartUpTokens(off, slotCount);
    forall s | s in st.registry.slots ensures s in StartUp(off, slotCount).tokens
      && StartUp(off, slotCount).tokens[s] == st.tokens[s] {
      assert off.disk.value.tokens != map[];
      assert StoredTokensFor(off.disk)[s] == RestoreToken(off.disk.value.tokens[s], s);
    }
  }

  lemma SnapshotKeys(st: State)
    ensures Snapshot(st).tokens.Keys == st.registry.slots.Keys
  {
  }

  lemma StartUpTokens(off: State, slotCount: nat)
    requires Inv(off) && !off.initialized && Fits(off, slotCount)
    ensures forall s :: s in StoredTokensFor(off.disk) ==>
              s in StartUp(off, slotCount).tokens && StartUp(off, slotCount).tokens[s] == StoredTokensFor(off.disk)[s]
  {
    BeforeProfilesShape(off, slotCount);
    BeforeProfilesOk(off, slotCount);
    FreshRegistry(slotCount);
    EnsureProfilesOk(BeforeProfiles(off, slotCount), Range(0, slotCount));
  }

  // ---- Ownership in use ----------------------------------------------------------------------------------

  /** `C_CloseSession` removes exactly the closing session's session objects, and no token object. */
  lemma CloseRemovesExactly(st: State, h: SessionHandle)
    requires NoOrphans(st.objects, st.sessions) && h in st.sessions
    ensures var st' := CloseSessionStep(st, h).0;
            forall o :: o in st.objects ==>
              (o !in st'.objects <==> IsSessionObject(st.objects[o]) && st.objects[o].creatingSession == Some(h))
              && (o in st'.objects ==> st'.objects[o] == st.objects[o])
  {
  }

  /** `C_InitToken` runs only without sessions on the slot, so everything it clears there is a token object. */
  lemma InitTokenClearsTokenObjects(st: State, slot: SlotId, pin: Bytes, text: Bytes)
    requires Inv(st) && NoOrphans(st.objects, st.sessions) && st.initialized && Fits(st, 1)
    ensures var (st', out) := InitTokenStep(st, slot, pin, text);
            && (out.rv == CkrOk ==> forall h :: h in st.objects && st.objects[h].slot == slot ==>
                IsTokenObject(st.objects[h]) && h !in st'.objects)
            && (forall h :: h in st.objects && (out.rv != CkrOk || st.objects[h].slot != slot) ==>
                  h in st'.objects && st'.objects[h] == st.objects[h])
  {
    hide InitTokenSpec, Snapshot, Inv, IsTokenObject, HasSessions, HasProfile, NoOrphans, ProfileObject;
    hide Padded, TokenAt;
    NextHandleIsFresh(st);
    if !HasSessions(st.sessions, slot) {
      TokenObjectsWithoutSessions(st.objects, st.sessions, slot);
    }
  }

  lemma TokenObjectsWithoutSessions(objects: ObjectMap, sessions: SessionMap, slot: SlotId)
    requires NoOrphans(objects, sessions) && !HasSessions(sessions, slot)
    ensures forall h :: h in objects && objects[h].slot == slot ==> IsTokenObject(objects[h])
  {
  }
}
