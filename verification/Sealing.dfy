/**
 Keys that have been locked away, with every copy of them: what a lineage of locked
 keys keeps over whole runs, and which crashes undo a lock.
 */
module Sealing {
  import opened Types
  import opened Objects
  import opened AttributePolicy
  import opened TemplateWrites
  import opened Backend
  import opened Registry
  import opened Sessions
  import opened Storage
  import opened Machine
  import opened Invariants
  import opened Persistence
  import opened Saving
  import opened Lineage

  // ---- Lineages -----------------------------------------------------------------------------------------------

  /** The two one-way locks a caller can put on a secret or private key. */
  datatype Lock = Sensitive | Unextractable

  predicate Locked(lock: Lock, attrs: Attributes) {
    && !PublicClass(attrs)
    && match lock
       case Sensitive => AttrTrue(attrs, CKA_SENSITIVE)
       case Unextractable => ExplicitlyUnextractable(attrs)
  }

  /** The objects that memory or the disk has. */
  function Known(st: State): set<ObjectHandle> {
    st.objects.Keys + DiskObjects(st.disk).Keys
  }

  predicate LockedInMemory(lock: Lock, st: State, lineage: set<ObjectHandle>) {
    forall h :: h in lineage && h in st.objects ==> Locked(lock, st.objects[h].attrs)
  }

  predicate LockedOnDisk(lock: Lock, st: State, lineage: set<ObjectHandle>) {
    forall h :: h in lineage && h in DiskObjects(st.disk) ==> Locked(lock, DiskObjects(st.disk)[h].attrs)
  }

  /** Every member in memory is locked or, while the library is not initialised, every member it would load. */
  predicate AllLocked(lock: Lock, st: State, lineage: set<ObjectHandle>) {
    if st.initialized then LockedInMemory(lock, st, lineage) else LockedOnDisk(lock, st, lineage)
  }

  /** A lineage grows by the copies made of its members; a member belongs to it while memory or the disk has it. */
  ghost function Descend(e: Engine, st: State, c: Call, lineage: set<ObjectHandle>): set<ObjectHandle> {
    var (st', out) := Step(e, st, c);
    (lineage + if c.CopyObject? && c.target in lineage && out.rv == CkrOk then {st.nextHandle} else {}) * Known(st')
  }

  ghost function LineageAfter(e: Engine, st: State, calls: seq<Call>, lineage: set<ObjectHandle>): set<ObjectHandle> {
    if calls == [] then lineage
    else Descend(e, After(e, st, calls[..|calls| - 1]), calls[|calls| - 1],
                 LineageAfter(e, st, calls[..|calls| - 1], lineage))
  }

  /** The call proposes no malformed boolean to a member of the lineage, by write or by copy. */
  predicate WellFormedFor(c: Call, lineage: set<ObjectHandle>) {
    (c.SetAttributeValue? || c.CopyObject?) && c.target in lineage ==> WellFormedWrites(c)
  }

  ghost predicate WellFormedAlong(e: Engine, st: State, calls: seq<Call>, lineage: set<ObjectHandle>) {
    calls == [] ||
    (var before := calls[..|calls| - 1];
     && WellFormedAlong(e, st, before, lineage)
     && WellFormedFor(calls[|calls| - 1], LineageAfter(e, st, before, lineage)))
  }

  /** The call writes the disk: a shutdown, or one of the calls that save. */
  ghost predicate WritesDisk(e: Engine, st: State, c: Call) {
    && st.initialized && !c.Initialize? && !c.Crash?
    && if c.Finalize? then !c.reserved else Saves(st, c, RunningStep(e, st, c).1.rv)
  }

  ghost predicate DiskWritten(e: Engine, st: State, calls: seq<Call>) {
    calls != [] &&
    (var before := calls[..|calls| - 1];
     DiskWritten(e, st, before) || WritesDisk(e, After(e, st, before), calls[|calls| - 1]))
  }

  /** The locks have reached the disk: the stored copies had them at the start, or a call has saved since. */
  ghost predicate Durable(e: Engine, st: State, calls: seq<Call>, lock: Lock, lineage: set<ObjectHandle>) {
    LockedOnDisk(lock, st, lineage) || DiskWritten(e, st, calls)
  }

  /** Memory is lost only once the locks are on disk. */
  ghost predicate CrashesAreDurable(e: Engine, st: State, calls: seq<Call>, lock: Lock, lineage: set<ObjectHandle>) {
    calls == [] ||
    (var before := calls[..|calls| - 1];
     && CrashesAreDurable(e, st, before, lock, lineage)
     && (calls[|calls| - 1].Crash? ==> Durable(e, st, before, lock, lineage)))
  }

  /** At every call boundary of the run every member is locked. */
  ghost predicate StaysLocked(e: Engine, st: State, calls: seq<Call>, lock: Lock, lineage: set<ObjectHandle>) {
    && AllLocked(lock, After(e, st, calls), LineageAfter(e, st, calls, lineage))
    && (calls != [] ==> StaysLocked(e, st, calls[..|calls| - 1], lock, lineage))
  }

  // ---- One step ----------------------------------------------------------------------------------------------

  lemma WrittenStaysLocked(lock: Lock, o: KeyObject, template: Template)
    requires Locked(lock, o.attrs) && WellFormedTemplate(template)
    ensures Locked(lock, ApplyTemplate(o, template).0.attrs)
  {
    hide ApplyTemplate, PublicClass, AttrTrue;
    ApplyTemplateKeepsIdentity(o, template);
    ApplyTemplateKeepsSealed(o, template);
  }

  lemma CopyStaysLocked(lock: Lock, src: KeyObject, template: Template, o: KeyObject)
    requires Locked(lock, src.attrs) && WellFormedAttributes(CollectTemplate(template)) && CopiedFrom(src, template, o)
    ensures Locked(lock, o.attrs)
  {
  }

  lemma SubsetLocked(lock: Lock, st: State, small: set<ObjectHandle>, big: set<ObjectHandle>)
    requires small <= big
    ensures LockedInMemory(lock, st, big) ==> LockedInMemory(lock, st, small)
    ensures LockedOnDisk(lock, st, big) ==> LockedOnDisk(lock, st, small)
    ensures AllLocked(lock, st, big) ==> AllLocked(lock, st, small)
  {
  }

  /** Stored handles lie below the counter, so none is drawn again. */
  lemma StoredBelowCounter(st: State, h: ObjectHandle)
    requires Inv(st) && st.initialized && h in DiskObjects(st.disk)
    ensures h < st.nextHandle
  {
  }

  function Grown(st: State, c: Call, lineage: set<ObjectHandle>): set<ObjectHandle> {
    lineage + if st.initialized && c.CopyObject? && c.target in lineage then {st.nextHandle} else {}
  }

  lemma RunningStepKeepsLocks(st: State, c: Call, lock: Lock, lineage: set<ObjectHandle>, st': State)
    requires Inv(st) && st.initialized && AllComeFrom(st, c, st'.objects) && lineage <= Known(st)
    requires LockedInMemory(lock, st, lineage) && WellFormedFor(c, lineage)
    ensures LockedInMemory(lock, st', Grown(st, c, lineage))
  {
    hide Inv, ApplyTemplate, CopiedFrom, Locked, FlagsTruthful, DerivedFrom, WellFormedTemplate, WellFormedAttributes;
    NextHandleIsFresh(st);
    forall h | h in Grown(st, c, lineage) && h in st'.objects ensures Locked(lock, st'.objects[h].attrs) {
      assert ComesFrom(st, c, h, st'.objects[h]);
      if h in st.objects {
        if c.SetAttributeValue? && c.target == h {
          WrittenStaysLocked(lock, st.objects[h], c.template);
        }
      } else if h in lineage {
        StoredBelowCounter(st, h);
        assert false;
      } else {
        CopyStaysLocked(lock, st.objects[c.target], c.template, st'.objects[h]);
      }
    }
  }

  lemma StartUpKeepsLocks(st: State, slotCount: nat, lock: Lock, lineage: set<ObjectHandle>)
    requires Inv(st) && !st.initialized && Fits(st, slotCount) && lineage <= Known(st)
    requires LockedOnDisk(lock, st, lineage)
    ensures LockedInMemory(lock, StartUp(st, slotCount), lineage)
  {
    hide StartUp, Locked, BeforeProfiles, Register, ProfileObject;
    StartUpFacts(st, slotCount);
    BeforeProfilesShape(st, slotCount);
    var st' := StartUp(st, slotCount);
    forall h | h in lineage && h in st'.objects ensures Locked(lock, st'.objects[h].attrs) {
      assert h in DiskObjects(st.disk);
      RestoreKeepsLock(lock, st.disk.value.objects[h]);
      assert st'.objects[h].attrs == Restore(st.disk.value.objects[h]).attrs;
    }
  }

  lemma RestoreKeepsLock(lock: Lock, s: StoredObject)
    ensures Locked(lock, Restore(s).attrs) <==> Locked(lock, s.attrs)
  {
  }

  /** A save puts on disk what memory has. */
  lemma ImageKeepsLocks(st: State, st': State, lock: Lock, lineage: set<ObjectHandle>)
    requires DiskObjects(st'.disk) == DiskImage(st.objects) && LockedInMemory(lock, st, lineage)
    ensures LockedOnDisk(lock, st', lineage)
  {
    hide Locked;
  }

  lemma ShutdownImage(st: State)
    requires Inv(st) && st.initialized
    ensures DiskObjects(Shutdown(st).disk) == DiskImage(st.objects) && !Shutdown(st).initialized
  {
  }

  /** A step keeps the locks, except that a crash keeps those of the stored copies. */
  lemma StepLocksExact(e: Engine, st: State, c: Call, lock: Lock, lineage: set<ObjectHandle>)
    requires Inv(st) && Fits(st, Draws(c)) && lineage <= Known(st)
    requires AllLocked(lock, st, lineage) && WellFormedFor(c, lineage)
    ensures AllLocked(lock, Step(e, st, c).0, Descend(e, st, c, lineage)) <==>
            (c.Crash? ==> LockedOnDisk(lock, st, lineage))
  {
    hide Inv, RunningStep, StartUp, LockedInMemory, LockedOnDisk, Snapshot, Known, AllComeFrom, DiskImage, DiskObjects;
    hide WellFormedFor;
    var st' := Step(e, st, c).0;
    if c.Crash? {
      CrashLocksExact(st, lock, lineage);
    } else {
      if c.Initialize? {
        if InitArgsCheck(c.args) == CkrOk && !st.initialized {
          StartUpKeepsLocks(st, c.slotCount, lock, lineage);
          StartUpFacts(st, c.slotCount);
        }
      } else if c.Finalize? {
        if st.initialized && !c.reserved {
          ShutdownImage(st);
          ImageKeepsLocks(st, st', lock, lineage);
        }
      } else if st.initialized {
        ObjectsComeFrom(e, st, c);
        RunningStepKeepsInv(e, st, c);
        RunningStepKeepsLocks(st, c, lock, lineage, st');
      }
      assert lineage + {} == lineage;
      SubsetLocked(lock, st', Descend(e, st, c, lineage), Grown(st, c, lineage));
    }
  }

  lemma CrashLocksExact(st: State, lock: Lock, lineage: set<ObjectHandle>)
    ensures LockedOnDisk(lock, Boot(st.disk), lineage * Known(Boot(st.disk))) <==> LockedOnDisk(lock, st, lineage)
  {
    hide Locked;
    var rest := lineage * Known(Boot(st.disk));
    assert forall h :: h in DiskObjects(st.disk) ==> (h in rest <==> h in lineage);
  }

  lemma SaveWritesImage(e: Engine, st: State, c: Call)
    requires Inv(st) && st.initialized && Fits(st, Draws(c)) && !c.Initialize? && !c.Finalize? && !c.Crash?
    ensures var st' := RunningStep(e, st, c).0;
            if WritesDisk(e, st, c) then DiskObjects(st'.disk) == DiskImage(st'.objects) else st'.disk == st.disk
  {
    hide RunningStep, Saves, Snapshot;
    SaveExact(e, st, c);
    assert SecondIsFresh(st);
    RunningStepKeepsInv(e, st, c);
    SnapshotObjects(RunningStep(e, st, c).0);
  }

  /** While the disk stays, the members on it stay. */
  lemma SameDiskLocks(st: State, st': State, lock: Lock, lineage: set<ObjectHandle>, lineage': set<ObjectHandle>)
    requires st'.disk == st.disk
    requires forall h :: h in DiskObjects(st.disk) ==> (h in lineage' <==> h in lineage)
    ensures LockedOnDisk(lock, st', lineage') <==> LockedOnDisk(lock, st, lineage)
  {
    hide Locked;
  }

  lemma StoredMembers(e: Engine, st: State, c: Call, lineage: set<ObjectHandle>)
    requires Inv(st) && Step(e, st, c).0.disk == st.disk
    ensures forall h :: h in DiskObjects(st.disk) ==> (h in Descend(e, st, c, lineage) <==> h in lineage)
  {
    hide Inv, RunningStep, DiskObjects;
    if st.initialized {
      forall h | h in DiskObjects(st.disk) ensures h < st.nextHandle {
        StoredBelowCounter(st, h);
      }
    }
  }

  /** The stored copies of a locked lineage are locked exactly when they were before or this call saved. */
  lemma StepDiskExact(e: Engine, st: State, c: Call, lock: Lock, lineage: set<ObjectHandle>)
    requires Inv(st) && Fits(st, Draws(c)) && AllLocked(lock, Step(e, st, c).0, Descend(e, st, c, lineage))
    ensures LockedOnDisk(lock, Step(e, st, c).0, Descend(e, st, c, lineage)) <==>
            LockedOnDisk(lock, st, lineage) || WritesDisk(e, st, c)
  {
    hide Inv, RunningStep, StartUp, LockedInMemory, LockedOnDisk, Snapshot, DiskImage, DiskObjects, Descend, Saves;
    var st' := Step(e, st, c).0;
    var lineage' := Descend(e, st, c, lineage);
    if c.Initialize? && InitArgsCheck(c.args) == CkrOk && !st.initialized {
      StartUpFacts(st, c.slotCount);
    } else if !c.Initialize? && !c.Finalize? && !c.Crash? && st.initialized {
      SaveWritesImage(e, st, c);
      RunningStepKeepsInv(e, st, c);
      if WritesDisk(e, st, c) {
        ImageKeepsLocks(st', st', lock, lineage');
      }
    }
    if !WritesDisk(e, st, c) {
      StoredMembers(e, st, c, lineage);
      SameDiskLocks(st, st', lock, lineage, lineage');
    }
  }

  // ---- Whole runs --------------------------------------------------------------------------------------------

  /**
   The ratchet over whole lineages. A key that is sensitive, or explicitly not
   extractable, stays so at every later call boundary, and so does every copy and copy of
   a copy, in memory, on disk and back again, whatever happens to other objects: exactly
   when memory is lost only after the locks have reached the disk. They have reached it
   exactly when the stored copies of all members are locked.
   */
  lemma {:induction false} LineageLockedExact(e: Engine, st: State, calls: seq<Call>, lock: Lock,
                                              lineage: set<ObjectHandle>)
    requires Inv(st) && Fits(st, TotalDraws(calls)) && lineage <= Known(st)
    requires AllLocked(lock, st, lineage) && WellFormedAlong(e, st, calls, lineage)
    ensures LineageAfter(e, st, calls, lineage) <= Known(After(e, st, calls))
    ensures StaysLocked(e, st, calls, lock, lineage) <==> CrashesAreDurable(e, st, calls, lock, lineage)
    ensures StaysLocked(e, st, calls, lock, lineage) ==>
              (LockedOnDisk(lock, After(e, st, calls), LineageAfter(e, st, calls, lineage)) <==>
               Durable(e, st, calls, lock, lineage))
  {
    hide Inv, Step, AllLocked, LockedOnDisk, WellFormedFor, WritesDisk, Known;
    if calls != [] {
      var before := calls[..|calls| - 1];
      var c := calls[|calls| - 1];
      LineageLockedExact(e, st, before, lock, lineage);
      if StaysLocked(e, st, before, lock, lineage) {
        ReachKeepsInv(e, st, before, Draws(c));
        var mid, members := After(e, st, before), LineageAfter(e, st, before, lineage);
        StepLocksExact(e, mid, c, lock, members);
        if AllLocked(lock, Step(e, mid, c).0, Descend(e, mid, c, members)) {
          StepDiskExact(e, mid, c, lock, members);
        }
      }
    }
  }

  lemma StaysLockedNow(e: Engine, st: State, calls: seq<Call>, lock: Lock, lineage: set<ObjectHandle>)
    requires StaysLocked(e, st, calls, lock, lineage)
    ensures AllLocked(lock, After(e, st, calls), LineageAfter(e, st, calls, lineage))
  {
  }

  /** Once the stored copies are locked too, no run unlocks a member, wherever it crashes. */
  lemma {:induction false} StoredLocksLast(e: Engine, st: State, calls: seq<Call>, lock: Lock,
                                           lineage: set<ObjectHandle>)
    requires Inv(st) && Fits(st, TotalDraws(calls)) && lineage <= Known(st)
    requires AllLocked(lock, st, lineage) && LockedOnDisk(lock, st, lineage)
    requires WellFormedAlong(e, st, calls, lineage)
    ensures StaysLocked(e, st, calls, lock, lineage)
    ensures LockedOnDisk(lock, After(e, st, calls), LineageAfter(e, st, calls, lineage))
  {
    hide Inv, Step, AllLocked, LockedOnDisk, WellFormedAlong;
    StoredLocksMakeDurable(e, st, calls, lock, lineage);
    LineageLockedExact(e, st, calls, lock, lineage);
  }

  lemma {:induction false} StoredLocksMakeDurable(e: Engine, st: State, calls: seq<Call>, lock: Lock,
                                                  lineage: set<ObjectHandle>)
    requires LockedOnDisk(lock, st, lineage)
    ensures CrashesAreDurable(e, st, calls, lock, lineage)
  {
    hide LockedOnDisk, DiskWritten;
    if calls != [] {
      StoredLocksMakeDurable(e, st, calls[..|calls| - 1], lock, lineage);
    }
  }

  // ---- Locks that a crash undoes -----------------------------------------------------------------------------

  predicate LockValue(lock: Lock, v: Option<Bytes>) {
    match lock
    case Sensitive => v.Some? && IsTrue(v.value)
    case Unextractable => v.Some? && (|v.value| == 0 || v.value[0] == CK_FALSE)
  }

  /** The entries before the first refused one leave the lock on. */
  predicate PutsLock(lock: Lock, o: KeyObject, template: Template) {
    && !PublicClass(o.attrs)
    && LockValue(lock, ValueBefore(o.attrs, template, FirstRefused(o.attrs, template),
                                   if lock == Sensitive then CKA_SENSITIVE else CKA_EXTRACTABLE))
  }

  lemma PutsLockExact(lock: Lock, o: KeyObject, template: Template)
    ensures Locked(lock, ApplyTemplate(o, template).0.attrs) <==> PutsLock(lock, o, template)
  {
    hide ApplyTemplate, FirstRefused, ValueBefore, BytesToUlong;
    ApplyTemplateExact(o, template);
    ApplyTemplateKeepsIdentity(o, template);
    var o' := ApplyTemplate(o, template).0;
    assert Lookup(o'.attrs, CKA_CLASS) == Lookup(o.attrs, CKA_CLASS);
    assert PublicClass(o'.attrs) == PublicClass(o.attrs);
    var t := if lock == Sensitive then CKA_SENSITIVE else CKA_EXTRACTABLE;
    assert Lookup(o'.attrs, t) == ValueBefore(o.attrs, template, FirstRefused(o.attrs, template), t);
  }

  /** The write is refused on the way, or ends with a session object: either way it is not saved. */
  predicate Unsaved(o: KeyObject, template: Template) {
    var k := FirstRefused(o.attrs, template);
    k < |template| || !TokenValue(ValueBefore(o.attrs, template, k, CKA_TOKEN))
  }

  /** The disk has this object's attributes as memory has them. */
  predicate StoredAsIs(st: State, target: ObjectHandle) {
    && target in st.objects && target in DiskObjects(st.disk)
    && DiskObjects(st.disk)[target].attrs == st.objects[target].attrs
  }

  /**
   When a crash loses a lock: after a write to an object that is stored as it is, memory
   has the lock and the disk does not exactly when the object was not locked, the
   template's entries before the first refused one lock it, and the write is not saved.
   */
  lemma CrashLosesLockExact(st: State, h: SessionHandle, target: ObjectHandle, template: Template, lock: Lock)
    requires Inv(st) && st.initialized && RwCheck(st, h) == CkrOk
    requires StoredAsIs(st, target) && Persistable(st.objects[target])
    ensures var st' := SetAttributeStep(st, h, target, template).0;
            var o, stored := st.objects[target], DiskObjects(st'.disk);
            && target in st'.objects && target in stored
            && (Locked(lock, st'.objects[target].attrs) && !Locked(lock, stored[target].attrs) <==>
                PutsLock(lock, o, template) && !Locked(lock, o.attrs) && Unsaved(o, template))
  {
    hide ApplyTemplate, Locked, PutsLock, FirstRefused, ValueBefore, IsTrue, TokenValue;
    var o := st.objects[target];
    var (o', rv) := ApplyTemplate(o, template);
    ApplyTemplateExact(o, template);
    ApplyTemplateKeepsIdentity(o, template);
    KindAfter(o, template);
    PutsLockExact(lock, o, template);
    if rv == CkrOk && IsTokenObject(o') {
      ReplaceObjectKeepsInv(st, target, o');
      ReplacedImage(st.(objects := st.objects[target := o']), target);
    }
  }

  lemma ReplacedImage(st: State, target: ObjectHandle)
    requires Inv(st) && target in st.objects && Persistable(st.objects[target])
    ensures target in DiskObjects(Persist(st).disk)
    ensures DiskObjects(Persist(st).disk)[target].attrs == st.objects[target].attrs
  {
    SnapshotObjects(st);
  }

  /** Such a write: `CKA_SENSITIVE` goes to true, then an immutable entry refuses the call; a crash undoes the seal. */
  lemma RefusedSealIsLost(st: State, h: SessionHandle, target: ObjectHandle)
    requires Inv(st) && st.initialized && RwCheck(st, h) == CkrOk
    requires StoredAsIs(st, target) && Persistable(st.objects[target]) && !PublicClass(st.objects[target].attrs)
    requires !AttrTrue(st.objects[target].attrs, CKA_SENSITIVE)
    ensures var template := [TemplateEntry(CKA_SENSITIVE, Some([CK_TRUE]), 0), TemplateEntry(CKA_CLASS, Some([]), 0)];
            var (st', out) := SetAttributeStep(st, h, target, template);
            && out.rv == AttributeReadOnly && WellFormedTemplate(template)
            && target in st'.objects && Locked(Sensitive, st'.objects[target].attrs)
            && target in DiskObjects(st'.disk) && !Locked(Sensitive, DiskObjects(st'.disk)[target].attrs)
  {
    hide Inv, ApplyTemplate, BytesToUlong, SetAttributeStep;
    var template := [TemplateEntry(CKA_SENSITIVE, Some([CK_TRUE]), 0), TemplateEntry(CKA_CLASS, Some([]), 0)];
    var o := st.objects[target];
    assert !Refused(o.attrs, template, 0) && Refused(o.attrs, template, 1) && FirstRefused(o.attrs, template) == 1;
    ApplyTemplateExact(o, template);
    ApplyTemplateKeepsIdentity(o, template);
    var o' := ApplyTemplate(o, template).0;
    assert Lookup(o'.attrs, CKA_SENSITIVE) == ValueBefore(o.attrs, template, 1, CKA_SENSITIVE) == Some([CK_TRUE]);
    CrashLosesLockExact(st, h, target, template, Sensitive);
    SetAttributeCode(st, h, target, template);
  }

  lemma SetAttributeCode(st: State, h: SessionHandle, target: ObjectHandle, template: Template)
    requires RwCheck(st, h) == CkrOk && target in st.objects
    ensures var (st', out) := SetAttributeStep(st, h, target, template);
            var (o', rv) := ApplyTemplate(st.objects[target], template);
            && out.rv == rv && st'.objects == st.objects[target := o']
            && (rv != CkrOk || !IsTokenObject(o') ==> st' == st.(objects := st'.objects))
  {
    hide ApplyTemplate, Snapshot;
  }

  const SEAL_AND_DEMOTE: Template :=
    [TemplateEntry(CKA_SENSITIVE, Some([CK_TRUE]), 0), TemplateEntry(CKA_TOKEN, Some([CK_FALSE]), 0)]

  /** An accepted write that seals the key and makes it a session object, so that nothing is saved. */
  lemma SealedAndDemoted(st: State, h: SessionHandle, key: ObjectHandle)
    requires RwCheck(st, h) == CkrOk && key in st.objects && !PublicClass(st.objects[key].attrs)
    ensures var (st1, out) := SetAttributeStep(st, h, key, SEAL_AND_DEMOTE);
            && out.rv == CkrOk && st1 == st.(objects := st1.objects)
            && key in st1.objects && !IsTokenObject(st1.objects[key]) && Locked(Sensitive, st1.objects[key].attrs)
            && st1.objects[key].slot == st.objects[key].slot
  {
    hide ApplyTemplate, BytesToUlong, SetAttributeStep, PublicClass, Locked;
    var o, template := st.objects[key], SEAL_AND_DEMOTE;
    assert !Refused(o.attrs, template, 0) && !Refused(o.attrs, template, 1) && FirstRefused(o.attrs, template) == 2;
    ApplyTemplateExact(o, template);
    ApplyTemplateKeepsIdentity(o, template);
    KindAfter(o, template);
    assert ValueBefore(o.attrs, template, 2, CKA_SENSITIVE) == ValueBefore(o.attrs, template, 1, CKA_SENSITIVE);
    PutsLockExact(Sensitive, o, template);
    SetAttributeCode(st, h, key, template);
  }

  /**
   A run that brings a sealed key back unsealed: sealed by such a write, the key is
   destroyed, which as a session object it may be without a save, and then memory is lost.
   */
  lemma DestroyedSealComesBack(e: Engine, st: State, h: SessionHandle, key: ObjectHandle)
    requires Inv(st) && st.initialized && RwCheck(st, h) == CkrOk && st.sessions[h].login == UserLoggedIn
    requires StoredAsIs(st, key) && st.objects[key].slot == st.sessions[h].slot
    requires !PublicClass(st.objects[key].attrs) && !AttrTrue(st.objects[key].attrs, CKA_SENSITIVE)
    ensures var st1 := SetAttributeStep(st, h, key, SEAL_AND_DEMOTE).0;
            var calls := [DestroyObject(h, key), Crash];
            && AllLocked(Sensitive, st1, {key}) && WellFormedAlong(e, st1, calls, {key})
            && DestroyObjectStep(st1, h, key).1.rv == CkrOk && !CrashesAreDurable(e, st1, calls, Sensitive, {key})
            && After(e, st1, calls) == Boot(st.disk) && key in LineageAfter(e, st1, calls, {key})
            && !AllLocked(Sensitive, After(e, st1, calls), {key})
  {
    hide Inv, SetAttributeStep, Persist;
    SealedAndDemoted(st, h, key);
    var st1 := SetAttributeStep(st, h, key, SEAL_AND_DEMOTE).0;
    var calls := [DestroyObject(h, key), Crash];
    assert calls[..1] == [DestroyObject(h, key)] && calls[..1][..0] == [];
    assert After(e, st1, calls[..1]) == DestroyObjectStep(st1, h, key).0;
    assert LineageAfter(e, st1, calls[..1], {key}) == Descend(e, st1, calls[0], {key});
    assert WellFormedAlong(e, st1, calls[..1], {key});
    assert !DiskWritten(e, st1, calls[..1]);
    assert !LockedOnDisk(Sensitive, st1, {key});
  }

  /** What the locks buy: no secret attribute can be read, and a key that is not extractable is never wrapped. */
  lemma LockedKeyStaysInside(e: Engine, st: State, lock: Lock, key: ObjectHandle, attr: AttributeType,
                             h: SessionHandle, mech: MechanismType, wrappingKey: ObjectHandle, buf: OutBuf)
    requires st.initialized && key in st.objects && Locked(lock, st.objects[key].attrs) && SecretAttribute(attr)
    ensures !AccessAllowed(attr, st.objects[key])
    ensures lock == Unextractable ==>
              OpStep(e, st, h, SessionOperations.WrapKey(mech, wrappingKey, key, buf)).1.bytes == None
              && OpStep(e, st, h, SessionOperations.WrapKey(mech, wrappingKey, key, buf)).1.rv != CkrOk
  {
  }

  lemma AbsentKeyNotWrapped(e: Engine, st: State, key: ObjectHandle, h: SessionHandle, mech: MechanismType,
                            wrappingKey: ObjectHandle, buf: OutBuf)
    requires key !in st.objects
    ensures OpStep(e, st, h, SessionOperations.WrapKey(mech, wrappingKey, key, buf)).1.bytes == None
  {
  }

  /** A generated secret key is locked from the start, in both ways, unless its template says otherwise. */
  lemma GeneratedSecretStartsLocked(handle: ObjectHandle, slot: SlotId, mech: MechanismType, keyRef: Bytes, len: nat,
                                    unique: Bytes, attrs: Attributes)
    requires SecretKeyTypeOf(mech).Some?
    ensures var o := GeneratedSecret(handle, slot, mech, keyRef, len, unique, attrs);
            (CKA_SENSITIVE !in attrs ==> Locked(Sensitive, o.attrs))
              && (CKA_EXTRACTABLE !in attrs ==> Locked(Unextractable, o.attrs))
  {
    hide UlongBytes, BytesToUlong;
    UlongRoundTrip(CKO_SECRET_KEY);
    assert GeneratedSecret(handle, slot, mech, keyRef, len, unique, attrs).attrs[CKA_CLASS] ==
      UlongBytes(CKO_SECRET_KEY);
  }

  /** So is a generated private key. */
  lemma GeneratedPrivateStartsLocked(handle: ObjectHandle, slot: SlotId, mech: MechanismType, p: GeneratedPair,
                                     attrs: Attributes)
    requires PairTypes(mech).Some?
    ensures var o := PrivateHalf(handle, slot, mech, p, attrs);
            (CKA_SENSITIVE !in attrs ==> Locked(Sensitive, o.attrs))
              && (CKA_EXTRACTABLE !in attrs ==> Locked(Unextractable, o.attrs))
  {
    hide UlongBytes, BytesToUlong;
    UlongRoundTrip(CKO_PRIVATE_KEY);
    assert PrivateHalf(handle, slot, mech, p, attrs).attrs[CKA_CLASS] == UlongBytes(CKO_PRIVATE_KEY);
  }
}
