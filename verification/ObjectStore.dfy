/**
 The mutable object store: the handle counter, insertion and removal, the loops
 that filter it and the scans over it.
 */
module ObjectStores {
  import opened Types
  import opened Objects
  import opened Storage
  import opened Registry
  import opened Machine

  class ObjectStore {
    var objects: ObjectMap
    var next: ObjectHandle

    constructor ()
      ensures objects == map[] && next == 1
    {
      objects, next := map[], 1;
    }

    /** `next_handle`. */
    method NextHandle() returns (h: ObjectHandle)
      modifies this`next
      ensures h == old(next) && next == Bump(old(next))
    {
      h := next;
      next := Bump(next);
    }

    method Insert(o: KeyObject)
      modifies this`objects
      ensures objects == old(objects)[o.handle := o]
    {
      objects := objects[o.handle := o];
    }

    /** `retain`: visit every object in any order and drop those that `gone` says. */
    method Retain(gone: KeyObject -> bool)
      modifies this`objects
      ensures objects == Without(old(objects), set h | h in old(objects) && gone(old(objects)[h]))
    {
      var left := objects.Keys;
      while left != {}
        invariant left <= objects.Keys <= old(objects).Keys
        invariant forall h :: h in objects ==> objects[h] == old(objects)[h]
        invariant forall h :: h in old(objects) ==> (h in objects <==> h in left || !gone(old(objects)[h]))
        decreases |left|
      {
        var h :| h in left;
        left := left - {h};
        if gone(objects[h]) {
          objects := map k | k in objects && k != h :: objects[k];
        }
      }
    }

    /** `destroy_objects_for_session`. */
    method DestroyForSession(session: SessionHandle)
      modifies this`objects
      ensures objects == Without(old(objects), OwnedBy(old(objects), session))
    {
      Retain((o: KeyObject) => o.creatingSession == Some(session));
    }

    /** `destroy_session_objects_for_slot`. */
    method DestroySessionObjects(slot: SlotId)
      modifies this`objects
      ensures objects == Without(old(objects), SessionObjectsOn(old(objects), slot))
    {
      Retain((o: KeyObject) => o.slot == slot && IsSessionObject(o));
    }

    /** `destroy_private_session_objects`. */
    method DestroyPrivateSessionObjects(slot: SlotId)
      modifies this`objects
      ensures objects == Without(old(objects), PrivateSessionObjectsOn(old(objects), slot))
    {
      Retain((o: KeyObject) => o.slot == slot && IsSessionObject(o) && IsPrivateObject(o));
    }

    /** The in-memory part of `clear_objects_for_slot`. */
    method ClearSlot(slot: SlotId)
      modifies this`objects
      ensures objects == Without(old(objects), ObjectsOn(old(objects), slot))
    {
      Retain((o: KeyObject) => o.slot == slot);
    }

    /** The scan of `ensure_baseline_profile`. */
    method FindProfile(slot: SlotId) returns (found: bool)
      ensures found <==> HasProfile(objects, slot)
    {
      var left := objects.Keys;
      while left != {}
        invariant left <= objects.Keys
        invariant forall h :: h in objects && h !in left ==> !(objects[h].slot == slot && objects[h].keyType == Profile)
        decreases |left|
      {
        var h :| h in left;
        left := left - {h};
        if objects[h].slot == slot && objects[h].keyType == Profile {
          return true;
        }
      }
      return false;
    }

    /** `ensure_baseline_profile`: nothing happens if the slot already has one. */
    method EnsureBaselineProfile(slot: SlotId)
      modifies this
      ensures objects == if HasProfile(old(objects), slot) then old(objects)
              else old(objects)[old(next) := ProfileObject(old(next), slot)]
      ensures next == if HasProfile(old(objects), slot) then old(next) else Bump(old(next))
    {
      var found := FindProfile(slot);
      if !found {
        var h := NextHandle();
        Insert(ProfileObject(h, slot));
      }
    }

    /** The objects part of `persist_if_needed`: profiles, session objects and unregistered slots are skipped. */
    method Serialise(registered: set<SlotId>) returns (stored: map<ObjectHandle, StoredObject>)
      ensures stored == map h | h in objects && Persistable(objects[h])
              && objects[h].slot in registered :: ToStored(objects[h])
    {
      stored := map[];
      var left := objects.Keys;
      while left != {}
        invariant left <= objects.Keys
        invariant forall h :: h in stored <==>
                  h in objects && h !in left && Persistable(objects[h]) && objects[h].slot in registered
        invariant forall h :: h in stored ==> stored[h] == ToStored(objects[h])
        decreases |left|
      {
        var h :| h in left;
        left := left - {h};
        if IsTokenObject(objects[h]) && objects[h].keyType != Profile {
          if objects[h].slot in registered {
            stored := stored[h := ToStored(objects[h])];
          }
        }
      }
    }

    /** The greatest handle in the store, zero when it is empty. */
    method MaxHandle() returns (m: nat)
      ensures m == MaxOf(objects.Keys)
    {
      m := 0;
      var left := objects.Keys;
      while left != {}
        invariant left <= objects.Keys
        invariant forall h :: h in objects && h !in left ==> h <= m
        invariant m == 0 || m in objects
        invariant left == objects.Keys ==> m == 0
        invariant left != objects.Keys && m == 0 ==> 0 in objects
        decreases |left|
      {
        var h :| h in left;
        left := left - {h};
        if h > m {
          m := h;
        }
      }
      assert objects.Keys == {} || m in objects.Keys;
    }

    /** The load loop: stored objects of unregistered slots are skipped. */
    method Merge(d: StoredState, registry: RegistryData)
      modifies this`objects
      ensures objects == old(objects) + LoadedObjects(d, registry)
    {
      hide Restore, Without;
      ghost var loaded := LoadedObjects(d, registry);
      var left := d.objects.Keys;
      NothingMerged(objects, loaded, left);
      while left != {}
        invariant left <= d.objects.Keys
        invariant objects == old(objects) + Without(loaded, left)
        decreases |left|
      {
        var h :| h in left;
        if d.objects[h].slot in registry.slots {
          objects := objects[h := Restore(d.objects[h])];
          WithoutOneLess(old(objects), loaded, left, h);
        } else {
          WithoutAbsent(loaded, left, h);
        }
        left := left - {h};
      }
      WithoutNothing(loaded);
    }

    /** The objects part of `load_persisted_objects`: after the merge the counter moves past everything in the store. */
    method Load(d: StoredState, registry: RegistryData)
      modifies this
      ensures objects == old(objects) + LoadedObjects(d, registry)
      ensures next == Max(d.nextHandle, Bump(MaxOf(objects.Keys)))
    {
      hide LoadedObjects, MaxOf;
      Merge(d, registry);
      var m := MaxHandle();
      next := Max(d.nextHandle, Bump(m));
    }
  }

  lemma NothingMerged(base: ObjectMap, loaded: ObjectMap, left: set<ObjectHandle>)
    requires loaded.Keys <= left
    ensures base + Without(loaded, left) == base
  {
  }

  lemma WithoutAbsent(loaded: ObjectMap, left: set<ObjectHandle>, h: ObjectHandle)
    requires h !in loaded
    ensures Without(loaded, left - {h}) == Without(loaded, left)
  {
  }

  lemma WithoutNothing(loaded: ObjectMap)
    ensures Without(loaded, {}) == loaded
  {
  }

  lemma WithoutOneLess(base: ObjectMap, loaded: ObjectMap, left: set<ObjectHandle>, h: ObjectHandle)
    requires h in left && h in loaded
    ensures base + Without(loaded, left - {h}) == (base + Without(loaded, left))[h := loaded[h]]
  {
  }
}
