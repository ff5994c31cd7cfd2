/**
 Engine registry: global slot ids are handed out in sequence and map to an engine
 (its position in the registration list) and that engine's own slot index.
 */
module Registry {
  import opened Types

  datatype VirtualSlot = VirtualSlot(engine: nat, internal: nat)

  /** `engines[e]` is the number of slots engine `e` asked for. */
  datatype RegistryData = RegistryData(engines: seq<nat>, slots: map<SlotId, VirtualSlot>, next: SlotId)

  const EMPTY: RegistryData := RegistryData([], map[], 0)

  /** The ids `first, first + 1, ...`, `count` of them. */
  function Range(first: nat, count: nat): (r: seq<SlotId>)
    ensures |r| == count && forall i :: 0 <= i < count ==> r[i] == first + i
    ensures forall s: nat :: s in r <==> first <= s < first + count
  {
    if count == 0 then [] else Range(first, count - 1) + [first + count - 1]
  }

  /** The block of ids an engine receives. */
  function Block(engine: nat, first: SlotId, count: nat): (m: map<SlotId, VirtualSlot>)
    ensures forall s: nat :: s in m <==> first <= s < first + count
    ensures forall s: nat :: s in m ==> m[s] == VirtualSlot(engine, s - first)
  {
    if count == 0 then map[] else Block(engine, first, count - 1)[first + count - 1 := VirtualSlot(engine, count - 1)]
  }

  /** Registering an engine with `count` slots appends one block of ids. */
  function Register(r: RegistryData, count: nat): RegistryData {
    RegistryData(
      r.engines + [count],
      r.slots + Block(|r.engines|, r.next, count),
      r.next + count)
  }

  // ---- The layout every history produces -----------------------------------------------------

  /** First id of engine `e`'s block. */
  function Start(engines: seq<nat>, e: nat): nat
    requires e <= |engines|
  {
    if e == 0 then 0 else Start(engines, e - 1) + engines[e - 1]
  }

  lemma {:induction false} StartPrefix(engines: seq<nat>, more: seq<nat>, e: nat)
    requires e <= |engines|
    ensures Start(engines + more, e) == Start(engines, e)
  {
    if e > 0 {
      StartPrefix(engines, more, e - 1);
    }
  }

  lemma {:induction false} StartMonotone(engines: seq<nat>, d: nat, e: nat)
    requires d <= e <= |engines|
    ensures Start(engines, d) <= Start(engines, e)
    decreases e - d
  {
    if d < e {
      StartMonotone(engines, d, e - 1);
    }
  }

  /** Ids are exactly `0..next`, and each lies in its engine's block at its internal index. */
  ghost predicate WellLaidOut(r: RegistryData) {
    && r.next == Start(r.engines, |r.engines|)
    && (forall s: nat :: s in r.slots <==> s < r.next)
    && (forall s: nat :: s in r.slots ==>
          var v := r.slots[s];
          v.engine < |r.engines| && v.internal < r.engines[v.engine] && s == Start(r.engines, v.engine) + v.internal)
  }

  lemma RegisterKeepsLayout(r: RegistryData, count: nat)
    requires WellLaidOut(r)
    ensures WellLaidOut(Register(r, count))
  {
    var r' := Register(r, count);
    forall e: nat | e <= |r.engines| ensures Start(r'.engines, e) == Start(r.engines, e) {
      StartPrefix(r.engines, [count], e);
    }
    assert Start(r'.engines, |r'.engines|) == Start(r'.engines, |r.engines|) + count;
  }

  /** Blocks do not overlap. */
  lemma BlocksDisjoint(engines: seq<nat>, d: nat, i: nat, e: nat, j: nat)
    requires d < e < |engines| && i < engines[d]
    ensures Start(engines, d) + i < Start(engines, e) + j
  {
  }

  /** The slot map is a bijection: engine `e`'s `i`-th id leads back to engine `e` and index `i`. */
  lemma SlotLookupInvertsLayout(r: RegistryData, e: nat, i: nat)
    requires WellLaidOut(r) && e < |r.engines| && i < r.engines[e]
    ensures Start(r.engines, e) + i in r.slots
    ensures r.slots[Start(r.engines, e) + i] == VirtualSlot(e, i)
  {
    var s := Start(r.engines, e) + i;
    assert s < r.next by {
      StartMonotone(r.engines, e + 1, |r.engines|);
      assert Start(r.engines, e + 1) == Start(r.engines, e) + r.engines[e];
    }
    var v := r.slots[s];
    assert v.engine == e by {
      if v.engine < e {
        BlocksDisjoint(r.engines, v.engine, v.internal, e, i);
      } else if v.engine > e {
        BlocksDisjoint(r.engines, e, i, v.engine, v.internal);
      }
    }
  }

  datatype RegistryOp = OpRegister(count: nat) | OpReset

  function RegistryRun(ops: seq<RegistryOp>): RegistryData {
    if ops == [] then EMPTY
    else
      match ops[|ops| - 1]
      case OpRegister(count) => Register(RegistryRun(ops[..|ops| - 1]), count)
      case OpReset => EMPTY
  }

  /** After any sequence of registrations and resets the registry is laid out in contiguous blocks. */
  lemma {:induction false} RegistryRunLaidOut(ops: seq<RegistryOp>)
    ensures WellLaidOut(RegistryRun(ops))
  {
    if ops != [] && ops[|ops| - 1].OpRegister? {
      RegistryRunLaidOut(ops[..|ops| - 1]);
      RegisterKeepsLayout(RegistryRun(ops[..|ops| - 1]), ops[|ops| - 1].count);
    }
  }

  lemma EmptyBlock(r: RegistryData)
    ensures Range(r.next, 0) == [] && r.slots + Block(|r.engines|, r.next, 0) == r.slots
  {
  }

  lemma OneMoreSlot(r: RegistryData, i: nat)
    ensures Range(r.next, i + 1) == Range(r.next, i) + [r.next + i]
    ensures r.slots + Block(|r.engines|, r.next, i + 1) ==
            (r.slots + Block(|r.engines|, r.next, i))[r.next + i := VirtualSlot(|r.engines|, i)]
  {
  }

  // ---- The mutable registry -----------------------------------------------------------------------

  class SlotRegistry {
    var engines: seq<nat>
    var slots: map<SlotId, VirtualSlot>
    var next: SlotId

    function View(): RegistryData
      reads this
    {
      RegistryData(engines, slots, next)
    }

    constructor ()
      ensures View() == EMPTY
    {
      engines, slots, next := [], map[], 0;
    }

    method RegisterEngine(count: nat) returns (ids: seq<SlotId>)
      modifies this
      ensures View() == Register(old(View()), count)
      ensures ids == Range(old(next), count)
    {
      hide Range, Block;
      ids := [];
      ghost var base := View();
      EmptyBlock(base);
      for i := 0 to count
        invariant engines == base.engines && next == base.next + i
        invariant ids == Range(base.next, i) && slots == base.slots + Block(|base.engines|, base.next, i)
      {
        OneMoreSlot(base, i);
        slots := slots[next := VirtualSlot(|engines|, i)];
        ids := ids + [next];
        next := next + 1;
      }
      engines := engines + [count];
    }

    /** Exactly the ids handed out are found, and engine and internal index lead back to the id. */
    method EngineForSlot(slot: SlotId) returns (r: Result<VirtualSlot>)
      requires WellLaidOut(View())
      ensures r.Ok? <==> slot < next
      ensures r.Ok? <==> slot in slots
      ensures r.Ok? ==> r.value.engine < |engines| && Start(engines, r.value.engine) + r.value.internal == slot
      ensures r.Err? ==> r.error == SlotIdInvalid
    {
      if slot in slots {
        return Ok(slots[slot]);
      }
      return Err(SlotIdInvalid);
    }

    /** The keys, sorted: with a well laid out registry that is `0, 1, ..., next - 1`. */
    method SlotIds() returns (ids: seq<SlotId>)
      requires WellLaidOut(View())
      ensures ids == Range(0, next)
    {
      ids := [];
      var left := slots.Keys;
      while left != {}
        invariant |ids| <= next && ids == Range(0, |ids|)
        invariant forall s: nat :: s in left <==> |ids| <= s < next
        decreases left
      {
        var least :| least in left;
        var others := left - {least};
        while others != {}
          invariant others <= left && least in left && least !in others
          invariant forall s: nat :: s in left && s !in others ==> least <= s
          decreases others
        {
          var s :| s in others;
          others := others - {s};
          if s < least {
            least := s;
          }
        }
        assert |ids| in left;
        ids := ids + [least];
        left := left - {least};
      }
      assert |ids| !in left;
    }

    method ResetRegistry()
      modifies this
      ensures View() == EMPTY
    {
      engines := [];
      slots := map[];
      next := 0;
    }
  }
}
