/**
 `C_GetAttributeValue`: a loop over the caller's entries that fills each one in
 place and summarises the outcomes in one return code.
 */
module AttributeQuery {
  import opened Types
  import opened Objects
  import opened AttributePolicy
  import opened Backend
  import opened SessionOperations
  import opened Machine
  import opened Invariants
  import opened Sealing

  /** One `CK_ATTRIBUTE` to be filled: the caller's buffer, if any, and its length field. */
  datatype Entry = Entry(typ: AttributeType, buffer: Option<Bytes>, len: nat)

  /** The caller's side of the contract: a buffer is at least as long as its length field says. */
  predicate ValidEntry(x: Entry) {
    x.buffer.Some? ==> x.len <= |x.buffer.value|
  }

  datatype Outcome = Delivered | TooSmall | Unavailable | Withheld | Failed(rv: Failure)

  /** Attributes that live in struct fields. */
  function FieldAttribute(o: KeyObject, t: AttributeType): Option<Bytes> {
    if t == CKA_LOCAL then Some(BoolByte(o.local))
    else if t == CKA_ALWAYS_SENSITIVE then Some(BoolByte(o.alwaysSensitive))
    else if t == CKA_NEVER_EXTRACTABLE then Some(BoolByte(o.neverExtractable))
    else if t == CKA_ALWAYS_AUTHENTICATE then Some(BoolByte(o.alwaysAuthenticate))
    else if t == CKA_KEY_GEN_MECHANISM then Some(UlongBytes(o.keyGenMechanism))
    else None
  }

  predicate PrivateKeyObject(o: KeyObject) {
    o.keyType == RsaPrivate || (CKA_CLASS in o.attrs && BytesToUlong(o.attrs[CKA_CLASS]) == CKO_PRIVATE_KEY)
  }

  predicate PrivateComponent(t: AttributeType) {
    || t == CKA_PRIVATE_EXPONENT || t == CKA_PRIME_1 || t == CKA_PRIME_2
    || t == CKA_EXPONENT_1 || t == CKA_EXPONENT_2 || t == CKA_COEFFICIENT
  }

  /** Policy, struct fields, attribute map, engine: the first that has something to say. */
  function ReadAttribute(engine: Option<Engine>, o: KeyObject, t: AttributeType): Result<Bytes> {
    if !AccessAllowed(t, o) then Err(AttributeSensitive)
    else if FieldAttribute(o, t).Some? then Ok(FieldAttribute(o, t).value)
    else if t in o.attrs then Ok(o.attrs[t])
    else if PrivateKeyObject(o) && PrivateComponent(t) then Err(AttributeSensitive)
    else if engine.None? then Err(SlotIdInvalid)
    else if o.keyType == Profile then Err(AttributeTypeInvalid)
    else engine.value.attribute(o.keyType, o.keyRef, t)
  }

  function OutcomeOf(r: Result<Bytes>, x: Entry): Outcome {
    match r
    case Ok(v) => if x.buffer.None? || |v| <= x.len then Delivered else TooSmall
    case Err(rv) => if rv == AttributeSensitive then Withheld else if rv == AttributeTypeInvalid then Unavailable
      else Failed(rv)
  }

  function Filled(r: Result<Bytes>, x: Entry): Entry
    requires ValidEntry(x)
  {
    match OutcomeOf(r, x)
    case Delivered =>
      if x.buffer.None? then x.(len := |r.value|)
      else x.(len := |r.value|, buffer := Some(r.value + x.buffer.value[|r.value|..]))
    case Failed(_) => x
    case _ => x.(len := CK_UNAVAILABLE_INFORMATION)
  }

  /** The outcome and the filled entry of one entry depend on that entry and the object alone. */
  function Outcomes(engine: Option<Engine>, o: KeyObject, entries: seq<Entry>): (s: seq<Outcome>)
    ensures |s| == |entries|
    ensures forall i :: 0 <= i < |s| ==> s[i] == OutcomeOf(ReadAttribute(engine, o, entries[i].typ), entries[i])
  {
    seq(|entries|, i requires 0 <= i < |entries| => OutcomeOf(ReadAttribute(engine, o, entries[i].typ), entries[i]))
  }

  /** Sensitive beats unavailable beats too small beats success. */
  function Summary(outcomes: seq<Outcome>): Rv {
    if Withheld in outcomes then AttributeSensitive
    else if Unavailable in outcomes then AttributeTypeInvalid
    else if TooSmall in outcomes then BufferTooSmall
    else CkrOk
  }

  /** An engine error other than the two expected ones stops the loop at the first entry that meets it. */
  function ReturnCode(outcomes: seq<Outcome>): Rv {
    if exists i :: 0 <= i < |outcomes| && outcomes[i].Failed? then FirstFailure(outcomes) else Summary(outcomes)
  }

  function FirstFailure(outcomes: seq<Outcome>): (rv: Failure)
    requires exists i :: 0 <= i < |outcomes| && outcomes[i].Failed?
    ensures Failed(rv) in outcomes
  {
    if outcomes[0].Failed? then outcomes[0].rv
    else
      assert exists i :: 0 <= i < |outcomes[1..]| && outcomes[1..][i].Failed? by {
        var i :| 0 <= i < |outcomes| && outcomes[i].Failed?;
        assert outcomes[1..][i - 1].Failed?;
      }
      FirstFailure(outcomes[1..])
  }

  lemma {:induction false} FirstFailureIs(outcomes: seq<Outcome>, k: nat)
    requires k < |outcomes| && outcomes[k].Failed? && forall i :: 0 <= i < k ==> !outcomes[i].Failed?
    ensures FirstFailure(outcomes) == outcomes[k].rv
  {
    if k > 0 {
      assert outcomes[1..][k - 1].Failed?;
      FirstFailureIs(outcomes[1..], k - 1);
    }
  }

  /** How far the loop gets. */
  function Reached(outcomes: seq<Outcome>): (n: nat)
    ensures n <= |outcomes|
    ensures forall i :: 0 <= i < n ==> !outcomes[i].Failed?
    ensures n < |outcomes| ==> outcomes[n].Failed?
  {
    if outcomes == [] || outcomes[0].Failed? then 0 else 1 + Reached(outcomes[1..])
  }

  /** One entry: report the length, refuse a short buffer, or copy. */
  method FillEntry(r: Result<Bytes>, x: Entry) returns (y: Entry, outcome: Outcome)
    requires ValidEntry(x)
    ensures y == Filled(r, x) && outcome == OutcomeOf(r, x)
  {
    match r
    case Ok(v) =>
      if x.buffer.None? {
        return x.(len := |v|), Delivered;
      }
      if x.len < |v| {
        return x.(len := CK_UNAVAILABLE_INFORMATION), TooSmall;
      }
      return x.(buffer := Some(v + x.buffer.value[|v|..]), len := |v|), Delivered;
    case Err(code) =>
      if code == AttributeSensitive {
        return x.(len := CK_UNAVAILABLE_INFORMATION), Withheld;
      }
      if code == AttributeTypeInvalid {
        return x.(len := CK_UNAVAILABLE_INFORMATION), Unavailable;
      }
      return x, Failed(code);
  }

  /** The loop itself, filling the caller's array in place. */
  method GetAttributes(engine: Option<Engine>, o: KeyObject, a: array<Entry>) returns (rv: Rv)
    requires forall i :: 0 <= i < a.Length ==> ValidEntry(a[i])
    modifies a
    ensures var outcomes := Outcomes(engine, o, old(a[..]));
            && rv == ReturnCode(outcomes)
            && (forall i :: 0 <= i < a.Length ==>
                  a[i] == if i < Reached(outcomes) then Filled(ReadAttribute(engine, o, old(a[i]).typ), old(a[i]))
                    else old(a[i]))
  {
    hide ReadAttribute, FirstFailure, Reached, Filled, OutcomeOf;
    ghost var outcomes := Outcomes(engine, o, a[..]);
    var anyTooSmall, anySensitive, anyUnavailable := false, false, false;
    var i := 0;
    while i < a.Length
      invariant 0 <= i <= a.Length
      invariant i <= Reached(outcomes)
      invariant forall j :: 0 <= j < i ==> a[j] == Filled(ReadAttribute(engine, o, old(a[j]).typ), old(a[j]))
      invariant forall j :: i <= j < a.Length ==> a[j] == old(a[j])
      invariant anySensitive <==> Withheld in outcomes[..i]
      invariant anyUnavailable <==> Unavailable in outcomes[..i]
      invariant anyTooSmall <==> TooSmall in outcomes[..i]
    {
      var y, outcome := FillEntry(ReadAttribute(engine, o, a[i].typ), a[i]);
      assert outcomes[..i + 1] == outcomes[..i] + [outcome];
      if outcome.Failed? {
        FirstFailureIs(outcomes, i);
        FailedFillsNothing(ReadAttribute(engine, o, a[i].typ), a[i]);
        return outcome.rv;
      }
      a[i] := y;
      anySensitive := anySensitive || outcome == Withheld;
      anyUnavailable := anyUnavailable || outcome == Unavailable;
      anyTooSmall := anyTooSmall || outcome == TooSmall;
      i := i + 1;
    }
    assert outcomes[..a.Length] == outcomes;
    return if anySensitive then AttributeSensitive
           else if anyUnavailable then AttributeTypeInvalid
           else if anyTooSmall then BufferTooSmall
           else CkrOk;
  }

  lemma FailedFillsNothing(r: Result<Bytes>, x: Entry)
    requires ValidEntry(x) && OutcomeOf(r, x).Failed?
    ensures Filled(r, x) == x
  {
  }

  // ---- Order ------------------------------------------------------------------------------------------------

  lemma SameMembers(a: seq<Entry>, b: seq<Entry>, engine: Option<Engine>, o: KeyObject, x: Outcome)
    requires multiset(a) == multiset(b) && x in Outcomes(engine, o, a)
    ensures x in Outcomes(engine, o, b)
  {
    var i :| 0 <= i < |a| && Outcomes(engine, o, a)[i] == x;
    assert a[i] in multiset(a);
    assert a[i] in b;
    var j :| 0 <= j < |b| && b[j] == a[i];
    assert Outcomes(engine, o, b)[j] == x;
  }

  /** All entries that fail, fail with the same code. */
  predicate OneFailure(outcomes: seq<Outcome>) {
    forall i, j :: 0 <= i < |outcomes| && 0 <= j < |outcomes| && outcomes[i].Failed? && outcomes[j].Failed?
      ==> outcomes[i] == outcomes[j]
  }

  lemma SameCode(engine: Option<Engine>, o: KeyObject, a: seq<Entry>, b: seq<Entry>)
    requires multiset(a) == multiset(b) && OneFailure(Outcomes(engine, o, a))
    ensures ReturnCode(Outcomes(engine, o, a)) == ReturnCode(Outcomes(engine, o, b))
  {
    hide Outcomes, FirstFailure, ReadAttribute;
    var p, q := Outcomes(engine, o, a), Outcomes(engine, o, b);
    forall x ensures x in p <==> x in q {
      if x in p { SameMembers(a, b, engine, o, x); }
      if x in q { SameMembers(b, a, engine, o, x); }
    }
    if exists i :: 0 <= i < |p| && p[i].Failed? {
      var i :| 0 <= i < |p| && p[i].Failed?;
      assert p[i] in q;
      var j :| 0 <= j < |q| && q[j] == p[i];
      assert Failed(FirstFailure(p)) in p && Failed(FirstFailure(q)) in p;
    } else {
      assert forall j :: 0 <= j < |q| ==> q[j] in p;
    }
  }

  lemma MoveToFront(a: seq<Entry>, k: nat)
    requires k < |a|
    ensures multiset([a[k]] + a[..k] + a[k + 1..]) == multiset(a)
  {
    assert a == a[..k] + [a[k]] + a[k + 1..];
  }

  lemma HeadFailureWins(engine: Option<Engine>, o: KeyObject, a: seq<Entry>, rv: Failure)
    requires |a| > 0 && ReadAttribute(engine, o, a[0].typ) == Err(rv)
    requires rv != AttributeSensitive && rv != AttributeTypeInvalid
    ensures ReturnCode(Outcomes(engine, o, a)) == rv
  {
    hide ReadAttribute;
    FirstFailureIs(Outcomes(engine, o, a), 0);
  }

  lemma FrontFailureWins(engine: Option<Engine>, o: KeyObject, a: seq<Entry>, k: nat)
    requires k < |a| && Outcomes(engine, o, a)[k].Failed?
    ensures ReturnCode(Outcomes(engine, o, [a[k]] + a[..k] + a[k + 1..])) == Outcomes(engine, o, a)[k].rv
  {
    hide ReadAttribute;
    var outcomes := Outcomes(engine, o, [a[k]] + a[..k] + a[k + 1..]);
    assert outcomes[0] == Outcomes(engine, o, a)[k];
    FirstFailureIs(outcomes, 0);
  }

  /**
   The return code is the same under every permutation of the template exactly when no
   two entries fail with different engine errors; in particular whenever the engine
   answers only with a value, sensitive or invalid-type.
   */
  lemma OrderIrrelevantExact(engine: Option<Engine>, o: KeyObject, a: seq<Entry>)
    ensures OneFailure(Outcomes(engine, o, a)) <==>
            forall b :: multiset(b) == multiset(a) ==>
              ReturnCode(Outcomes(engine, o, b)) == ReturnCode(Outcomes(engine, o, a))
  {
    hide Outcomes, ReturnCode, FirstFailure, OutcomeOf, ReadAttribute;
    var p := Outcomes(engine, o, a);
    if OneFailure(p) {
      forall b | multiset(b) == multiset(a) ensures ReturnCode(Outcomes(engine, o, b)) == ReturnCode(p) {
        SameCode(engine, o, a, b);
      }
    } else {
      var i, j :| 0 <= i < |p| && 0 <= j < |p| && p[i].Failed? && p[j].Failed? && p[i] != p[j];
      MoveToFront(a, i);
      MoveToFront(a, j);
      FrontFailureWins(engine, o, a, i);
      FrontFailureWins(engine, o, a, j);
    }
  }

  predicate EngineFailure(r: Result<Bytes>) {
    r.Err? && r.error != AttributeSensitive && r.error != AttributeTypeInvalid
  }

  /** For this object the engine fails with one code at most, whatever it is asked for. */
  ghost predicate OneCode(e: Engine, o: KeyObject) {
    forall t, u ::
      var r, q := e.attribute(o.keyType, o.keyRef, t), e.attribute(o.keyType, o.keyRef, u);
      EngineFailure(r) && EngineFailure(q) ==> r == q
  }

  /** With such an engine, or none, the order of the template never matters. */
  lemma OneCodeOrderIrrelevant(engine: Option<Engine>, o: KeyObject, a: seq<Entry>, b: seq<Entry>)
    requires (engine.Some? ==> OneCode(engine.value, o)) && multiset(a) == multiset(b)
    ensures ReturnCode(Outcomes(engine, o, a)) == ReturnCode(Outcomes(engine, o, b))
  {
    hide ReturnCode, AccessAllowed, FieldAttribute, PrivateKeyObject, PrivateComponent;
    SameCode(engine, o, a, b);
  }

  /** The template of a public RSA key without its modulus and exponent. */
  const BARE_PUBLIC_KEY: Template :=
    [TemplateEntry(CKA_CLASS, Some(UlongBytes(CKO_PUBLIC_KEY)), 0),
     TemplateEntry(CKA_KEY_TYPE, Some(UlongBytes(CKK_RSA)), 0)]

  lemma BareAttributes()
    ensures CollectTemplate(BARE_PUBLIC_KEY) ==
            map[CKA_CLASS := UlongBytes(CKO_PUBLIC_KEY), CKA_KEY_TYPE := UlongBytes(CKK_RSA)]
  {
    hide UlongBytes;
    var first := [BARE_PUBLIC_KEY[0]];
    assert BARE_PUBLIC_KEY[..1] == first && first[..0] == [];
    assert CollectTemplate(first) == map[CKA_CLASS := UlongBytes(CKO_PUBLIC_KEY)];
  }

  /** `C_CreateObject` accepts it, and the engine is asked for what it lacks. */
  lemma BareKeyAsksEngine(e: Engine, st: State, h: SessionHandle, t: AttributeType)
    requires h in st.sessions && (t == CKA_MODULUS || t == CKA_PUBLIC_EXPONENT)
    ensures var (st', out) := CreateObjectStep(st, h, BARE_PUBLIC_KEY);
            && out.rv == CkrOk && st.nextHandle in st'.objects
            && var o := st'.objects[st.nextHandle];
               ReadAttribute(Some(e), o, t) == e.attribute(RsaPublic, [], t)
  {
    hide BytesToUlong, UlongBytes, CollectTemplate, Persist;
    BareAttributes();
    UlongRoundTrip(CKO_PUBLIC_KEY);
    UlongRoundTrip(CKK_RSA);
  }

  /** The engine `e`, failing for the modulus with one code and for everything else with another. */
  function TwoFailures(e: Engine): Engine {
    e.(attribute := (_, _, t) => if t == CKA_MODULUS then Err(GeneralError) else Err(DataInvalid))
  }

  /**
   On a key the library lets a caller create, and an engine with two failure codes: the
   same two entries in the other order give another return code.
   */
  lemma OrderCanMatter(e: Engine, st: State, h: SessionHandle)
    requires h in st.sessions
    ensures var (st', out) := CreateObjectStep(st, h, BARE_PUBLIC_KEY);
            var x, y := Entry(CKA_MODULUS, None, 0), Entry(CKA_PUBLIC_EXPONENT, None, 0);
            && out.rv == CkrOk && st.nextHandle in st'.objects && multiset([x, y]) == multiset([y, x])
            && var o := st'.objects[st.nextHandle];
               && ReturnCode(Outcomes(Some(TwoFailures(e)), o, [x, y])) == GeneralError
               && ReturnCode(Outcomes(Some(TwoFailures(e)), o, [y, x])) == DataInvalid
  {
    hide Outcomes, ReturnCode, OutcomeOf, ReadAttribute, CreateObjectStep;
    BareKeyAsksEngine(TwoFailures(e), st, h, CKA_MODULUS);
    BareKeyAsksEngine(TwoFailures(e), st, h, CKA_PUBLIC_EXPONENT);
    var o := CreateObjectStep(st, h, BARE_PUBLIC_KEY).0.objects[st.nextHandle];
    var x, y := Entry(CKA_MODULUS, None, 0), Entry(CKA_PUBLIC_EXPONENT, None, 0);
    HeadFailureWins(Some(TwoFailures(e)), o, [x, y], GeneralError);
    HeadFailureWins(Some(TwoFailures(e)), o, [y, x], DataInvalid);
  }

  // ---- Query, then fetch ----------------------------------------------------------------------------------------

  /** The caller asks with null buffers, then comes back with buffers at least as long as reported. */
  predicate AnswersQuery(engine: Option<Engine>, o: KeyObject, query: seq<Entry>, fetch: seq<Entry>) {
    && |fetch| == |query|
    && forall i :: 0 <= i < |query| ==>
         && query[i].buffer.None? && fetch[i].typ == query[i].typ && fetch[i].buffer.Some? && ValidEntry(fetch[i])
         && (ReadAttribute(engine, o, query[i].typ).Ok? ==>
             Filled(ReadAttribute(engine, o, query[i].typ), query[i]).len <= fetch[i].len)
  }

  /**
   The second call returns the same code as the query, never too-small, and every
   attribute the query sized is delivered whole at the start of its buffer.
   */
  lemma QueryThenFetch(engine: Option<Engine>, o: KeyObject, query: seq<Entry>, fetch: seq<Entry>)
    requires AnswersQuery(engine, o, query, fetch)
    ensures Outcomes(engine, o, fetch) == Outcomes(engine, o, query)
    ensures TooSmall !in Outcomes(engine, o, fetch)
    ensures forall i :: 0 <= i < |fetch| && ReadAttribute(engine, o, fetch[i].typ).Ok? ==>
              var v := ReadAttribute(engine, o, fetch[i].typ).value;
              Filled(Ok(v), fetch[i]).len == |v| <= |Filled(Ok(v), fetch[i]).buffer.value|
              && Filled(Ok(v), fetch[i]).buffer.value[..|v|] == v
  {
  }

  // ---- Locked keys -----------------------------------------------------------------------------------------------

  /** Asked for a secret attribute of a locked key, the call reports sensitive and writes nothing into the buffer. */
  lemma LockedKeyIsWithheld(engine: Option<Engine>, o: KeyObject, lock: Lock, entries: seq<Entry>, i: nat)
    requires Locked(lock, o.attrs) && i < |entries| && SecretAttribute(entries[i].typ) && ValidEntry(entries[i])
    ensures Outcomes(engine, o, entries)[i] == Withheld
    ensures Filled(ReadAttribute(engine, o, entries[i].typ), entries[i]).buffer == entries[i].buffer
    ensures ReturnCode(Outcomes(engine, o, entries)) != CkrOk
  {
  }

  /**
   Over whole runs: whatever calls, copies, restarts and durable crashes happen, no member
   of a locked lineage yields a secret attribute to a query, and no member of an
   unextractable one is ever delivered by `C_WrapKey`.
   */
  lemma LineageNeverYields(e: Engine, st: State, calls: seq<Call>, lock: Lock, lineage: set<ObjectHandle>,
                           key: ObjectHandle,
                           entries: seq<Entry>, i: nat,
                           h: SessionHandle, mech: MechanismType, wrappingKey: ObjectHandle, buf: OutBuf)
    requires Inv(st) && Fits(st, TotalDraws(calls)) && lineage <= Known(st)
    requires AllLocked(lock, st, lineage) && WellFormedAlong(e, st, calls, lineage)
    requires CrashesAreDurable(e, st, calls, lock, lineage)
    requires After(e, st, calls).initialized && key in LineageAfter(e, st, calls, lineage)
    requires i < |entries| && SecretAttribute(entries[i].typ) && ValidEntry(entries[i])
    ensures var st' := After(e, st, calls);
            key in st'.objects ==>
              var o := st'.objects[key];
              var engine := EngineAt(e, st', o.slot);
              && Outcomes(engine, o, entries)[i] == Withheld && ReturnCode(Outcomes(engine, o, entries)) != CkrOk
              && Filled(ReadAttribute(engine, o, entries[i].typ), entries[i]).buffer == entries[i].buffer
    ensures lock == Unextractable ==>
              OpStep(e, After(e, st, calls), h, SessionOperations.WrapKey(mech, wrappingKey, key, buf)).1.bytes == None
  {
    hide After, LineageAfter, Inv, WellFormedAlong, CrashesAreDurable, StaysLocked, Known, ReadAttribute, Outcomes;
    hide ReturnCode, Filled, OpStep, Locked, Durable;
    LineageLockedExact(e, st, calls, lock, lineage);
    StaysLockedNow(e, st, calls, lock, lineage);
    var st' := After(e, st, calls);
    if key in st'.objects {
      var o := st'.objects[key];
      LockedKeyIsWithheld(EngineAt(e, st', o.slot), o, lock, entries, i);
      LockedKeyStaysInside(e, st', lock, key, entries[i].typ, h, mech, wrappingKey, buf);
    } else {
      AbsentKeyNotWrapped(e, st', key, h, mech, wrappingKey, buf);
    }
  }

  // ---- The entry point --------------------------------------------------------------------------------------------

  /** The session must exist and the object be on its slot. */
  function QueryTarget(st: State, h: SessionHandle, target: ObjectHandle): Result<KeyObject> {
    if !st.initialized then Err(CryptokiNotInitialized)
    else if h !in st.sessions then Err(SessionHandleInvalid)
    else
      match ObjectOnSlot(st.objects, target, st.sessions[h].slot)
      case Some(o) => Ok(o)
      case None => Err(ObjectHandleInvalid)
  }

  /** `C_GetAttributeValue`: without a target nothing is written, otherwise the loop runs over the object. */
  method GetAttributeValue(e: Engine, st: State, h: SessionHandle, target: ObjectHandle, a: array<Entry>)
    returns (rv: Rv)
    requires forall i :: 0 <= i < a.Length ==> ValidEntry(a[i])
    modifies a
    ensures QueryTarget(st, h, target).Err? ==> rv == QueryTarget(st, h, target).error && a[..] == old(a[..])
    ensures QueryTarget(st, h, target).Ok? ==>
              var o := QueryTarget(st, h, target).value;
              var engine := EngineAt(e, st, o.slot);
              var outcomes := Outcomes(engine, o, old(a[..]));
              && rv == ReturnCode(outcomes)
              && forall i :: 0 <= i < a.Length ==>
                   a[i] == if i < Reached(outcomes) then Filled(ReadAttribute(engine, o, old(a[i]).typ), old(a[i]))
                     else old(a[i])
  {
    hide ReadAttribute, Filled, Outcomes, ReturnCode, Reached;
    var found := QueryTarget(st, h, target);
    if found.Err? {
      return found.error;
    }
    rv := GetAttributes(EngineAt(e, st, found.value.slot), found.value, a);
  }
}
