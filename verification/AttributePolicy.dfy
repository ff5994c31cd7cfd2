/**
 Attribute policy: one-way ratchets, immutable attributes, access control on
 secret attributes and the history flags.
 */
module AttributePolicy {
  import opened Types
  import opened Objects

  /** Attributes fixed at creation. */
  predicate Immutable(attr: AttributeType) {
    || attr == CKA_CLASS || attr == CKA_KEY_TYPE || attr == CKA_MODULUS
    || attr == CKA_EC_PARAMS || attr == CKA_MODULUS_BITS || attr == CKA_VALUE_LEN
  }

  /** May `attr` go from its current value to the proposed one? */
  predicate ChangeAllowed(attr: AttributeType, current: Option<Bytes>, proposed: Bytes) {
    if attr == CKA_SENSITIVE || attr == CKA_WRAP_WITH_TRUSTED then
      var wasTrue := current.Some? && IsTrue(current.value);
      var goingFalse := |proposed| > 0 && proposed[0] == CK_FALSE;
      !(wasTrue && goingFalse)
    else if attr == CKA_EXTRACTABLE then
      var wasFalse := current.Some? && (|current.value| == 0 || current.value[0] == CK_FALSE);
      var goingTrue := IsTrue(proposed);
      !(wasFalse && goingTrue)
    else
      !Immutable(attr)
  }

  predicate SecretAttribute(attr: AttributeType) {
    || attr == CKA_VALUE || attr == CKA_PRIVATE_EXPONENT || attr == CKA_PRIME_1 || attr == CKA_PRIME_2
    || attr == CKA_EXPONENT_1 || attr == CKA_EXPONENT_2 || attr == CKA_COEFFICIENT
  }

  /** Objects whose payload is public by class. */
  predicate PublicClass(attrs: Attributes) {
    CKA_CLASS in attrs
      && (BytesToUlong(attrs[CKA_CLASS]) == CKO_DATA || BytesToUlong(attrs[CKA_CLASS]) == CKO_PUBLIC_KEY)
  }

  /** `check_attribute_access`: false means `CKR_ATTRIBUTE_SENSITIVE`. */
  predicate AccessAllowed(attr: AttributeType, o: KeyObject) {
    || !SecretAttribute(attr)
    || PublicClass(o.attrs)
    || (!AttrTrue(o.attrs, CKA_SENSITIVE) && AttrTrue(o.attrs, CKA_EXTRACTABLE))
  }

  /** `update_derived_attributes`, run after the new value is in place. */
  function UpdateDerived(o: KeyObject, changed: AttributeType): KeyObject {
    if changed == CKA_SENSITIVE then
      if CKA_SENSITIVE in o.attrs && |o.attrs[CKA_SENSITIVE]| > 0 && o.attrs[CKA_SENSITIVE][0] == CK_FALSE
      then o.(alwaysSensitive := false) else o
    else if changed == CKA_EXTRACTABLE then
      if AttrTrue(o.attrs, CKA_EXTRACTABLE) then o.(neverExtractable := false) else o
    else o
  }

  /** One accepted write of `C_SetAttributeValue`. */
  function WriteAttribute(o: KeyObject, t: AttributeType, v: Bytes): KeyObject {
    UpdateDerived(o.(attrs := o.attrs[t := v]), t)
  }

  /**
   The `C_SetAttributeValue` loop: null values are skipped, the first refused entry
   stops the loop and leaves the writes before it in place.
   */
  function ApplyTemplate(o: KeyObject, template: Template): (KeyObject, Rv)
    decreases |template|
  {
    if template == [] then (o, CkrOk)
    else
      var e := template[0];
      match e.value
      case None => ApplyTemplate(o, template[1..])
      case Some(v) =>
        if ChangeAllowed(e.typ, Lookup(o.attrs, e.typ), v)
        then ApplyTemplate(WriteAttribute(o, e.typ, v), template[1..])
        else (o, AttributeReadOnly)
  }

  /** Every override of a copy must be an allowed change of the source's value. */
  predicate OverridesAllowed(attrs: Attributes, overrides: Attributes) {
    forall k :: k in overrides ==> ChangeAllowed(k, Lookup(attrs, k), overrides[k])
  }

  // ---- What the ratchets keep ----------------------------------------------------

  /** `CKA_EXTRACTABLE` is present and false (empty counts as false). */
  predicate ExplicitlyUnextractable(attrs: Attributes) {
    CKA_EXTRACTABLE in attrs && (|attrs[CKA_EXTRACTABLE]| == 0 || attrs[CKA_EXTRACTABLE][0] == CK_FALSE)
  }

  /** A secret or private key that the policy has locked away. */
  predicate Sealed(o: KeyObject) {
    !PublicClass(o.attrs) && (AttrTrue(o.attrs, CKA_SENSITIVE) || ExplicitlyUnextractable(o.attrs))
  }

  predicate Ratcheted(t: AttributeType) {
    t == CKA_SENSITIVE || t == CKA_EXTRACTABLE
  }

  /** Every value the template proposes for the two ratcheted attributes is a proper boolean. */
  predicate WellFormedTemplate(template: Template) {
    forall i :: 0 <= i < |template| && Ratcheted(template[i].typ)
      ==> template[i].value.Some? ==> WellFormedBool(template[i].value.value)
  }

  predicate WellFormedAttributes(attrs: Attributes) {
    && (CKA_SENSITIVE in attrs ==> WellFormedBool(attrs[CKA_SENSITIVE]))
    && (CKA_EXTRACTABLE in attrs ==> WellFormedBool(attrs[CKA_EXTRACTABLE]))
  }

  /**
   The sensitive ratchet is exact: an accepted write to a sensitive key keeps it
   sensitive if and only if the proposed value is a proper boolean.
   */
  lemma SensitiveRatchetExact(o: KeyObject, v: Bytes)
    requires AttrTrue(o.attrs, CKA_SENSITIVE)
    requires ChangeAllowed(CKA_SENSITIVE, Lookup(o.attrs, CKA_SENSITIVE), v)
    ensures AttrTrue(WriteAttribute(o, CKA_SENSITIVE, v).attrs, CKA_SENSITIVE) <==> WellFormedBool(v)
  {
  }

  /** Likewise for an explicit `CKA_EXTRACTABLE = FALSE`, where an empty value also counts as false. */
  lemma ExtractableRatchetExact(o: KeyObject, v: Bytes)
    requires ExplicitlyUnextractable(o.attrs)
    requires ChangeAllowed(CKA_EXTRACTABLE, Lookup(o.attrs, CKA_EXTRACTABLE), v)
    ensures ExplicitlyUnextractable(WriteAttribute(o, CKA_EXTRACTABLE, v).attrs) <==> (v == [] || WellFormedBool(v))
  {
  }

  /** A malformed boolean steps past the ratchet: TRUE, then 2, then FALSE are all accepted. */
  lemma MalformedBooleanBreaksRatchet()
    ensures ChangeAllowed(CKA_SENSITIVE, Some([CK_TRUE]), [2])
    ensures ChangeAllowed(CKA_SENSITIVE, Some([2]), [CK_FALSE])
    ensures !ChangeAllowed(CKA_SENSITIVE, Some([CK_TRUE]), [CK_FALSE])
  {
  }

  /** What never changes about an object, whatever the template. */
  predicate SameIdentity(o: KeyObject, o': KeyObject) {
    && o'.handle == o.handle && o'.slot == o.slot && o'.keyType == o.keyType && o'.keyRef == o.keyRef
    && o'.creatingSession == o.creatingSession && o'.alwaysAuthenticate == o.alwaysAuthenticate
    && o'.local == o.local && o'.keyGenMechanism == o.keyGenMechanism
  }

  /** Immutable attributes survive every template, accepted or not, and so does the object's identity. */
  lemma {:induction false} ApplyTemplateKeepsIdentity(o: KeyObject, template: Template)
    ensures SameIdentity(o, ApplyTemplate(o, template).0)
    ensures forall t :: Immutable(t) ==> Lookup(ApplyTemplate(o, template).0.attrs, t) == Lookup(o.attrs, t)
    ensures PublicClass(ApplyTemplate(o, template).0.attrs) == PublicClass(o.attrs)
    decreases |template|
  {
    hide BytesToUlong;
    if template != [] {
      var e := template[0];
      match e.value
      case None => ApplyTemplateKeepsIdentity(o, template[1..]);
      case Some(v) =>
        if ChangeAllowed(e.typ, Lookup(o.attrs, e.typ), v) {
          ApplyTemplateKeepsIdentity(WriteAttribute(o, e.typ, v), template[1..]);
        }
    }
    assert Lookup(ApplyTemplate(o, template).0.attrs, CKA_CLASS) == Lookup(o.attrs, CKA_CLASS);
  }

  /** A sealed object stays sealed under every well-formed template, refused or not. */
  lemma {:induction false} ApplyTemplateKeepsSealed(o: KeyObject, template: Template)
    requires WellFormedTemplate(template)
    ensures AttrTrue(o.attrs, CKA_SENSITIVE) ==> AttrTrue(ApplyTemplate(o, template).0.attrs, CKA_SENSITIVE)
    ensures ExplicitlyUnextractable(o.attrs) ==> ExplicitlyUnextractable(ApplyTemplate(o, template).0.attrs)
    ensures Sealed(o) ==> Sealed(ApplyTemplate(o, template).0)
    decreases |template|
  {
    ApplyTemplateKeepsIdentity(o, template);
    if template != [] {
      assert WellFormedTemplate(template[1..]) by {
        assert forall i :: 0 <= i < |template[1..]| ==> template[1..][i] == template[i + 1];
      }
      var e := template[0];
      match e.value
      case None => ApplyTemplateKeepsSealed(o, template[1..]);
      case Some(v) =>
        if ChangeAllowed(e.typ, Lookup(o.attrs, e.typ), v) {
          assert Ratcheted(e.typ) ==> WellFormedBool(v);
          ApplyTemplateKeepsSealed(WriteAttribute(o, e.typ, v), template[1..]);
        }
    }
  }

  /** The two history flags are backed by the attributes they speak about. */
  predicate FlagsTruthful(o: KeyObject) {
    && (o.alwaysSensitive ==> AttrTrue(o.attrs, CKA_SENSITIVE))
    && (o.neverExtractable ==> ExplicitlyUnextractable(o.attrs))
  }

  /** Well-formed writes keep the flags truthful and never raise a lowered flag. */
  lemma {:induction false} ApplyTemplateKeepsFlags(o: KeyObject, template: Template)
    requires WellFormedTemplate(template) && FlagsTruthful(o)
    ensures var o' := ApplyTemplate(o, template).0;
            && FlagsTruthful(o')
            && (o'.alwaysSensitive ==> o.alwaysSensitive)
            && (o'.neverExtractable ==> o.neverExtractable)
    decreases |template|
  {
    if template != [] {
      assert WellFormedTemplate(template[1..]) by {
        assert forall i :: 0 <= i < |template[1..]| ==> template[1..][i] == template[i + 1];
      }
      var e := template[0];
      match e.value
      case None => ApplyTemplateKeepsFlags(o, template[1..]);
      case Some(v) =>
        if ChangeAllowed(e.typ, Lookup(o.attrs, e.typ), v) {
          assert Ratcheted(e.typ) ==> WellFormedBool(v);
          ApplyTemplateKeepsFlags(WriteAttribute(o, e.typ, v), template[1..]);
        }
    }
  }

  // ---- The loops over templates -----------------------------------------------------

  /** `C_SetAttributeValue`'s loop over the caller's template. */
  method SetAttributes(o: KeyObject, template: Template) returns (r: KeyObject, rv: Rv)
    ensures (r, rv) == ApplyTemplate(o, template)
  {
    r := o;
    var i := 0;
    while i < |template|
      invariant 0 <= i <= |template|
      invariant ApplyTemplate(r, template[i..]) == ApplyTemplate(o, template)
    {
      assert template[i..][1..] == template[i + 1..];
      var e := template[i];
      if e.value.Some? {
        if !ChangeAllowed(e.typ, Lookup(r.attrs, e.typ), e.value.value) {
          return r, AttributeReadOnly;
        }
        r := r.(attrs := r.attrs[e.typ := e.value.value]);
        r := UpdateDerived(r, e.typ);
      }
      i := i + 1;
    }
    return r, CkrOk;
  }

  ghost function AllowedKeys(attrs: Attributes, overrides: Attributes): set<AttributeType> {
    set k | k in overrides && ChangeAllowed(k, Lookup(attrs, k), overrides[k])
  }

  /** `merged` holds the overrides handled so far, `todo` the keys still in the hash map's iterator. */
  ghost predicate Pending(attrs: Attributes, overrides: Attributes, merged: Attributes, todo: set<AttributeType>,
                          allowed: set<AttributeType>) {
    && todo <= overrides.Keys <= todo + allowed
    && (forall k :: Lookup(merged, k) == if k in overrides && k !in todo then Some(overrides[k]) else Lookup(attrs, k))
  }

  lemma PendingDone(attrs: Attributes, overrides: Attributes, merged: Attributes, allowed: set<AttributeType>)
    requires Pending(attrs, overrides, merged, {}, allowed) && allowed == AllowedKeys(attrs, overrides)
    ensures merged == attrs + overrides && OverridesAllowed(attrs, overrides)
  {
  }

  /**
   `C_CopyObject`'s loop over the overrides, which come out of a hash map in any
   order: each key is checked against the growing map, yet the outcome is the one
   the source's attributes alone decide.
   */
  method ApplyOverrides(attrs: Attributes, overrides: Attributes) returns (r: Result<Attributes>)
    ensures r == if OverridesAllowed(attrs, overrides) then Ok(attrs + overrides) else Err(AttributeReadOnly)
  {
    hide ChangeAllowed;
    ghost var allowed := AllowedKeys(attrs, overrides);
    var merged, todo := attrs, overrides.Keys;
    while todo != {}
      invariant Pending(attrs, overrides, merged, todo, allowed)
      decreases |todo|
    {
      var k :| k in todo;
      if !ChangeAllowed(k, Lookup(merged, k), overrides[k]) {
        return Err(AttributeReadOnly);
      }
      merged, todo := merged[k := overrides[k]], todo - {k};
    }
    PendingDone(attrs, overrides, merged, allowed);
    return Ok(merged);
  }

  /** `collect_template`: a loop over the caller's array, later entries replacing earlier ones. */
  method Collect(t: Template) returns (m: Attributes)
    ensures m == CollectTemplate(t)
  {
    m := map[];
    for i := 0 to |t|
      invariant m == CollectTemplate(t[..i])
    {
      assert t[..i + 1][..i] == t[..i];
      var v := EntryBytes(t[i]);
      if v.Some? {
        m := m[t[i].typ := v.value];
      }
    }
    assert t[..|t|] == t;
  }
}
