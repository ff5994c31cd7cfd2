/**
 What a `C_SetAttributeValue` template does to an object, read off the object and the
 template alone: where the first refusal is, and what every attribute holds by then.
 */
module TemplateWrites {
  import opened Types
  import opened Objects
  import opened AttributePolicy

  /** The value of `t` once the first `k` entries are written: the last of them that has one, else the object's. */
  function ValueBefore(attrs: Attributes, template: Template, k: nat, t: AttributeType): Option<Bytes>
    requires k <= |template|
  {
    if k == 0 then Lookup(attrs, t)
    else if template[k - 1].typ == t && template[k - 1].value.Some? then template[k - 1].value
    else ValueBefore(attrs, template, k - 1, t)
  }

  /** Entry `k` is immutable, or turns back a ratchet from the value its attribute has by then. */
  predicate Refused(attrs: Attributes, template: Template, k: nat)
    requires k < |template|
  {
    var e := template[k];
    e.value.Some? && !ChangeAllowed(e.typ, ValueBefore(attrs, template, k, e.typ), e.value.value)
  }

  /** The first refused entry at or after `k`, or the template's length. */
  function RefusedFrom(attrs: Attributes, template: Template, k: nat): (n: nat)
    requires k <= |template|
    ensures k <= n <= |template|
    ensures forall i :: k <= i < n ==> !Refused(attrs, template, i)
    ensures n < |template| ==> Refused(attrs, template, n)
    decreases |template| - k
  {
    if k == |template| || Refused(attrs, template, k) then k else RefusedFrom(attrs, template, k + 1)
  }

  function FirstRefused(attrs: Attributes, template: Template): (n: nat)
    ensures n <= |template|
  {
    RefusedFrom(attrs, template, 0)
  }

  /** The attributes after the template's first entry, when that is not refused. */
  function AfterFirst(attrs: Attributes, e: TemplateEntry): Attributes {
    if e.value.Some? then attrs[e.typ := e.value.value] else attrs
  }

  lemma {:induction false} ValueAfterFirst(attrs: Attributes, template: Template, k: nat, t: AttributeType)
    requires k < |template|
    ensures ValueBefore(attrs, template, k + 1, t) == ValueBefore(AfterFirst(attrs, template[0]), template[1..], k, t)
  {
    if k > 0 {
      ValueAfterFirst(attrs, template, k - 1, t);
    }
  }

  lemma RefusedAfterFirst(attrs: Attributes, template: Template, k: nat)
    requires k + 1 < |template|
    ensures Refused(attrs, template, k + 1) <==> Refused(AfterFirst(attrs, template[0]), template[1..], k)
  {
    hide ChangeAllowed;
    ValueAfterFirst(attrs, template, k, template[k + 1].typ);
  }

  lemma {:induction false} RefusedFromAfterFirst(attrs: Attributes, template: Template, k: nat)
    requires k < |template|
    ensures RefusedFrom(attrs, template, k + 1) == 1 + RefusedFrom(AfterFirst(attrs, template[0]), template[1..], k)
    decreases |template| - k
  {
    hide Refused;
    if k + 1 < |template| {
      RefusedAfterFirst(attrs, template, k);
      RefusedFromAfterFirst(attrs, template, k + 1);
    }
  }

  /**
   The loop writes exactly the entries before the first refused one: it succeeds if and
   only if there is none, and every attribute ends with its value by then.
   */
  lemma {:induction false} ApplyTemplateExact(o: KeyObject, template: Template)
    ensures var (o', rv) := ApplyTemplate(o, template);
            var k := FirstRefused(o.attrs, template);
            && rv == (if k < |template| then AttributeReadOnly else CkrOk)
            && (forall t :: Lookup(o'.attrs, t) == ValueBefore(o.attrs, template, k, t))
    decreases |template|
  {
    hide ChangeAllowed;
    if template != [] {
      var e := template[0];
      var rest := AfterFirst(o.attrs, e);
      RefusedFromAfterFirst(o.attrs, template, 0);
      if !Refused(o.attrs, template, 0) {
        var next := if e.value.Some? then WriteAttribute(o, e.typ, e.value.value) else o;
        assert next.attrs == rest;
        ApplyTemplateExact(next, template[1..]);
        var k := FirstRefused(rest, template[1..]);
        forall t ensures ValueBefore(o.attrs, template, k + 1, t) == ValueBefore(rest, template[1..], k, t) {
          if k < |template| { ValueAfterFirst(o.attrs, template, k, t); }
        }
      }
    }
  }

  // ---- Clean templates ------------------------------------------------------------------------------------

  predicate TokenValue(v: Option<Bytes>) {
    v.Some? && IsTrue(v.value)
  }

  /**
   The template leaves the object the kind it is, token or session, and if it is going
   to be refused on a persisted object, every attribute it writes before that ends with
   the value it has now.
   */
  predicate CleanTemplate(o: KeyObject, template: Template) {
    var k := FirstRefused(o.attrs, template);
    && TokenValue(ValueBefore(o.attrs, template, k, CKA_TOKEN)) == IsTokenObject(o)
    && (k < |template| && Persistable(o) ==>
          forall i :: 0 <= i < k ==>
            ValueBefore(o.attrs, template, k, template[i].typ) == Lookup(o.attrs, template[i].typ))
  }

  lemma {:induction false} UnwrittenValue(attrs: Attributes, template: Template, k: nat, t: AttributeType)
    requires k <= |template| && forall i :: 0 <= i < k ==> template[i].typ != t
    ensures ValueBefore(attrs, template, k, t) == Lookup(attrs, t)
  {
    if k > 0 {
      UnwrittenValue(attrs, template, k - 1, t);
    }
  }

  lemma SameLookups(a: Attributes, b: Attributes)
    ensures a == b <==> forall t :: Lookup(a, t) == Lookup(b, t)
  {
    if forall t :: Lookup(a, t) == Lookup(b, t) {
      forall t ensures t in a <==> t in b {
        assert Lookup(a, t) == Lookup(b, t);
      }
      forall t | t in a ensures a[t] == b[t] {
        assert Lookup(a, t) == Lookup(b, t);
      }
    }
  }

  /** Whether the template leaves the attributes as they are shows on the types it names. */
  lemma UnchangedExact(o: KeyObject, template: Template)
    ensures var k := FirstRefused(o.attrs, template);
            ApplyTemplate(o, template).0.attrs == o.attrs <==>
            forall i :: 0 <= i < k ==>
              ValueBefore(o.attrs, template, k, template[i].typ) == Lookup(o.attrs, template[i].typ)
  {
    hide ApplyTemplate, FirstRefused, ValueBefore;
    var o' := ApplyTemplate(o, template).0;
    var k := FirstRefused(o.attrs, template);
    ApplyTemplateExact(o, template);
    SameLookups(o'.attrs, o.attrs);
    if forall i :: 0 <= i < k ==>
      ValueBefore(o.attrs, template, k, template[i].typ) == Lookup(o.attrs, template[i].typ) {
      forall t ensures Lookup(o'.attrs, t) == Lookup(o.attrs, t) {
        if forall i :: 0 <= i < k ==> template[i].typ != t {
          UnwrittenValue(o.attrs, template, k, t);
        }
      }
    }
  }

  /** The kind of object the write leaves. */
  lemma KindAfter(o: KeyObject, template: Template)
    ensures IsTokenObject(ApplyTemplate(o, template).0) ==
            TokenValue(ValueBefore(o.attrs, template, FirstRefused(o.attrs, template), CKA_TOKEN))
  {
    hide ApplyTemplate, FirstRefused, ValueBefore;
    ApplyTemplateExact(o, template);
    var o' := ApplyTemplate(o, template).0;
    assert TokenValue(Lookup(o'.attrs, CKA_TOKEN)) == IsTokenObject(o');
  }

  /** Clean templates are those whose effect keeps the kind and leaves no unsaved change behind. */
  lemma CleanTemplateExact(o: KeyObject, template: Template)
    ensures var (o', rv) := ApplyTemplate(o, template);
            CleanTemplate(o, template) <==>
            IsTokenObject(o') == IsTokenObject(o) && (rv != CkrOk && Persistable(o) ==> o'.attrs == o.attrs)
  {
    hide ApplyTemplate, FirstRefused, ValueBefore;
    ApplyTemplateExact(o, template);
    UnchangedExact(o, template);
    var o' := ApplyTemplate(o, template).0;
    assert TokenValue(Lookup(o'.attrs, CKA_TOKEN)) == IsTokenObject(o');
  }

  /**
   A template that leaves `CKA_TOKEN` alone is clean if none of its entries is refused, or the object is not
   persisted.
   */
  lemma UntouchedTokenIsClean(o: KeyObject, template: Template)
    requires forall i :: 0 <= i < |template| ==> template[i].typ != CKA_TOKEN
    requires !Persistable(o) || forall i :: 0 <= i < |template| ==> !Refused(o.attrs, template, i)
    ensures CleanTemplate(o, template)
  {
    hide Refused;
    UnwrittenValue(o.attrs, template, FirstRefused(o.attrs, template), CKA_TOKEN);
  }

  /** `CKA_TOKEN` is not protected: for every object the write that flips it is accepted and not clean. */
  lemma FlippingTokenIsUnclean(o: KeyObject)
    ensures var flip := [TemplateEntry(CKA_TOKEN, Some(if IsTokenObject(o) then [CK_FALSE] else [CK_TRUE]), 0)];
            ApplyTemplate(o, flip).1 == CkrOk && !CleanTemplate(o, flip)
  {
    var flip := [TemplateEntry(CKA_TOKEN, Some(if IsTokenObject(o) then [CK_FALSE] else [CK_TRUE]), 0)];
    assert !Refused(o.attrs, flip, 0) && FirstRefused(o.attrs, flip) == 1;
    ApplyTemplateExact(o, flip);
  }

  /** A refused template keeps what it wrote before the refusal, and the call returns without saving it. */
  lemma PartialWriteIsUnclean(o: KeyObject, text: Bytes)
    requires Persistable(o) && Lookup(o.attrs, CKA_LABEL) != Some(text)
    ensures var partial := [TemplateEntry(CKA_LABEL, Some(text), 0), TemplateEntry(CKA_CLASS, Some([]), 0)];
            ApplyTemplate(o, partial).1 == AttributeReadOnly && !CleanTemplate(o, partial)
  {
    var partial := [TemplateEntry(CKA_LABEL, Some(text), 0), TemplateEntry(CKA_CLASS, Some([]), 0)];
    assert !Refused(o.attrs, partial, 0) && Refused(o.attrs, partial, 1) && FirstRefused(o.attrs, partial) == 1;
    ApplyTemplateExact(o, partial);
    assert ValueBefore(o.attrs, partial, 1, partial[0].typ) == Some(text);
  }
}
