/**
 Wrapping a key out of the token and unwrapping it back in.
 */
module KeyTransport {
  import opened Types
  import opened Backend
  import opened Sessions
  import opened SessionOperations
  import opened Machine
  import opened Tickets

  /** The engine's key-wrap law. */
  ghost predicate WrapLaw(e: Engine) {
    forall w, k, blob {:trigger e.keyWrap(w, k), e.keyUnwrap(w, blob)} :: e.keyWrap(w, k) == Ok(blob) ==>
      e.keyUnwrap(w, blob) == Ok(k)
  }

  predicate AesKeySize(n: nat) {
    n == 16 || n == 24 || n == 32
  }

  /**
   Whatever `C_WrapKey` delivers is the engine's wrapping of an extractable key under a wrapping key of the
   same slot.
   */
  lemma WrapDelivers(env: Env, s: Session, mech: MechanismType, wrappingKey: ObjectHandle, key: ObjectHandle,
                     buf: OutBuf)
    requires buf.Buffer? && WrapKeyStep(env, s, mech, wrappingKey, key, buf).1.rv == CkrOk
    ensures var (w, k) := (ObjectOnSlot(env.objects, wrappingKey, s.slot), ObjectOnSlot(env.objects, key, s.slot));
            && w.Some? && k.Some? && env.engine.Some?
            && AttrTrue(w.value.attrs, CKA_WRAP) && AttrTrue(k.value.attrs, CKA_EXTRACTABLE)
            && (AttrTrue(k.value.attrs, CKA_WRAP_WITH_TRUSTED) ==> AttrTrue(w.value.attrs, CKA_TRUSTED))
            && WrapKeyStep(env, s, mech, wrappingKey, key, buf).1.bytes.Some?
            && env.engine.value.keyWrap(w.value.keyRef, k.value.keyRef) ==
               Ok(WrapKeyStep(env, s, mech, wrappingKey, key, buf).1.bytes.value)
  {
  }

  /** Nothing but the blob itself stands between this call and success. */
  predicate MayUnwrap(e: Engine, st: State, h: SessionHandle, mech: MechanismType, key: ObjectHandle,
                      template: Template) {
    && TargetCheck(st, h, AttrTrue(CollectTemplate(template), CKA_TOKEN)) == CkrOk
    && ObjectOnSlot(st.objects, key, st.sessions[h].slot).Some?
    && AttrTrue(st.objects[key].attrs, CKA_UNWRAP) && TicketOk(st.sessions[h], st.objects[key])
    && mech == CKM_AES_KEY_WRAP && st.sessions[h].slot in st.registry.slots
  }

  lemma UnwrapOutcome(e: Engine, st: State, h: SessionHandle, mech: MechanismType, key: ObjectHandle, wrapped: Bytes,
                      template: Template, bytes: Bytes)
    requires MayUnwrap(e, st, h, mech, key, template) && e.keyUnwrap(st.objects[key].keyRef, wrapped) == Ok(bytes)
    ensures var (st', out) := UnwrapKeyStep(e, st, h, mech, key, wrapped, template);
            if AesKeySize(|bytes|)
            then out.rv == CkrOk && out.handles == [st.nextHandle] && st.nextHandle in st'.objects
                 && st'.objects[st.nextHandle].keyRef == bytes && st'.objects[st.nextHandle].slot == st.sessions[h].slot
                 && Lookup(st'.objects[st.nextHandle].attrs, CKA_VALUE_LEN) == Some(UlongBytes(|bytes|))
                 && !HasTicket(st', h)
            else st' == st && out == Code(KeySizeRange)
  {
    hide Snapshot, CollectTemplate, UlongBytes;
  }

  /**
   Key transport round trip: a blob delivered by `C_WrapKey`, unwrapped wherever the
   same wrapping key may unwrap, yields a new object holding exactly the wrapped key,
   if and only if that key has an AES key size; otherwise nothing changes.
   */
  lemma WrappedKeyComesBack(e: Engine, env: Env, s: Session, mech: MechanismType, wrappingKey: ObjectHandle,
                            key: ObjectHandle, buf: OutBuf,
                            st: State, h: SessionHandle, unwrappingKey: ObjectHandle, template: Template)
    requires WrapLaw(e) && env.engine == Some(e) && buf.Buffer?
    requires WrapKeyStep(env, s, mech, wrappingKey, key, buf).1.rv == CkrOk
    requires MayUnwrap(e, st, h, CKM_AES_KEY_WRAP, unwrappingKey, template)
    requires wrappingKey in env.objects && st.objects[unwrappingKey].keyRef == env.objects[wrappingKey].keyRef
    ensures var blob := WrapKeyStep(env, s, mech, wrappingKey, key, buf).1.bytes;
            && blob.Some? && key in env.objects
            && var (st', out) := UnwrapKeyStep(e, st, h, CKM_AES_KEY_WRAP, unwrappingKey, blob.value, template);
               && (out.rv == CkrOk <==> AesKeySize(|env.objects[key].keyRef|))
               && (out.rv == CkrOk ==> out.handles == [st.nextHandle] && st.nextHandle in st'.objects
                                       && st'.objects[st.nextHandle].keyRef == env.objects[key].keyRef)
               && (out.rv != CkrOk ==> st' == st)
  {
    hide WrapKeyStep, UnwrapKeyStep, MayUnwrap, CollectTemplate;
    WrapDelivers(env, s, mech, wrappingKey, key, buf);
    var blob := WrapKeyStep(env, s, mech, wrappingKey, key, buf).1.bytes.value;
    assert e.keyUnwrap(env.objects[wrappingKey].keyRef, blob) == Ok(env.objects[key].keyRef);
    UnwrapOutcome(e, st, h, CKM_AES_KEY_WRAP, unwrappingKey, blob, template, env.objects[key].keyRef);
  }
}
