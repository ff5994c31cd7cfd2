/**
 One-shot authentication: results produced with an always-authenticate key never
 outnumber the context-specific logins of the same session.
 */
module Tickets {
  import opened Types
  import opened Objects
  import opened AttributePolicy
  import opened Backend
  import opened Registry
  import opened Sessions
  import opened SessionOperations
  import opened Tokens
  import opened Storage
  import opened Machine

  /** The key a private-key operation on session `s` would use, if the call is one that delivers a result. */
  function DeliveringKey(s: Session, op: SessionOp): Option<ObjectHandle> {
    if (op.Sign? || op.SignFinal?) && op.buf.Buffer? && s.ops.sign.Some? then Some(s.ops.sign.value.key)
    else if (op.Decrypt? || op.DecryptFinal?) && op.buf.Buffer? && s.ops.decrypt.Some?
      then Some(s.ops.decrypt.value.key)
    else None
  }

  predicate Guarded(objects: ObjectMap, key: ObjectHandle) {
    key in objects && objects[key].alwaysAuthenticate
  }

  /** The call handed a result of an always-authenticate key to session `h`. */
  predicate Delivers(st: State, c: Call, out: Out, h: SessionHandle) {
    && st.initialized && h in st.sessions && out.rv == CkrOk
    && match c
       case Op(ch, op) =>
         ch == h && DeliveringKey(st.sessions[h], op).Some?
           && Guarded(st.objects, DeliveringKey(st.sessions[h], op).value)
       case UnwrapKey(ch, _, key, _, _) => ch == h && Guarded(st.objects, key)
       case DeriveKey(ch, _, base, _, _, _) => ch == h && Guarded(st.objects, base)
       case _ => false
  }

  /** A successful context-specific login on session `h`. */
  predicate MintsTicket(st: State, c: Call, out: Out, h: SessionHandle) {
    (c.Login? || c.LoginUser?) && c.h == h && c.userType == CKU_CONTEXT_SPECIFIC && out.rv == CkrOk
  }

  predicate HasTicket(st: State, h: SessionHandle) {
    h in st.sessions && st.sessions[h].ticket
  }

  function Count(b: bool): nat { if b then 1 else 0 }

  predicate Spends(env: Env, s: Session, op: SessionOp, r: (Session, Out)) {
    && (r.0.ticket ==> s.ticket)
    && (r.1.rv == CkrOk && DeliveringKey(s, op).Some? && Guarded(env.objects, DeliveringKey(s, op).value) ==>
          s.ticket && !r.0.ticket)
  }

  /** The calls that hand out what a private or wrapping key made. */
  predicate MayDeliver(op: SessionOp) {
    op.Sign? || op.SignFinal? || op.Decrypt? || op.DecryptFinal? || op.WrapKey?
  }

  lemma DeliverySpendsTicket(env: Env, s: Session, op: SessionOp)
    requires MayDeliver(op)
    ensures Spends(env, s, op, SessionStep(env, s, op))
  {
    hide SignWith, DecryptSymmetric, WriteToOutput, AttrTrue;
  }

  lemma OthersKeepTicket(env: Env, s: Session, op: SessionOp)
    requires !MayDeliver(op)
    ensures Spends(env, s, op, SessionStep(env, s, op))
  {
    hide SignStep, DecryptStep, WrapKeyStep, Guarded;
    hide VerifyWith, EncryptSymmetric, DigestWith, WriteToOutput, ExtractCipherParams, AttrTrue, NextBatch;
  }

  /** A delivery needs the ticket and burns it; nothing in a context operation creates one. */
  lemma OperationSpendsTicket(env: Env, s: Session, op: SessionOp)
    ensures var (s', out) := SessionStep(env, s, op);
            && (s'.ticket ==> s.ticket)
            && (out.rv == CkrOk && DeliveringKey(s, op).Some? && Guarded(env.objects, DeliveringKey(s, op).value) ==>
                s.ticket && !s'.ticket)
  {
    hide SessionStep, DeliveringKey, Guarded;
    if MayDeliver(op) {
      DeliverySpendsTicket(env, s, op);
    } else {
      OthersKeepTicket(env, s, op);
    }
  }

  /** A successful length query leaves the whole session as it was: context, data and ticket. */
  lemma LengthQueryChangesNothing(env: Env, s: Session, op: SessionOp)
    requires (op.Sign? || op.SignFinal? || op.Decrypt? || op.DecryptFinal? || op.WrapKey?) && op.buf == LengthQuery
    requires SessionStep(env, s, op).1.rv == CkrOk
    ensures SessionStep(env, s, op).0 == s && SessionStep(env, s, op).1.bytes == None
  {
  }

  /** The ticket account of one step. */
  ghost predicate Balanced(e: Engine, st: State, c: Call, h: SessionHandle) {
    var (st', out) := Step(e, st, c);
    Count(Delivers(st, c, out, h)) + Count(HasTicket(st', h))
    <= Count(MintsTicket(st, c, out, h)) + Count(HasTicket(st, h))
  }

  predicate TicketsOnlyFall(sessions: SessionMap, sessions': SessionMap) {
    forall h :: h in sessions' && sessions'[h].ticket ==> h in sessions && sessions[h].ticket
  }

  lemma OpBalanced(e: Engine, st: State, c: Call, h: SessionHandle)
    requires c.Op? && st.initialized
    ensures Balanced(e, st, c, h)
  {
    hide SessionStep;
    if c.h in st.sessions {
      OperationSpendsTicket(EnvOf(e, st, c.h), st.sessions[c.h], c.op);
    }
    assert Step(e, st, c) == OpStep(e, st, c.h, c.op);
  }

  lemma ContextLoginTickets(st: State, h: SessionHandle, pin: Bytes, needsActiveOp: bool)
    requires h in st.sessions
    ensures var (st', out) := ContextLoginStep(st, h, pin, needsActiveOp);
            forall k :: HasTicket(st', k) ==> HasTicket(st, k) || (k == h && out.rv == CkrOk)
  {
    hide SlotLogin;
  }

  lemma UserLoginTickets(st: State, h: SessionHandle, userType: nat, pin: Bytes, clearsTicket: bool)
    requires h in st.sessions
    ensures TicketsOnlyFall(st.sessions, UserLoginStep(st, h, userType, pin, clearsTicket).0.sessions)
  {
    hide SlotLogin, VerifyPinSpec, HasReadOnly, TokenAt;
  }

  lemma LoginTickets(st: State, c: Call, h: SessionHandle, v3: bool)
    requires c.Login? || c.LoginUser?
    ensures var (st', out) := LoginStep(st, c.h, c.userType, c.pin, v3);
            HasTicket(st', h) ==> HasTicket(st, h) || MintsTicket(st, c, out, h)
  {
    hide ContextLoginStep, UserLoginStep;
    if c.h in st.sessions {
      ContextLoginTickets(st, c.h, c.pin, !v3);
      UserLoginTickets(st, c.h, c.userType, c.pin, !v3);
    }
  }

  lemma LoginBalanced(e: Engine, st: State, c: Call, h: SessionHandle)
    requires (c.Login? || c.LoginUser?) && st.initialized
    ensures Balanced(e, st, c, h)
  {
    hide LoginStep;
    LoginTickets(st, c, h, c.LoginUser?);
    assert Step(e, st, c) == LoginStep(st, c.h, c.userType, c.pin, c.LoginUser?);
  }

  lemma UnwrapTickets(e: Engine, st: State, c: Call)
    requires c.UnwrapKey?
    ensures var (st', out) := UnwrapKeyStep(e, st, c.h, c.mech, c.key, c.wrapped, c.template);
            && TicketsOnlyFall(st.sessions, st'.sessions)
            && (out.rv == CkrOk ==>
                c.h in st.sessions && !HasTicket(st', c.h) && (Guarded(st.objects, c.key) ==> HasTicket(st, c.h)))
  {
    hide Snapshot, UnwrappedObject, CollectTemplate, AttrTrue;
  }

  lemma DeriveTickets(e: Engine, st: State, c: Call)
    requires c.DeriveKey?
    ensures var (st', out) := DeriveKeyStep(e, st, c.h, c.mech, c.base, c.params, c.template, c.unique);
            && TicketsOnlyFall(st.sessions, st'.sessions)
            && (out.rv == CkrOk ==>
                c.h in st.sessions && !HasTicket(st', c.h) && (Guarded(st.objects, c.base) ==> HasTicket(st, c.h)))
  {
    hide Snapshot, DerivedKey, CollectTemplate, AttrTrue, BytesToUlong;
  }

  lemma UnwrapDeriveBalanced(e: Engine, st: State, c: Call, h: SessionHandle)
    requires (c.UnwrapKey? || c.DeriveKey?) && st.initialized
    ensures Balanced(e, st, c, h)
  {
    hide UnwrapKeyStep, DeriveKeyStep;
    if c.UnwrapKey? {
      UnwrapTickets(e, st, c);
      assert Step(e, st, c) == UnwrapKeyStep(e, st, c.h, c.mech, c.key, c.wrapped, c.template);
    } else {
      DeriveTickets(e, st, c);
      assert Step(e, st, c) == DeriveKeyStep(e, st, c.h, c.mech, c.base, c.params, c.template, c.unique);
    }
  }

  /** Everything but the objects, their counter and the disk is as before. */
  predicate OnlyObjects(st: State, st': State) {
    st'.sessions == st.sessions && st'.tokens == st.tokens && st'.initialized == st.initialized
      && st'.registry == st.registry
  }

  lemma AddObjectOnly()
    ensures forall st, h, o :: OnlyObjects(st, AddObject(st, h, o).0)
  {
    hide Snapshot;
  }

  lemma GenerateCallsOnly(e: Engine, st: State, c: Call)
    requires c.GenerateKey? || c.GenerateKeyPair?
    ensures OnlyObjects(st, RunningStep(e, st, c).0)
  {
    hide AddObject, GeneratedSecret, PublicHalf, PrivateHalf, CollectTemplate, AttrTrue, PairSizeCheck, SecretLength;
    hide PairTypes, SecretKeyTypeOf;
    AddObjectOnly();
  }

  lemma CreateCallsOnly(e: Engine, st: State, c: Call)
    requires c.CreateObject? || c.CopyObject? || c.GenerateKey? || c.GenerateKeyPair?
    ensures OnlyObjects(st, RunningStep(e, st, c).0)
  {
    hide AddObject, ImportedObject, CopyOf, GenerateKeyStep, GeneratePairStep, CollectTemplate, AttrTrue, BytesToUlong;
    hide OverridesAllowed, IsTokenObject, ObjectOnSlot, TargetCheck;
    if c.GenerateKey? || c.GenerateKeyPair? {
      GenerateCallsOnly(e, st, c);
    } else {
      AddObjectOnly();
    }
  }

  /** Object calls do not touch the session table or the tokens. */
  lemma ObjectCallsKeepSessions(e: Engine, st: State, c: Call)
    requires c.CreateObject? || c.CopyObject? || c.DestroyObject? || c.SetAttributeValue? || c.GenerateKey?
             || c.GenerateKeyPair?
    ensures OnlyObjects(st, RunningStep(e, st, c).0)
  {
    hide Snapshot, ApplyTemplate, IsTokenObject, IsPrivateObject, Without, CreateObjectStep, CopyObjectStep;
    hide GenerateKeyStep, GeneratePairStep;
    if !c.DestroyObject? && !c.SetAttributeValue? {
      CreateCallsOnly(e, st, c);
    }
  }

  lemma TokenCallsKeepSessions(e: Engine, st: State, c: Call)
    requires c.InitToken? || c.InitPIN?
    ensures RunningStep(e, st, c).0.sessions == st.sessions
  {
    hide Snapshot, HasSessions, HasProfile, InitTokenSpec, InitPinSpec, ProfileObject, TokenAt, Without, Padded;
  }

  lemma SetPinOnlyDrops(st: State, h: SessionHandle, oldPin: Bytes, newPin: Bytes)
    ensures TicketsOnlyFall(st.sessions, SetPinStep(st, h, oldPin, newPin).0.sessions)
  {
    hide Snapshot, ChangePinSpec;
  }

  lemma LogoutOnlyDrops(st: State, h: SessionHandle)
    ensures TicketsOnlyFall(st.sessions, LogoutStep(st, h).0.sessions)
  {
    hide SlotLogin;
  }

  lemma SessionCallsOnlyDrop(e: Engine, st: State, c: Call)
    requires c.SetPIN? || c.OpenSession? || c.CloseSession? || c.CloseAllSessions? || c.Logout?
    ensures TicketsOnlyFall(st.sessions, RunningStep(e, st, c).0.sessions)
  {
    hide SlotLogin, SetPinStep, LogoutStep;
    if c.SetPIN? {
      SetPinOnlyDrops(st, c.h, c.oldPin, c.newPin);
    } else if c.Logout? {
      LogoutOnlyDrops(st, c.h);
    }
  }

  lemma QuietBalanced(e: Engine, st: State, c: Call, h: SessionHandle)
    requires TicketsOnlyFall(st.sessions, Step(e, st, c).0.sessions)
    requires !c.Op? && !c.UnwrapKey? && !c.DeriveKey?
    ensures Balanced(e, st, c, h)
  {
    hide Step;
  }

  lemma LifecycleDropsSessions(e: Engine, st: State, c: Call)
    requires c.Initialize? || c.Finalize? || c.Crash? || !st.initialized
    requires !st.initialized ==> st.sessions == map[]
    ensures Step(e, st, c).0.sessions == st.sessions || Step(e, st, c).0.sessions == map[]
  {
    hide Snapshot, RunningStep, Range, Register, LoadedObjects, LoadedTokens, EnsureTokens;
    if c.Initialize? && InitArgsCheck(c.args) == CkrOk && !st.initialized {
      StartUpKeepsSessions(st, c.slotCount);
    }
  }

  lemma StartUpKeepsSessions(st: State, slotCount: nat)
    ensures StartUp(st, slotCount).sessions == st.sessions
  {
    hide Range, Register, LoadedObjects, LoadedTokens, EnsureTokens;
    var ids := Range(st.registry.next, slotCount);
    var loaded := Load(st.(registry := Register(st.registry, slotCount)));
    ProfilesKeepSessions(loaded.(tokens := EnsureTokens(loaded.tokens, ids)), ids);
  }

  lemma {:induction false} ProfilesKeepSessions(st: State, ids: seq<SlotId>)
    ensures EnsureProfiles(st, ids).sessions == st.sessions
  {
    hide HasProfile, ProfileObject;
    if ids != [] {
      ProfilesKeepSessions(st, ids[..|ids| - 1]);
    }
  }

  lemma StepBalanced(e: Engine, st: State, c: Call, h: SessionHandle)
    requires !st.initialized ==> st.sessions == map[]
    ensures Balanced(e, st, c, h)
  {
    hide RunningStep, InitializeStep, FinalizeStep, Balanced, Boot;
    if c.Initialize? || c.Finalize? || c.Crash? || !st.initialized {
      LifecycleDropsSessions(e, st, c);
      LifecycleBalanced(e, st, c, h);
    } else if c.Op? {
      OpBalanced(e, st, c, h);
    } else if c.Login? || c.LoginUser? {
      LoginBalanced(e, st, c, h);
    } else if c.UnwrapKey? || c.DeriveKey? {
      UnwrapDeriveBalanced(e, st, c, h);
    } else if c.SetPIN? || c.OpenSession? || c.CloseSession? || c.CloseAllSessions? || c.Logout? {
      SessionCallsOnlyDrop(e, st, c);
      QuietBalanced(e, st, c, h);
    } else if c.InitToken? || c.InitPIN? {
      TokenCallsKeepSessions(e, st, c);
      QuietBalanced(e, st, c, h);
    } else {
      ObjectCallsKeepSessions(e, st, c);
      QuietBalanced(e, st, c, h);
    }
  }

  lemma LifecycleBalanced(e: Engine, st: State, c: Call, h: SessionHandle)
    requires c.Initialize? || c.Finalize? || c.Crash? || !st.initialized
    requires Step(e, st, c).0.sessions == st.sessions || Step(e, st, c).0.sessions == map[]
    ensures Balanced(e, st, c, h)
  {
    hide RunningStep, InitializeStep, FinalizeStep;
  }

  ghost function Deliveries(e: Engine, st: State, calls: seq<Call>, h: SessionHandle): nat {
    if calls == [] then 0
    else
      var before := After(e, st, calls[..|calls| - 1]);
      var c := calls[|calls| - 1];
      Deliveries(e, st, calls[..|calls| - 1], h) + Count(Delivers(before, c, Step(e, before, c).1, h))
  }

  ghost function ContextLogins(e: Engine, st: State, calls: seq<Call>, h: SessionHandle): nat {
    if calls == [] then 0
    else
      var before := After(e, st, calls[..|calls| - 1]);
      var c := calls[|calls| - 1];
      ContextLogins(e, st, calls[..|calls| - 1], h) + Count(MintsTicket(before, c, Step(e, before, c).1, h))
  }

  lemma {:induction false} OffHasNoSessions(e: Engine, disk: Option<StoredState>, calls: seq<Call>)
    ensures var st := After(e, Boot(disk), calls); !st.initialized ==> st.sessions == map[]
  {
    hide Step;
    if calls != [] {
      OffHasNoSessions(e, disk, calls[..|calls| - 1]);
      StepStaysOff(e, After(e, Boot(disk), calls[..|calls| - 1]), calls[|calls| - 1]);
    }
  }

  lemma RunningStaysOn(e: Engine, st: State, c: Call)
    requires !c.Initialize? && !c.Finalize? && !c.Crash? && st.initialized
    ensures RunningStep(e, st, c).0.initialized
  {
    hide Snapshot, AddObject, CollectTemplate, AttrTrue, BytesToUlong, HasSessions, HasProfile, InitTokenSpec;
    hide InitPinSpec, ProfileObject;
    hide CreateObjectStep, CopyObjectStep, GenerateKeyStep, GeneratePairStep, DestroyObjectStep, SetAttributeStep;
    hide ChangePinSpec, SlotLogin, VerifyPinSpec, HasReadOnly, SessionStep, UnwrappedObject, DerivedKey, LoginAll;
    hide ReleaseFinds, Without, TokenAt;
    if c.CreateObject? || c.CopyObject? || c.DestroyObject? || c.SetAttributeValue? || c.GenerateKey?
      || c.GenerateKeyPair? {
      ObjectCallsKeepSessions(e, st, c);
    }
    AddObjectOnly();
  }

  lemma StepStaysOff(e: Engine, st: State, c: Call)
    requires !st.initialized ==> st.sessions == map[]
    ensures var st' := Step(e, st, c).0; !st'.initialized ==> st'.sessions == map[]
  {
    hide Snapshot, RunningStep;
    if !c.Initialize? && !c.Finalize? && !c.Crash? && st.initialized {
      RunningStaysOn(e, st, c);
    }
  }

  /**
   In every run from a process start, and for every session handle, the results
   delivered with always-authenticate keys plus the ticket still in hand never exceed
   the successful context-specific logins on that session.
   */
  lemma {:induction false} DeliveriesNeverExceedLogins(e: Engine, disk: Option<StoredState>, calls: seq<Call>,
                                                       h: SessionHandle)
    ensures Deliveries(e, Boot(disk), calls, h) + Count(HasTicket(After(e, Boot(disk), calls), h))
            <= ContextLogins(e, Boot(disk), calls, h)
  {
    hide Step, Delivers, MintsTicket;
    if calls != [] {
      var before := calls[..|calls| - 1];
      DeliveriesNeverExceedLogins(e, disk, before, h);
      OffHasNoSessions(e, disk, before);
      StepBalanced(e, After(e, Boot(disk), before), calls[|calls| - 1], h);
    }
  }
}
