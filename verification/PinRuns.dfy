/**
 The PIN automaton inside the whole machine: over every run, restarts and crashes
 included, a slot's token in memory and on disk move as a two-record automaton says.
 */
module PinRuns {
  import opened Types
  import opened Objects
  import opened Backend
  import opened Registry
  import opened Sessions
  import opened SessionOperations
  import opened Tokens
  import opened Machine
  import opened Tickets
  import opened Invariants
  import opened Saving

  /** A login attempt that gets as far as the PIN. */
  predicate ReachesPin(st: State, h: SessionHandle, userType: nat) {
    && h in st.sessions && (userType == CKU_USER || userType == CKU_SO)
    && SlotLogin(st.sessions, st.sessions[h].slot) == NotLoggedIn
    && (userType == CKU_SO ==> !HasReadOnly(st.sessions, st.sessions[h].slot))
    && (userType == CKU_USER ==> TokenAt(st.tokens, st.sessions[h].slot).userPin.Some?)
  }

  /** The operation a call performs on a slot's token, if any. */
  function TokenOpOf(st: State, c: Call, slot: SlotId): Option<TokenOp> {
    if !st.initialized then None
    else
      match c
      case InitToken(s, pin, text) =>
        if s == slot && slot in st.registry.slots && !HasSessions(st.sessions, slot)
          then Some(OpInitToken(pin, Padded(text, LABEL_LEN))) else None
      case InitPIN(h, pin) =>
        if RwCheck(st, h) == CkrOk && st.sessions[h].login == SoLoggedIn && st.sessions[h].slot == slot
          then Some(OpInitPin(pin)) else None
      case SetPIN(h, oldPin, newPin) =>
        if RwCheck(st, h) == CkrOk && st.sessions[h].slot == slot
        then Some(OpChangePin(if st.sessions[h].login == SoLoggedIn then CKU_SO else CKU_USER, oldPin, newPin))
          else None
      case Login(h, userType, pin) =>
        if ReachesPin(st, h, userType) && st.sessions[h].slot == slot then Some(OpVerify(userType, pin)) else None
      case LoginUser(h, userType, pin) =>
        if ReachesPin(st, h, userType) && st.sessions[h].slot == slot then Some(OpVerify(userType, pin)) else None
      case _ => None
  }

  predicate Lifecycle(c: Call) {
    c.Initialize? || c.Finalize? || c.Crash?
  }

  /** The token moves by the call's operation, and the call reports the operation's outcome. */
  ghost predicate MovesBy(st: State, r: (State, Out), slot: SlotId, op: Option<TokenOp>) {
    var t, t' := TokenAt(st.tokens, slot), TokenAt(r.0.tokens, slot);
    match op
    case None => t' == t
    case Some(o) => t' == TokenStep(t, o).0 && r.1.rv == TokenStep(t, o).1
  }

  lemma InitTokenMoves(st: State, c: Call, slot: SlotId)
    requires c.InitToken? && st.initialized
    ensures MovesBy(st, InitTokenStep(st, c.slot, c.pin, c.text), slot, TokenOpOf(st, c, slot))
  {
    hide Snapshot, InitTokenSpec, HasSessions, HasProfile, ProfileObject, Without;
  }

  lemma PinCallsMove(st: State, c: Call, slot: SlotId)
    requires (c.InitPIN? || c.SetPIN?) && st.initialized
    ensures c.InitPIN? ==> MovesBy(st, InitPinStep(st, c.h, c.pin), slot, TokenOpOf(st, c, slot))
    ensures c.SetPIN? ==> MovesBy(st, SetPinStep(st, c.h, c.oldPin, c.newPin), slot, TokenOpOf(st, c, slot))
  {
    hide Snapshot, InitPinSpec, ChangePinSpec;
  }

  lemma ContextLoginKeepsTokens(st: State, h: SessionHandle, pin: Bytes, needsActiveOp: bool)
    requires h in st.sessions
    ensures ContextLoginStep(st, h, pin, needsActiveOp).0.tokens == st.tokens
  {
    hide SlotLogin;
  }

  lemma UserLoginMoves(st: State, h: SessionHandle, userType: nat, pin: Bytes, clearsTicket: bool, slot: SlotId)
    requires h in st.sessions
    ensures MovesBy(st, UserLoginStep(st, h, userType, pin, clearsTicket), slot,
                    if ReachesPin(st, h, userType) && st.sessions[h].slot == slot then Some(OpVerify(userType, pin))
                      else None)
  {
    hide SlotLogin, VerifyPinSpec, HasReadOnly, LoginAll;
  }

  lemma LoginMoves(st: State, c: Call, slot: SlotId, v3: bool)
    requires (c.Login? || c.LoginUser?) && st.initialized
    ensures MovesBy(st, LoginStep(st, c.h, c.userType, c.pin, v3), slot, TokenOpOf(st, c, slot))
  {
    hide SlotLogin, TokenStep, HasReadOnly, ContextLoginStep, UserLoginStep, TokenAt;
    if c.h in st.sessions {
      ContextLoginKeepsTokens(st, c.h, c.pin, !v3);
      UserLoginMoves(st, c.h, c.userType, c.pin, !v3, slot);
    }
  }

  lemma OtherCallsKeepTokens(e: Engine, st: State, c: Call)
    requires !Lifecycle(c) && !c.InitToken? && !c.InitPIN? && !c.SetPIN? && !c.Login? && !c.LoginUser?
    ensures RunningStep(e, st, c).0.tokens == st.tokens
  {
    hide Snapshot, AddObject, CollectTemplate, AttrTrue, BytesToUlong, SlotLogin, SessionStep, UnwrappedObject;
    hide DerivedKey, LoginAll, ReleaseFinds, Without;
    hide CreateObjectStep, CopyObjectStep, GenerateKeyStep, GeneratePairStep, DestroyObjectStep, SetAttributeStep;
    hide OpenSpec, CloseAll, HkdfHash;
    if c.CreateObject? || c.CopyObject? || c.DestroyObject? || c.SetAttributeValue? || c.GenerateKey?
      || c.GenerateKeyPair? {
      ObjectCallsKeepSessions(e, st, c);
    }
    AddObjectOnly();
  }

  lemma StepMovesToken(e: Engine, st: State, c: Call, slot: SlotId)
    requires !Lifecycle(c)
    ensures MovesBy(st, Step(e, st, c), slot, TokenOpOf(st, c, slot))
  {
    hide InitTokenStep, InitPinStep, SetPinStep, LoginStep, TokenStep;
    if st.initialized {
      if c.InitToken? {
        InitTokenMoves(st, c, slot);
      } else if c.InitPIN? || c.SetPIN? {
        PinCallsMove(st, c, slot);
      } else if c.Login? || c.LoginUser? {
        LoginMoves(st, c, slot, c.LoginUser?);
      } else {
        OtherCallsKeepTokens(e, st, c);
      }
    }
  }

  // ---- The two records of a token -------------------------------------------------------------------------

  /** What the process knows of a slot's token, and what the next process would find on disk. */
  datatype PinRecord = PinRecord(current: TokenData, saved: TokenData)

  function RecordOf(st: State, slot: SlotId): PinRecord {
    var saved := TokenOnDisk(st.disk, slot);
    PinRecord(if st.initialized then TokenAt(st.tokens, slot) else saved, saved)
  }

  /** What a save keeps of a slot's token. */
  function Kept(st: State, slot: SlotId, t: TokenData): TokenData {
    if slot in st.registry.slots then t else DefaultToken(slot)
  }

  /**
   The reference automaton: token operations move the current record, saving calls and
   shutdowns copy it to the saved one, and a crash copies it back.
   */
  function NextRecord(st: State, c: Call, rv: Rv, slot: SlotId, rec: PinRecord): PinRecord {
    match c
    case Initialize(_, _) => rec
    case Crash => rec.(current := rec.saved)
    case Finalize(_) =>
      if rv == CkrOk then PinRecord(Kept(st, slot, rec.current), Kept(st, slot, rec.current)) else rec
    case _ =>
      var op := TokenOpOf(st, c, slot);
      var current := if op.Some? then TokenStep(rec.current, op.value).0 else rec.current;
      PinRecord(current, if Saves(st, c, rv) then Kept(st, slot, current) else rec.saved)
  }

  lemma RunningRecord(e: Engine, st: State, c: Call, slot: SlotId)
    requires Inv(st) && Fits(st, Draws(c)) && st.initialized && !Lifecycle(c)
    ensures var (st', out) := RunningStep(e, st, c);
            RecordOf(st', slot) == NextRecord(st, c, out.rv, slot, RecordOf(st, slot))
  {
    hide RunningStep, TokenStep, TokenOpOf, Saves, TokenAt, StoredTokensFor, DefaultToken, Inv, TokensSaved;
    var st' := RunningStep(e, st, c).0;
    StepMovesToken(e, st, c, slot);
    assert Step(e, st, c) == RunningStep(e, st, c);
    SaveExact(e, st, c);
    RunningStepKeepsInv(e, st, c);
    SameRegistry(e, st, c);
    if TokensSaved(st') {
      GoodTokens(st');
      SavedToken(st', slot);
    }
  }

  lemma GoodTokens(st: State)
    requires Inv(st)
    ensures TokensOk(st.tokens, st.registry.slots.Keys)
  {
  }

  /** Slots are registered and dropped by the lifecycle calls only. */
  lemma SameRegistry(e: Engine, st: State, c: Call)
    requires !Lifecycle(c)
    ensures RunningStep(e, st, c).0.registry == st.registry
  {
    hide Snapshot, AddObject, CollectTemplate, AttrTrue, BytesToUlong, SlotLogin, SessionStep, UnwrappedObject;
    hide DerivedKey, LoginAll;
    hide ReleaseFinds, Without, OpenSpec, CloseAll, HkdfHash, HasSessions, HasProfile, ProfileObject, TokenAt, Verifies;
    hide CreateObjectStep, CopyObjectStep, GenerateKeyStep, GeneratePairStep, DestroyObjectStep, SetAttributeStep;
    hide InitTokenSpec, InitPinSpec, ChangePinSpec, VerifyPinSpec, HasReadOnly;
    if c.CreateObject? || c.CopyObject? || c.DestroyObject? || c.SetAttributeValue? || c.GenerateKey?
      || c.GenerateKeyPair? {
      ObjectCallsKeepSessions(e, st, c);
    }
    AddObjectOnly();
  }

  /** Start-up gives every slot the token the disk has for it, else the default one. */
  lemma StartUpRecord(st: State, slotCount: nat, slot: SlotId)
    requires Inv(st) && !st.initialized && Fits(st, slotCount)
    ensures RecordOf(StartUp(st, slotCount), slot) == RecordOf(st, slot)
  {
    hide StoredTokensFor, DefaultToken;
    BeforeProfilesShape(st, slotCount);
    BeforeProfilesOk(st, slotCount);
    FreshRegistry(slotCount);
    EnsureProfilesOk(BeforeProfiles(st, slotCount), Range(0, slotCount));
  }

  lemma ShutdownRecord(st: State, slot: SlotId)
    requires Inv(st) && st.initialized
    ensures var kept := Kept(st, slot, TokenAt(st.tokens, slot));
            RecordOf(Shutdown(st), slot) == PinRecord(kept, kept)
  {
    hide StoredTokensFor, DefaultToken, TokenAt, Inv;
    var saved := Persist(st.(sessions := map[]));
    PersistSaves(st.(sessions := map[]));
    GoodTokens(st);
    SavedToken(saved, slot);
  }

  /** One step, of any kind, moves both records as the reference automaton does. */
  lemma StepRecord(e: Engine, st: State, c: Call, slot: SlotId)
    requires Inv(st) && Fits(st, Draws(c))
    ensures var (st', out) := Step(e, st, c);
            RecordOf(st', slot) == NextRecord(st, c, out.rv, slot, RecordOf(st, slot))
  {
    hide RunningStep, Inv, StartUp, Shutdown, TokenOnDisk, TokenAt, Kept, Saves, TokenStep;
    if c.Initialize? {
      if InitArgsCheck(c.args) == CkrOk && !st.initialized {
        StartUpRecord(st, c.slotCount, slot);
      }
    } else if c.Finalize? {
      if st.initialized && !c.reserved {
        ShutdownRecord(st, slot);
      }
    } else if !c.Crash? && st.initialized {
      RunningRecord(e, st, c, slot);
    } else if !c.Crash? {
      OffSavesNothing(st, c);
    }
  }

  lemma OffSavesNothing(st: State, c: Call)
    ensures !Saves(st, c, CryptokiNotInitialized)
  {
  }

  ghost function RecordAfter(e: Engine, st: State, calls: seq<Call>, slot: SlotId): PinRecord {
    if calls == [] then RecordOf(st, slot)
    else
      var before := After(e, st, calls[..|calls| - 1]);
      var c := calls[|calls| - 1];
      NextRecord(before, c, Step(e, before, c).1.rv, slot, RecordAfter(e, st, calls[..|calls| - 1], slot))
  }

  /**
   Over every run, with shutdowns, restarts and crashes anywhere, a slot's token in memory
   and on disk are the two records of the reference automaton.
   */
  lemma {:induction false} TokenFollowsRun(e: Engine, st: State, calls: seq<Call>, slot: SlotId)
    requires Inv(st) && Fits(st, TotalDraws(calls))
    ensures RecordOf(After(e, st, calls), slot) == RecordAfter(e, st, calls, slot)
  {
    hide Step, Inv, NextRecord, RecordOf;
    if calls != [] {
      var before := calls[..|calls| - 1];
      TokenFollowsRun(e, st, before, slot);
      ReachKeepsInv(e, st, before, Draws(calls[|calls| - 1]));
      StepRecord(e, After(e, st, before), calls[|calls| - 1], slot);
    }
  }

  // ---- The lock over every run -----------------------------------------------------------------------------

  predicate Locked(t: TokenData) {
    t.userFailures >= MAX_PIN_FAILURES
  }

  /**
   The ways out of a lock: a successful `C_InitPIN` or `C_InitToken` on the slot, a crash
   while the lock is not on disk, or a shutdown while the slot is not registered.
   */
  predicate Relents(st: State, c: Call, rv: Rv, slot: SlotId, rec: PinRecord) {
    match c
    case Initialize(_, _) => false
    case Crash => !Locked(rec.saved)
    case Finalize(_) => rv == CkrOk && slot !in st.registry.slots
    case _ => TokenOpOf(st, c, slot).Some? && Unlocks(rec.current, TokenOpOf(st, c, slot).value)
  }

  lemma OperationKeepsLock(t: TokenData, op: TokenOp)
    requires Locked(t)
    ensures Locked(TokenStep(t, op).0) <==> !Unlocks(t, op)
  {
  }

  /** From a lock, one step leads to a lock exactly when it is not one of the ways out. */
  lemma NextRecordLocked(st: State, c: Call, rv: Rv, slot: SlotId, rec: PinRecord)
    requires Locked(rec.current)
    ensures Locked(NextRecord(st, c, rv, slot, rec).current) <==> !Relents(st, c, rv, slot, rec)
  {
    hide TokenOpOf, TokenStep, Unlocks, Saves;
    var op := TokenOpOf(st, c, slot);
    if op.Some? {
      OperationKeepsLock(rec.current, op.value);
    }
  }

  ghost predicate NeverRelents(e: Engine, st: State, calls: seq<Call>, slot: SlotId) {
    calls == [] ||
    (var before := calls[..|calls| - 1];
     var c := calls[|calls| - 1];
     && NeverRelents(e, st, before, slot)
     && !Relents(After(e, st, before), c, Step(e, After(e, st, before), c).1.rv, slot,
                 RecordAfter(e, st, before, slot)))
  }

  ghost predicate LockedThroughout(e: Engine, st: State, calls: seq<Call>, slot: SlotId) {
    Locked(RecordOf(After(e, st, calls), slot).current)
      && (calls == [] || LockedThroughout(e, st, calls[..|calls| - 1], slot))
  }

  /** A locked user PIN stays locked over a whole run exactly when the run takes none of the ways out. */
  lemma {:induction false} LockedThroughoutExact(e: Engine, st: State, calls: seq<Call>, slot: SlotId)
    requires Inv(st) && Fits(st, TotalDraws(calls)) && Locked(RecordOf(st, slot).current)
    ensures LockedThroughout(e, st, calls, slot) <==> NeverRelents(e, st, calls, slot)
  {
    hide Step, Inv, Relents, NextRecord, RecordOf, Locked;
    TokenFollowsRun(e, st, calls, slot);
    if calls != [] {
      var before := calls[..|calls| - 1];
      var c := calls[|calls| - 1];
      LockedThroughoutExact(e, st, before, slot);
      TokenFollowsRun(e, st, before, slot);
      var mid := After(e, st, before);
      if LockedThroughout(e, st, before, slot) {
        NextRecordLocked(mid, c, Step(e, mid, c).1.rv, slot, RecordAfter(e, st, before, slot));
      }
    }
  }

  /**
   A locked user PIN lets nobody in: after any run that takes none of the ways out, every
   user login on the slot fails, and with `CKR_PIN_LOCKED` once it gets as far as the PIN.
   */
  lemma LockedOutUntilReset(e: Engine, st: State, calls: seq<Call>, h: SessionHandle, pin: Bytes, v3: bool)
    requires Inv(st) && Fits(st, TotalDraws(calls)) && After(e, st, calls).initialized
             && h in After(e, st, calls).sessions
    requires var slot := After(e, st, calls).sessions[h].slot;
             Locked(RecordOf(st, slot).current) && NeverRelents(e, st, calls, slot)
    ensures var st' := After(e, st, calls);
            var rv := LoginStep(st', h, CKU_USER, pin, v3).1.rv;
            rv != CkrOk && (ReachesPin(st', h, CKU_USER) ==> rv == PinLocked)
  {
    hide After, Inv, NeverRelents, SlotLogin, TokenOnDisk;
    var st' := After(e, st, calls);
    LockedThroughoutExact(e, st, calls, st'.sessions[h].slot);
    assert Locked(RecordOf(st', st'.sessions[h].slot).current);
  }

  // ---- What a crash forgets ----------------------------------------------------------------------------------

  /** After a crash and a restart a slot's token is the one on disk, so it is locked exactly when that one is. */
  lemma CrashKeepsLockExact(e: Engine, st: State, args: Option<InitArgs>, slotCount: nat, slot: SlotId)
    requires Inv(st) && Fits(st, slotCount) && InitArgsCheck(args) == CkrOk
    ensures var st' := After(e, st, [Crash, Initialize(args, slotCount)]);
            && st'.initialized && TokenAt(st'.tokens, slot) == TokenOnDisk(st.disk, slot)
            && (Locked(TokenAt(st'.tokens, slot)) <==> Locked(TokenOnDisk(st.disk, slot)))
  {
    hide Inv, StartUp, TokenOnDisk, TokenAt;
    assert [Crash, Initialize(args, slotCount)][..1] == [Crash] && [Crash][..0] == [];
    var off := Boot(st.disk);
    BootStepKeepsInv(st, slotCount);
    assert After(e, st, [Crash]) == off;
    assert After(e, st, [Crash, Initialize(args, slotCount)]) == StartUp(off, slotCount);
    StartUpRecord(off, slotCount, slot);
    assert StartUp(off, slotCount).initialized by { StartedUp(off, slotCount); }
  }

  lemma StartedUp(st: State, slotCount: nat)
    ensures StartUp(st, slotCount).initialized
  {
  }

  /** A saving call puts the lock on disk; until the next operation on the token the two records agree. */
  lemma SavedLockSurvives(e: Engine, st: State, c: Call, slot: SlotId)
    requires Inv(st) && Fits(st, Draws(c)) && st.initialized && !Lifecycle(c) && slot in st.registry.slots
    ensures var (st', out) := Step(e, st, c);
            var before, after := RecordOf(st, slot), RecordOf(st', slot);
            && (Saves(st, c, out.rv) ==> after.saved == after.current)
            && (TokenOpOf(st, c, slot).None? && before.saved == before.current ==> after.saved == after.current)
  {
    hide Step, RecordOf, Saves, TokenOpOf, TokenStep, Inv;
    StepRecord(e, st, c, slot);
  }

  function Repeated(c: Call, n: nat): seq<Call> {
    if n == 0 then [] else Repeated(c, n - 1) + [c]
  }

  lemma {:induction false} WrongLogins(e: Engine, st: State, h: SessionHandle, pin: Bytes, n: nat)
    requires st.initialized && ReachesPin(st, h, CKU_USER)
    requires var t := TokenAt(st.tokens, st.sessions[h].slot);
             !Verifies(t.userPin, pin) && t.userFailures + n <= MAX_PIN_FAILURES
    ensures var st' := After(e, st, Repeated(Login(h, CKU_USER, pin), n));
            var slot := st.sessions[h].slot;
            var t := TokenAt(st.tokens, slot);
            && st'.initialized && st'.sessions == st.sessions && st'.disk == st.disk
            && TokenAt(st'.tokens, slot) == t.(userFailures := t.userFailures + n)
  {
    hide Step, SlotLogin, HasReadOnly;
    if n > 0 {
      var c := Login(h, CKU_USER, pin);
      WrongLogins(e, st, h, pin, n - 1);
      assert Repeated(c, n)[..n - 1] == Repeated(c, n - 1) by { RepeatedLength(c, n - 1); }
      RepeatedLength(c, n);
      WrongLogin(e, After(e, st, Repeated(c, n - 1)), h, pin);
    }
  }

  lemma {:induction false} RepeatedLength(c: Call, n: nat)
    ensures |Repeated(c, n)| == n && (n > 0 ==> Repeated(c, n)[n - 1] == c)
  {
    if n > 0 {
      RepeatedLength(c, n - 1);
    }
  }

  lemma WrongLogin(e: Engine, st: State, h: SessionHandle, pin: Bytes)
    requires st.initialized && ReachesPin(st, h, CKU_USER)
    requires var t := TokenAt(st.tokens, st.sessions[h].slot);
             !Verifies(t.userPin, pin) && t.userFailures < MAX_PIN_FAILURES
    ensures var st' := Step(e, st, Login(h, CKU_USER, pin)).0;
            var slot := st.sessions[h].slot;
            var t := TokenAt(st.tokens, slot);
            && st'.initialized && st'.sessions == st.sessions && st'.disk == st.disk
            && TokenAt(st'.tokens, slot) == t.(userFailures := t.userFailures + 1)
  {
    hide SlotLogin, HasReadOnly;
    assert Step(e, st, Login(h, CKU_USER, pin)) == LoginStep(st, h, CKU_USER, pin, false);
  }

  /**
   Refused logins are counted but not saved: ten wrong PINs lock the user PIN, and a crash
   before the next saving call leaves a restarted process with the counter that was on disk.
   */
  lemma CrashForgetsFailures(e: Engine, st: State, h: SessionHandle, pin: Bytes, args: Option<InitArgs>, slotCount: nat)
    requires Inv(st) && Fits(st, 10 + slotCount) && st.initialized && ReachesPin(st, h, CKU_USER)
    requires var t := TokenAt(st.tokens, st.sessions[h].slot); !Verifies(t.userPin, pin) && t.userFailures == 0
    requires TokenOnDisk(st.disk, st.sessions[h].slot).userFailures == 0 && InitArgsCheck(args) == CkrOk
    ensures var slot := st.sessions[h].slot;
            var locked := After(e, st, Repeated(Login(h, CKU_USER, pin), 10));
            var after := After(e, locked, [Crash, Initialize(args, slotCount)]);
            Locked(TokenAt(locked.tokens, slot)) && TokenAt(after.tokens, slot).userFailures == 0
  {
    hide After, Inv, TokenOnDisk, TokenAt, Verifies, SlotLogin;
    var calls := Repeated(Login(h, CKU_USER, pin), 10);
    WrongLogins(e, st, h, pin, 10);
    RepeatedDraws(Login(h, CKU_USER, pin), 10);
    ReachKeepsInv(e, st, calls, slotCount);
    CrashKeepsLockExact(e, After(e, st, calls), args, slotCount, st.sessions[h].slot);
  }

  lemma {:induction false} RepeatedDraws(c: Call, n: nat)
    requires c.Login?
    ensures TotalDraws(Repeated(c, n)) == n
  {
    RepeatedLength(c, n);
    if n > 0 {
      RepeatedDraws(c, n - 1);
      RepeatedLength(c, n - 1);
      assert Repeated(c, n)[..n - 1] == Repeated(c, n - 1);
    }
  }

  // ---- Context-specific login and the lock -------------------------------------------------------------------

  /** Re-authentication looks at the login state, the PIN and the active operation, and not at the counter. */
  lemma ContextLoginExact(st: State, h: SessionHandle, pin: Bytes, v3: bool)
    requires h in st.sessions
    ensures LoginStep(st, h, CKU_CONTEXT_SPECIFIC, pin, v3).1.rv == CkrOk <==>
            && SlotLogin(st.sessions, st.sessions[h].slot) == UserLoggedIn
            && Verifies(TokenAt(st.tokens, st.sessions[h].slot).userPin, pin)
            && (v3 || PrivateOpActive(st.sessions[h].ops))
  {
    hide SlotLogin, TokenAt, Verifies;
  }

  lemma WrongChange(t: TokenData, wrong: Bytes, other: Bytes)
    requires t.userFailures >= 8 && !Verifies(t.userPin, wrong) && !Verifies(t.userPin, other)
    ensures var (u, rv) := ChangePinSpec(t, CKU_USER, wrong, other); Locked(u) && rv != CkrOk && u.userPin == t.userPin
  {
  }

  /** A logged-in user can lock the PIN by wrong `C_SetPIN` calls, and re-authenticates as before. */
  lemma LockDoesNotLogOut(st: State, h: SessionHandle, wrong: Bytes, other: Bytes, pin: Bytes)
    requires RwCheck(st, h) == CkrOk && st.sessions[h].login == UserLoggedIn
    requires SlotLogin(st.sessions, st.sessions[h].slot) == UserLoggedIn
    requires var t := TokenAt(st.tokens, st.sessions[h].slot);
             t.userFailures >= 8 && Verifies(t.userPin, pin) && !Verifies(t.userPin, wrong)
               && !Verifies(t.userPin, other)
    ensures var st' := SetPinStep(st, h, wrong, other).0;
            && Locked(TokenAt(st'.tokens, st.sessions[h].slot)) && st'.sessions == st.sessions
            && LoginStep(st', h, CKU_CONTEXT_SPECIFIC, pin, true).1.rv == CkrOk
  {
    hide SlotLogin, Snapshot, LoginStep, ChangePinSpec;
    var slot := st.sessions[h].slot;
    WrongChange(TokenAt(st.tokens, slot), wrong, other);
    ContextLoginExact(SetPinStep(st, h, wrong, other).0, h, pin, true);
  }
}
