/**
 Per-session state and the session table. Login state is stored in every session
 but is a fact about the slot; the table's operations keep it that way.
 */
module Sessions {
  import opened Types

  datatype LoginState = NotLoggedIn | UserLoggedIn | SoLoggedIn

  datatype SignContext = SignContext(mech: MechanismType, key: ObjectHandle, data: Bytes)

  datatype CipherContext = CipherContext(
    mech: MechanismType, key: ObjectHandle, iv: Bytes, aad: Option<Bytes>, tagLen: nat, data: Bytes)

  datatype DigestContext = DigestContext(mech: MechanismType, data: Bytes, singlePart: bool, multiPart: bool)

  datatype FindContext = FindContext(results: seq<ObjectHandle>, index: nat)

  datatype MessageContext = MessageContext(mech: MechanismType, key: ObjectHandle)

  /** The operation contexts of one session. */
  datatype Operations = Operations(
    sign: Option<SignContext>,
    verify: Option<SignContext>,
    encrypt: Option<CipherContext>,
    decrypt: Option<CipherContext>,
    digest: Option<DigestContext>,
    find: Option<FindContext>,
    msgEncrypt: Option<MessageContext>,
    msgDecrypt: Option<MessageContext>)

  const IDLE: Operations := Operations(None, None, None, None, None, None, None, None)

  /** `ticket` is the one-shot context-specific authentication flag. */
  datatype Session = Session(
    handle: SessionHandle,
    slot: SlotId,
    flags: nat,
    login: LoginState,
    ticket: bool,
    ops: Operations)

  type SessionMap = map<SessionHandle, Session>

  predicate Bit(flags: nat, weight: nat)
    requires weight > 0
  {
    flags / weight % 2 == 1
  }

  predicate RwFlags(flags: nat) {
    Bit(flags, 2)
  }

  predicate SerialFlags(flags: nat) {
    Bit(flags, 4)
  }

  predicate IsRw(s: Session) {
    RwFlags(s.flags)
  }

  function NewSession(handle: SessionHandle, slot: SlotId, flags: nat, login: LoginState): Session {
    Session(handle, slot, flags, login, false, IDLE)
  }

  datatype SessionState = RoPublic | RoUser | RwPublic | RwUser | RwSo

  /** `get_session_info`. */
  function InfoState(s: Session): SessionState {
    match s.login
    case NotLoggedIn => if IsRw(s) then RwPublic else RoPublic
    case UserLoggedIn => if IsRw(s) then RwUser else RoUser
    case SoLoggedIn => RwSo
  }

  // ---- Slot-wide login state ---------------------------------------------------------------------

  /** All sessions of a slot carry the same login state. */
  predicate Agreement(sessions: SessionMap) {
    forall a, b :: a in sessions && b in sessions && sessions[a].slot == sessions[b].slot
      ==> sessions[a].login == sessions[b].login
  }

  /** A security officer never coexists with a read-only session. */
  predicate SoImpliesRw(sessions: SessionMap) {
    forall a :: a in sessions && sessions[a].login == SoLoggedIn ==> IsRw(sessions[a])
  }

  /** Is some session of the slot in this login state? */
  predicate SomeOn(sessions: SessionMap, slot: SlotId, login: LoginState) {
    exists a :: a in sessions && sessions[a].slot == slot && sessions[a].login == login
  }

  /** The login state of a slot; under `Agreement` it is the state of any of its sessions. */
  function SlotLogin(sessions: SessionMap, slot: SlotId): LoginState {
    if SomeOn(sessions, slot, SoLoggedIn) then SoLoggedIn
    else if SomeOn(sessions, slot, UserLoggedIn) then UserLoggedIn
    else NotLoggedIn
  }

  /** Whichever session the hash map yields first, it shows the slot's login state. */
  lemma AnySessionShowsSlotLogin(sessions: SessionMap, h: SessionHandle)
    requires Agreement(sessions) && h in sessions
    ensures sessions[h].login == SlotLogin(sessions, sessions[h].slot)
  {
  }

  predicate HasSessions(sessions: SessionMap, slot: SlotId) {
    exists a :: a in sessions && sessions[a].slot == slot
  }

  predicate HasReadOnly(sessions: SessionMap, slot: SlotId) {
    exists a :: a in sessions && sessions[a].slot == slot && !IsRw(sessions[a])
  }

  /** `login_all_sessions_on_slot`. */
  function LoginAll(sessions: SessionMap, slot: SlotId, login: LoginState): SessionMap {
    map h | h in sessions :: if sessions[h].slot == slot then sessions[h].(login := login) else sessions[h]
  }

  /** `release_find_contexts_on_slot`. */
  function ReleaseFinds(sessions: SessionMap, slot: SlotId): SessionMap {
    map h | h in sessions ::
      if sessions[h].slot == slot then sessions[h].(ops := sessions[h].ops.(find := None)) else sessions[h]
  }

  /** `close_all_sessions`. */
  function CloseAll(sessions: SessionMap, slot: SlotId): SessionMap {
    map h | h in sessions && sessions[h].slot != slot :: sessions[h]
  }

  /** `open_session`, given the handle drawn from the counter. */
  function OpenSpec(sessions: SessionMap, next: SessionHandle, slot: SlotId, flags: nat): (SessionMap, Rv) {
    var login := SlotLogin(sessions, slot);
    if !SerialFlags(flags) then (sessions, SessionParallelNotSupported)
    else if login == SoLoggedIn && !RwFlags(flags) then (sessions, SessionReadWriteSoExists)
    else (sessions[next := NewSession(next, slot, flags, login)], CkrOk)
  }

  lemma OpenKeepsAgreement(sessions: SessionMap, next: SessionHandle, slot: SlotId, flags: nat)
    requires Agreement(sessions)
    ensures Agreement(OpenSpec(sessions, next, slot, flags).0)
    ensures SoImpliesRw(sessions) ==> SoImpliesRw(OpenSpec(sessions, next, slot, flags).0)
  {
  }

  /** Logging a slot in keeps the SO rule exactly when no read-only session is open there. */
  lemma LoginAllExact(sessions: SessionMap, slot: SlotId, login: LoginState)
    requires Agreement(sessions) && SoImpliesRw(sessions)
    ensures Agreement(LoginAll(sessions, slot, login))
    ensures SoImpliesRw(LoginAll(sessions, slot, login)) <==> login != SoLoggedIn || !HasReadOnly(sessions, slot)
  {
    var after := LoginAll(sessions, slot, login);
    if login == SoLoggedIn && HasReadOnly(sessions, slot) {
      var a :| a in sessions && sessions[a].slot == slot && !IsRw(sessions[a]);
      assert a in after && after[a].login == SoLoggedIn && !IsRw(after[a]);
    }
  }

  /** With both rules in place, the reported state and the session flags never contradict each other. */
  lemma InfoAgreesWithFlags(sessions: SessionMap, h: SessionHandle)
    requires SoImpliesRw(sessions) && h in sessions
    ensures InfoState(sessions[h]) in {RwPublic, RwUser, RwSo} <==> IsRw(sessions[h])
  {
  }

  // ---- The mutable table -------------------------------------------------------------------------------

  class SessionTable {
    var sessions: SessionMap
    var next: SessionHandle

    constructor ()
      ensures sessions == map[] && next == 1
    {
      sessions, next := map[], 1;
    }

    /** The hash map yields some session of the slot first; which one does not matter. */
    method LoginStateForSlot(slot: SlotId) returns (login: LoginState)
      requires Agreement(sessions)
      ensures login == SlotLogin(sessions, slot)
    {
      login := NotLoggedIn;
      var left := sessions.Keys;
      while left != {}
        invariant left <= sessions.Keys
        invariant login == NotLoggedIn
        invariant forall a :: a in sessions && a !in left ==> sessions[a].slot != slot
        decreases left
      {
        var h :| h in left;
        if sessions[h].slot == slot {
          AnySessionShowsSlotLogin(sessions, h);
          return sessions[h].login;
        }
        left := left - {h};
      }
    }

    method OpenSession(slot: SlotId, flags: nat) returns (r: Result<SessionHandle>)
      requires Agreement(sessions)
      modifies this
      ensures sessions == OpenSpec(old(sessions), old(next), slot, flags).0
      ensures r == if OpenSpec(old(sessions), old(next), slot, flags).1 == CkrOk then Ok(old(next))
                   else Err(OpenSpec(old(sessions), old(next), slot, flags).1)
      ensures next == if r.Ok? then Bump(old(next)) else old(next)
      ensures Agreement(sessions)
    {
      OpenKeepsAgreement(sessions, next, slot, flags);
      if !SerialFlags(flags) {
        return Err(SessionParallelNotSupported);
      }
      var current := LoginStateForSlot(slot);
      if current == SoLoggedIn && !RwFlags(flags) {
        return Err(SessionReadWriteSoExists);
      }
      var handle := next;
      next := Bump(next);
      sessions := sessions[handle := NewSession(handle, slot, flags, current)];
      return Ok(handle);
    }

    method LoginAllSessionsOnSlot(slot: SlotId, login: LoginState)
      modifies this`sessions
      ensures sessions == LoginAll(old(sessions), slot, login)
    {
      var left := sessions.Keys;
      while left != {}
        invariant left <= sessions.Keys == old(sessions).Keys
        invariant forall h :: h in sessions ==>
                    sessions[h] == if h in left then old(sessions)[h] else LoginAll(old(sessions), slot, login)[h]
        decreases left
      {
        var h :| h in left;
        if sessions[h].slot == slot {
          sessions := sessions[h := sessions[h].(login := login)];
        }
        left := left - {h};
      }
    }

    method ReleaseFindContextsOnSlot(slot: SlotId)
      modifies this`sessions
      ensures sessions == ReleaseFinds(old(sessions), slot)
    {
      var left := sessions.Keys;
      while left != {}
        invariant left <= sessions.Keys == old(sessions).Keys
        invariant forall h :: h in sessions ==>
                    sessions[h] == if h in left then old(sessions)[h] else ReleaseFinds(old(sessions), slot)[h]
        decreases left
      {
        var h :| h in left;
        if sessions[h].slot == slot {
          sessions := sessions[h := sessions[h].(ops := sessions[h].ops.(find := None))];
        }
        left := left - {h};
      }
    }

    method HasReadOnlySessionsOnSlot(slot: SlotId) returns (found: bool)
      ensures found == HasReadOnly(sessions, slot)
    {
      var left := sessions.Keys;
      while left != {}
        invariant forall a :: a in sessions && a !in left ==> sessions[a].slot != slot || IsRw(sessions[a])
        invariant left <= sessions.Keys
        decreases left
      {
        var h :| h in left;
        if sessions[h].slot == slot && !IsRw(sessions[h]) {
          return true;
        }
        left := left - {h};
      }
      return false;
    }

    method CloseSession(handle: SessionHandle) returns (rv: Rv)
      modifies this`sessions
      ensures sessions == old(sessions) - {handle}
      ensures rv == if handle in old(sessions) then CkrOk else SessionHandleInvalid
    {
      if handle !in sessions {
        return SessionHandleInvalid;
      }
      sessions := sessions - {handle};
      return CkrOk;
    }

    method CloseAllSessions(slot: SlotId)
      modifies this`sessions
      ensures sessions == CloseAll(old(sessions), slot)
    {
      sessions := map h | h in sessions && sessions[h].slot != slot :: sessions[h];
    }
  }
}
