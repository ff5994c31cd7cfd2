/**
 The session table under lock-sized steps: every section that holds the session
 lock is one step, and steps of different calls interleave freely.
 */
module LoginSteps {
  import opened Types
  import opened Sessions

  /** One section under the session lock. `Touch` is any closure that leaves slot, flags and login state alone. */
  datatype TableStep =
    | Open(slot: SlotId, flags: nat)
    | Close(h: SessionHandle)
    | CloseSlot(slot: SlotId)
    | SetLogin(slot: SlotId, login: LoginState)
    | DropFinds(slot: SlotId)
    | Touch(h: SessionHandle, ticket: bool, ops: Operations)
    | Clear

  datatype Table = Table(sessions: SessionMap, next: SessionHandle)

  const EMPTY_TABLE: Table := Table(map[], 1)

  function Apply(t: Table, step: TableStep): Table {
    match step
    case Open(slot, flags) =>
      var (sessions, rv) := OpenSpec(t.sessions, t.next, slot, flags);
      if rv == CkrOk then Table(sessions, Bump(t.next)) else t
    case Close(h) => t.(sessions := t.sessions - {h})
    case CloseSlot(slot) => t.(sessions := CloseAll(t.sessions, slot))
    case SetLogin(slot, login) => t.(sessions := LoginAll(t.sessions, slot, login))
    case DropFinds(slot) => t.(sessions := ReleaseFinds(t.sessions, slot))
    case Touch(h, ticket, ops) =>
      if h in t.sessions then t.(sessions := t.sessions[h := t.sessions[h].(ticket := ticket, ops := ops)]) else t
    case Clear => t.(sessions := map[])
  }

  function Interleave(steps: seq<TableStep>): Table {
    if steps == [] then EMPTY_TABLE else Apply(Interleave(steps[..|steps| - 1]), steps[|steps| - 1])
  }

  lemma StepKeepsAgreement(t: Table, step: TableStep)
    requires Agreement(t.sessions)
    ensures Agreement(Apply(t, step).sessions)
  {
  }

  lemma LoginAllAgrees(sessions: SessionMap, slot: SlotId, login: LoginState)
    requires Agreement(sessions)
    ensures Agreement(LoginAll(sessions, slot, login))
  {
  }

  lemma ReleaseAgrees(sessions: SessionMap, slot: SlotId)
    requires Agreement(sessions)
    ensures Agreement(ReleaseFinds(sessions, slot))
  {
  }

  lemma TouchAgrees(sessions: SessionMap, h: SessionHandle, ticket: bool, ops: Operations)
    requires Agreement(sessions) && h in sessions
    ensures Agreement(sessions[h := sessions[h].(ticket := ticket, ops := ops)])
  {
  }

  /** Under every interleaving of lock-sized steps, all sessions of a slot carry the same login state. */
  lemma {:induction false} InterleavingsAgree(steps: seq<TableStep>, h: SessionHandle)
    ensures var sessions := Interleave(steps).sessions;
            Agreement(sessions) && (h in sessions ==> sessions[h].login == SlotLogin(sessions, sessions[h].slot))
  {
    if steps != [] {
      InterleavingsAgree(steps[..|steps| - 1], h);
      StepKeepsAgreement(Interleave(steps[..|steps| - 1]), steps[|steps| - 1]);
    }
    var sessions := Interleave(steps).sessions;
    if h in sessions {
      AnySessionShowsSlotLogin(sessions, h);
    }
  }

  /** The step does not make an SO login meet a read-only session. */
  predicate SoStepOk(sessions: SessionMap, step: TableStep) {
    step.SetLogin? && step.login == SoLoggedIn ==> !HasReadOnly(sessions, step.slot)
  }

  lemma StepKeepsSoRuleExact(t: Table, step: TableStep)
    requires Agreement(t.sessions) && SoImpliesRw(t.sessions)
    ensures SoImpliesRw(Apply(t, step).sessions) <==> SoStepOk(t.sessions, step)
  {
    match step
    case Open(slot, flags) => OpenKeepsAgreement(t.sessions, t.next, slot, flags);
    case SetLogin(slot, login) => LoginAllExact(t.sessions, slot, login);
    case _ =>
  }

  /** The SO rule holds in this table and held at every step before it. */
  predicate SoRuleThroughout(steps: seq<TableStep>) {
    SoImpliesRw(Interleave(steps).sessions) && (steps == [] || SoRuleThroughout(steps[..|steps| - 1]))
  }

  predicate SoLoginsMeetNoReader(steps: seq<TableStep>) {
    steps == [] || (SoLoginsMeetNoReader(steps[..|steps| - 1])
                    && SoStepOk(Interleave(steps[..|steps| - 1]).sessions, steps[|steps| - 1]))
  }

  /** With lock-sized steps the SO rule holds throughout exactly when no SO login lands beside a read-only session. */
  lemma {:induction false} SoRuleExact(steps: seq<TableStep>)
    ensures SoRuleThroughout(steps) <==> SoLoginsMeetNoReader(steps)
  {
    hide SoImpliesRw, SoStepOk, Apply;
    if steps == [] {
      EmptyTableObeys();
    } else {
      var before := steps[..|steps| - 1];
      SoRuleExact(before);
      InterleavingsAgree(before, 0);
      if SoRuleThroughout(before) {
        StepKeepsSoRuleExact(Interleave(before), steps[|steps| - 1]);
      }
    }
  }

  lemma EmptyTableObeys()
    ensures SoImpliesRw(EMPTY_TABLE.sessions)
  {
  }

  const RW_FLAGS: nat := 6
  const RO_FLAGS: nat := 4

  /**
   `C_Login` checks for read-only sessions in one section and logs in in a later one. A
   read-only session opened in between sees no SO yet and is accepted, so it ends up
   logged in as the SO.
   */
  lemma CheckThenLoginCanRace(slot: SlotId)
    ensures var checked := Interleave([Open(slot, RW_FLAGS)]).sessions;
            var ended := Interleave([Open(slot, RW_FLAGS), Open(slot, RO_FLAGS), SetLogin(slot, SoLoggedIn)]).sessions;
            !HasReadOnly(checked, slot) && SlotLogin(checked, slot) == NotLoggedIn && !SoImpliesRw(ended)
  {
    var s1, s2, s3 := [Open(slot, RW_FLAGS)], [Open(slot, RW_FLAGS), Open(slot, RO_FLAGS)],
      [Open(slot, RW_FLAGS), Open(slot, RO_FLAGS), SetLogin(slot, SoLoggedIn)];
    assert s1[..0] == [] && s2[..1] == s1 && s3[..2] == s2;
    var one := Table(map[1 := NewSession(1, slot, RW_FLAGS, NotLoggedIn)], 2);
    assert Interleave(s1) == one;
    assert !SomeOn(one.sessions, slot, SoLoggedIn) && !SomeOn(one.sessions, slot, UserLoggedIn);
    var two := Table(one.sessions[2 := NewSession(2, slot, RO_FLAGS, NotLoggedIn)], 3);
    assert Interleave(s2) == two;
    var ended := Interleave(s3).sessions;
    assert ended == LoginAll(two.sessions, slot, SoLoggedIn);
    assert 2 in ended && ended[2].login == SoLoggedIn && !IsRw(ended[2]);
  }
}
