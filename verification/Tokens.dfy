/**
 Per-slot token: the Reset / ReadWrite / ReadOnly machine, the two PINs and their
 failure counters. A PIN hash is represented by the PIN it accepts.
 */
module Tokens {
  import opened Types

  const MAX_PIN_FAILURES: nat := 10
  const MIN_PIN_LEN: nat := 4
  const MAX_PIN_LEN: nat := 64
  const LABEL_LEN: nat := 32
  const SERIAL_LEN: nat := 16

  datatype TokenState = Reset | ReadWrite | ReadOnly

  datatype HashedPin = HashedPin(accepts: Bytes)

  predicate Verifies(p: Option<HashedPin>, pin: Bytes) {
    p.Some? && p.value.accepts == pin
  }

  /** The value of a token's fields. */
  datatype TokenData = TokenData(
    slot: SlotId,
    tokenLabel: Bytes,
    state: TokenState,
    soPin: Option<HashedPin>,
    userPin: Option<HashedPin>,
    soFailures: nat,
    userFailures: nat,
    loginRequired: bool,
    minPinLen: nat,
    maxPinLen: nat,
    serial: Bytes)

  function Padded(b: Bytes, n: nat): Bytes {
    if |b| < n then b + seq(n - |b|, _ => 32) else b[..n]
  }

  // "Uninitialized Token", "Cryptoki Token", "00000001", "so-pin", "1234"
  const UNINITIALIZED_LABEL: Bytes :=
    [85, 110, 105, 110, 105, 116, 105, 97, 108, 105, 122, 101, 100, 32, 84, 111, 107, 101, 110]
  const DEFAULT_LABEL: Bytes := [67, 114, 121, 112, 116, 111, 107, 105, 32, 84, 111, 107, 101, 110]
  const SERIAL: Bytes := [48, 48, 48, 48, 48, 48, 48, 49]
  const FACTORY_SO_PIN: Bytes := [115, 111, 45, 112, 105, 110]
  const FACTORY_USER_PIN: Bytes := [49, 50, 51, 52]

  function NewToken(slot: SlotId): TokenData {
    TokenData(slot, Padded(UNINITIALIZED_LABEL, LABEL_LEN), Reset, None, None, 0, 0, true,
              MIN_PIN_LEN, MAX_PIN_LEN, Padded(SERIAL, SERIAL_LEN))
  }

  function DefaultToken(slot: SlotId): TokenData {
    NewToken(slot).(tokenLabel := Padded(DEFAULT_LABEL, LABEL_LEN), state := ReadWrite,
                    soPin := Some(HashedPin(FACTORY_SO_PIN)), userPin := Some(HashedPin(FACTORY_USER_PIN)))
  }

  predicate PinLenOk(t: TokenData, pin: Bytes) {
    t.minPinLen <= |pin| <= t.maxPinLen
  }

  // ---- Specification of the five operations ------------------------------------------

  /** May `pin` re-initialise the token? The current SO PIN, or any PIN while the factory PIN is in place. */
  predicate InitPinAccepted(t: TokenData, pin: Bytes) {
    t.state != Reset && t.soPin.Some? ==> Verifies(t.soPin, pin) || Verifies(t.soPin, FACTORY_SO_PIN)
  }

  function InitTokenSpec(t: TokenData, pin: Bytes, tokenLabel: Bytes): (TokenData, Rv) {
    if !PinLenOk(t, pin) then (t, PinLenRange)
    else if !InitPinAccepted(t, pin) then (t, PinIncorrect)
    else (t.(tokenLabel := tokenLabel, soPin := Some(HashedPin(pin)), userPin := None, soFailures := 0,
             userFailures := 0,
             state := ReadWrite), CkrOk)
  }

  function InitPinSpec(t: TokenData, pin: Bytes): (TokenData, Rv) {
    if t.state == Reset then (t, GeneralError)
    else if !PinLenOk(t, pin) then (t, PinLenRange)
    else (t.(userPin := Some(HashedPin(pin)), userFailures := 0), CkrOk)
  }

  function SetPinSpec(t: TokenData, userType: nat, pin: Bytes): (TokenData, Rv) {
    if !PinLenOk(t, pin) then (t, PinLenRange)
    else if userType == CKU_SO then (t.(soPin := Some(HashedPin(pin)), soFailures := 0), CkrOk)
    else if userType == CKU_USER then (t.(userPin := Some(HashedPin(pin)), userFailures := 0), CkrOk)
    else (t, UserTypeInvalid)
  }

  function VerifyPinSpec(t: TokenData, userType: nat, pin: Bytes): (TokenData, Rv) {
    if userType == CKU_SO then
      if t.state == ReadOnly then (t, PinLocked)
      else if Verifies(t.soPin, pin) then (t.(soFailures := 0), CkrOk)
      else if t.soFailures + 1 >= MAX_PIN_FAILURES
        then (t.(soFailures := t.soFailures + 1, state := ReadOnly), PinLocked)
      else (t.(soFailures := t.soFailures + 1), PinIncorrect)
    else if userType == CKU_USER then
      if t.userFailures >= MAX_PIN_FAILURES then (t, PinLocked)
      else if Verifies(t.userPin, pin) then (t.(userFailures := 0), CkrOk)
      else (t.(userFailures := t.userFailures + 1), PinIncorrect)
    else (t, ArgumentsBad)
  }

  /**
   The token part of `C_SetPIN`: the old PIN is verified with counting; when that
   fails for the user, the new PIN is tried as well, again with counting.
   */
  function ChangePinSpec(t: TokenData, userType: nat, oldPin: Bytes, newPin: Bytes): (TokenData, Rv) {
    var (t1, rv1) := VerifyPinSpec(t, userType, oldPin);
    if rv1 == CkrOk then SetPinSpec(t1, userType, newPin)
    else if userType != CKU_USER then (t1, rv1)
    else
      var (t2, rv2) := VerifyPinSpec(t1, userType, newPin);
      if rv2 != CkrOk then (t2, rv1) else SetPinSpec(t2, userType, newPin)
  }

  // ---- The mutable token ----------------------------------------------------------------

  class Token {
    var slot: SlotId
    var tokenLabel: Bytes
    var state: TokenState
    var soPin: Option<HashedPin>
    var userPin: Option<HashedPin>
    var soFailures: nat
    var userFailures: nat
    var loginRequired: bool
    var minPinLen: nat
    var maxPinLen: nat
    var serial: Bytes

    function View(): TokenData
      reads this
    {
      TokenData(slot, tokenLabel, state, soPin, userPin, soFailures, userFailures, loginRequired, minPinLen, maxPinLen,
                serial)
    }

    constructor Load(t: TokenData)
      ensures View() == t
    {
      slot, tokenLabel, state := t.slot, t.tokenLabel, t.state;
      soPin, userPin := t.soPin, t.userPin;
      soFailures, userFailures := t.soFailures, t.userFailures;
      loginRequired, minPinLen, maxPinLen, serial := t.loginRequired, t.minPinLen, t.maxPinLen, t.serial;
    }

    method InitToken(pin: Bytes, newLabel: Bytes) returns (rv: Rv)
      modifies this
      ensures (View(), rv) == InitTokenSpec(old(View()), pin, newLabel)
    {
      if |pin| < minPinLen || |pin| > maxPinLen {
        return PinLenRange;
      }
      if state != Reset {
        if soPin.Some? {
          var matches := Verifies(soPin, pin);
          var factory := Verifies(soPin, FACTORY_SO_PIN);
          if !matches && !factory {
            return PinIncorrect;
          }
        }
      }
      tokenLabel := newLabel;
      soPin := Some(HashedPin(pin));
      userPin := None;
      soFailures := 0;
      userFailures := 0;
      state := ReadWrite;
      return CkrOk;
    }

    method InitPin(pin: Bytes) returns (rv: Rv)
      modifies this
      ensures (View(), rv) == InitPinSpec(old(View()), pin)
    {
      if state == Reset {
        return GeneralError;
      }
      if |pin| < minPinLen || |pin| > maxPinLen {
        return PinLenRange;
      }
      userPin := Some(HashedPin(pin));
      userFailures := 0;
      return CkrOk;
    }

    method SetPin(userType: nat, pin: Bytes) returns (rv: Rv)
      modifies this
      ensures (View(), rv) == SetPinSpec(old(View()), userType, pin)
    {
      if |pin| < minPinLen || |pin| > maxPinLen {
        return PinLenRange;
      }
      if userType == CKU_SO {
        soPin := Some(HashedPin(pin));
        soFailures := 0;
      } else if userType == CKU_USER {
        userPin := Some(HashedPin(pin));
        userFailures := 0;
      } else {
        return UserTypeInvalid;
      }
      return CkrOk;
    }

    method VerifyPin(userType: nat, pin: Bytes) returns (rv: Rv)
      modifies this
      ensures (View(), rv) == VerifyPinSpec(old(View()), userType, pin)
    {
      if userType == CKU_SO {
        if state == ReadOnly {
          return PinLocked;
        }
        if !Verifies(soPin, pin) {
          soFailures := soFailures + 1;
          if soFailures >= MAX_PIN_FAILURES {
            state := ReadOnly;
            return PinLocked;
          }
          return PinIncorrect;
        }
        soFailures := 0;
      } else if userType == CKU_USER {
        if userFailures >= MAX_PIN_FAILURES {
          return PinLocked;
        }
        if !Verifies(userPin, pin) {
          userFailures := userFailures + 1;
          return PinIncorrect;
        }
        userFailures := 0;
      } else {
        return ArgumentsBad;
      }
      return CkrOk;
    }

    /** The closure `C_SetPIN` runs under the token lock. */
    method ChangePin(userType: nat, oldPin: Bytes, newPin: Bytes) returns (rv: Rv)
      modifies this
      ensures (View(), rv) == ChangePinSpec(old(View()), userType, oldPin, newPin)
    {
      var first := VerifyPin(userType, oldPin);
      if first != CkrOk {
        if userType != CKU_USER {
          return first;
        }
        var second := VerifyPin(userType, newPin);
        if second != CkrOk {
          return first;
        }
      }
      rv := SetPin(userType, newPin);
    }

    /** `token_flags`: the mask is built bit by bit. */
    method TokenFlags() returns (flags: bv32)
      ensures FlagsDescribe(flags, View())
    {
      flags := CKF_RNG;
      if state != Reset {
        flags := flags | CKF_TOKEN_INITIALIZED;
      }
      if loginRequired {
        flags := flags | CKF_LOGIN_REQUIRED;
      }
      if userPin.Some? {
        flags := flags | CKF_USER_PIN_INITIALIZED;
      }
      if state == ReadOnly {
        flags := flags | CKF_WRITE_PROTECTED;
      }
      if soFailures > 0 && soFailures < MAX_PIN_FAILURES {
        flags := flags | CKF_SO_PIN_COUNT_LOW;
        if soFailures == MAX_PIN_FAILURES - 1 {
          flags := flags | CKF_SO_PIN_FINAL_TRY;
        }
      }
      if soFailures >= MAX_PIN_FAILURES {
        flags := flags | CKF_SO_PIN_LOCKED;
      }
      if userFailures > 0 && userFailures < MAX_PIN_FAILURES {
        flags := flags | CKF_USER_PIN_COUNT_LOW;
        if userFailures == MAX_PIN_FAILURES - 1 {
          flags := flags | CKF_USER_PIN_FINAL_TRY;
        }
      }
      if userFailures >= MAX_PIN_FAILURES {
        flags := flags | CKF_USER_PIN_LOCKED;
      }
    }
  }

  const CKF_RNG: bv32 := 0x0000_0001
  const CKF_WRITE_PROTECTED: bv32 := 0x0000_0002
  const CKF_LOGIN_REQUIRED: bv32 := 0x0000_0004
  const CKF_USER_PIN_INITIALIZED: bv32 := 0x0000_0008
  const CKF_TOKEN_INITIALIZED: bv32 := 0x0000_0400
  const CKF_USER_PIN_COUNT_LOW: bv32 := 0x0001_0000
  const CKF_USER_PIN_FINAL_TRY: bv32 := 0x0002_0000
  const CKF_USER_PIN_LOCKED: bv32 := 0x0004_0000
  const CKF_SO_PIN_LOCKED: bv32 := 0x0040_0000
  const CKF_SO_PIN_COUNT_LOW: bv32 := 0x0100_0000
  const CKF_SO_PIN_FINAL_TRY: bv32 := 0x0200_0000

  predicate Has(flags: bv32, bit: bv32) {
    flags & bit != 0
  }

  /** Each bit of the mask says exactly one thing about the token. */
  predicate FlagsDescribe(flags: bv32, t: TokenData) {
    && Has(flags, CKF_RNG)
    && Has(flags, CKF_TOKEN_INITIALIZED) == (t.state != Reset)
    && Has(flags, CKF_LOGIN_REQUIRED) == t.loginRequired
    && Has(flags, CKF_USER_PIN_INITIALIZED) == t.userPin.Some?
    && Has(flags, CKF_WRITE_PROTECTED) == (t.state == ReadOnly)
    && Has(flags, CKF_SO_PIN_COUNT_LOW) == (0 < t.soFailures < MAX_PIN_FAILURES)
    && Has(flags, CKF_SO_PIN_FINAL_TRY) == (t.soFailures == MAX_PIN_FAILURES - 1)
    && Has(flags, CKF_SO_PIN_LOCKED) == (t.soFailures >= MAX_PIN_FAILURES)
    && Has(flags, CKF_USER_PIN_COUNT_LOW) == (0 < t.userFailures < MAX_PIN_FAILURES)
    && Has(flags, CKF_USER_PIN_FINAL_TRY) == (t.userFailures == MAX_PIN_FAILURES - 1)
    && Has(flags, CKF_USER_PIN_LOCKED) == (t.userFailures >= MAX_PIN_FAILURES)
  }

  // ---- The PIN automaton over whole runs ---------------------------------------------------

  datatype TokenOp =
    | OpInitToken(pin: Bytes, tokenLabel: Bytes)
    | OpInitPin(pin: Bytes)
    | OpChangePin(userType: nat, oldPin: Bytes, newPin: Bytes)
    | OpVerify(userType: nat, pin: Bytes)

  function TokenStep(t: TokenData, op: TokenOp): (TokenData, Rv) {
    match op
    case OpInitToken(pin, tokenLabel) => InitTokenSpec(t, pin, tokenLabel)
    case OpInitPin(pin) => InitPinSpec(t, pin)
    case OpChangePin(ut, oldPin, newPin) => ChangePinSpec(t, ut, oldPin, newPin)
    case OpVerify(ut, pin) => VerifyPinSpec(t, ut, pin)
  }

  function TokenRun(t: TokenData, ops: seq<TokenOp>): TokenData {
    if ops == [] then t else TokenStep(TokenRun(t, ops[..|ops| - 1]), ops[|ops| - 1]).0
  }

  /** Counters are bounded, and the SO counter is full exactly in the read-only state. */
  predicate TokenOk(t: TokenData) {
    && t.soFailures <= MAX_PIN_FAILURES
    && t.userFailures <= MAX_PIN_FAILURES
    && (t.soFailures == MAX_PIN_FAILURES <==> t.state == ReadOnly)
    && t.minPinLen == MIN_PIN_LEN && t.maxPinLen == MAX_PIN_LEN
  }

  lemma TokenStepKeepsOk(t: TokenData, op: TokenOp)
    requires TokenOk(t)
    ensures TokenOk(TokenStep(t, op).0) && TokenStep(t, op).0.slot == t.slot
  {
  }

  /** Both counters stay at most ten and mark the read-only state, over every run from a fresh token. */
  lemma {:induction false} TokenRunKeepsOk(t: TokenData, ops: seq<TokenOp>)
    requires TokenOk(t)
    ensures TokenOk(TokenRun(t, ops))
  {
    if ops != [] {
      TokenRunKeepsOk(t, ops[..|ops| - 1]);
      TokenStepKeepsOk(TokenRun(t, ops[..|ops| - 1]), ops[|ops| - 1]);
    }
  }

  /** Does this operation, from `t`, give the user PIN a clean slate? */
  predicate Unlocks(t: TokenData, op: TokenOp) {
    (op.OpInitToken? || op.OpInitPin?) && TokenStep(t, op).1 == CkrOk
  }

  predicate NeverUnlocks(t: TokenData, ops: seq<TokenOp>) {
    ops == [] || (NeverUnlocks(t, ops[..|ops| - 1]) && !Unlocks(TokenRun(t, ops[..|ops| - 1]), ops[|ops| - 1]))
  }

  /**
   A locked user PIN stays locked, and rejects every login and every PIN change as
   the user, until `C_InitPIN` or `C_InitToken` succeeds.
   */
  lemma {:induction false} LockedUserPinStaysLocked(t: TokenData, ops: seq<TokenOp>, pin: Bytes, newPin: Bytes)
    requires t.userFailures >= MAX_PIN_FAILURES && NeverUnlocks(t, ops)
    ensures var u := TokenRun(t, ops);
            && u.userFailures >= MAX_PIN_FAILURES
            && VerifyPinSpec(u, CKU_USER, pin) == (u, PinLocked)
            && ChangePinSpec(u, CKU_USER, pin, newPin) == (u, PinLocked)
  {
    if ops != [] {
      LockedUserPinStaysLocked(t, ops[..|ops| - 1], pin, newPin);
    }
  }

  /** One counted attempt: nothing moves once the counter is full. */
  function Attempt(n: nat, correct: bool): nat {
    if n >= MAX_PIN_FAILURES then n else if correct then 0 else n + 1
  }

  /** The reference count after one operation, given the count before it. */
  function CountAfter(u: TokenData, n: nat, op: TokenOp): nat {
    match op
    case OpVerify(ut, pin) => if ut == CKU_USER then Attempt(n, Verifies(u.userPin, pin)) else n
    case OpChangePin(ut, oldPin, newPin) =>
      if ut != CKU_USER then n
      else if Attempt(n, Verifies(u.userPin, oldPin)) == 0 then 0
      else Attempt(Attempt(n, Verifies(u.userPin, oldPin)), Verifies(u.userPin, newPin))
    case _ => if Unlocks(u, op) then 0 else n
  }

  /** How many counted user attempts have failed in a row since the last success or reset, up to the cap. */
  function FailedInARow(t: TokenData, ops: seq<TokenOp>): nat {
    if ops == [] then t.userFailures
    else CountAfter(TokenRun(t, ops[..|ops| - 1]), FailedInARow(t, ops[..|ops| - 1]), ops[|ops| - 1])
  }

  lemma CountAfterExact(u: TokenData, op: TokenOp)
    ensures TokenStep(u, op).0.userFailures == CountAfter(u, u.userFailures, op)
  {
  }

  /** The stored counter is exactly the number of failures in a row; a wrong `C_SetPIN` costs two of them. */
  lemma {:induction false} CounterCountsFailures(t: TokenData, ops: seq<TokenOp>)
    ensures TokenRun(t, ops).userFailures == FailedInARow(t, ops)
  {
    if ops != [] {
      CounterCountsFailures(t, ops[..|ops| - 1]);
      CountAfterExact(TokenRun(t, ops[..|ops| - 1]), ops[|ops| - 1]);
    }
  }

  /** What `token_flags` announces about the next wrong attempt is what then happens. */
  lemma FlagsPredictNextAttempt(t: TokenData, flags: bv32, pin: Bytes)
    requires TokenOk(t) && FlagsDescribe(flags, t)
    ensures !Verifies(t.soPin, pin) ==>
              (Has(flags, CKF_SO_PIN_FINAL_TRY) || Has(flags, CKF_SO_PIN_LOCKED) <==>
               VerifyPinSpec(t, CKU_SO, pin).1 == PinLocked)
    ensures !Verifies(t.soPin, pin) ==>
              (Has(flags, CKF_SO_PIN_FINAL_TRY) <==>
               t.state != ReadOnly && VerifyPinSpec(t, CKU_SO, pin).0.state == ReadOnly)
    ensures Has(flags, CKF_USER_PIN_LOCKED) <==> VerifyPinSpec(t, CKU_USER, pin).1 == PinLocked
    ensures !Verifies(t.userPin, pin) && !Has(flags, CKF_USER_PIN_LOCKED) ==>
              (Has(flags, CKF_USER_PIN_FINAL_TRY) <==>
               VerifyPinSpec(VerifyPinSpec(t, CKU_USER, pin).0, CKU_USER, pin).1 == PinLocked)
  {
  }

  /** The PIN of a role. */
  function PinOf(t: TokenData, userType: nat): Option<HashedPin> {
    if userType == CKU_SO then t.soPin else t.userPin
  }

  /**
   `C_SetPIN` changes the accepted PIN exactly when it succeeds, to the new PIN;
   when the old PIN was wrong the accepted PIN is the same before and after.
   The other role's PIN is never touched.
   */
  lemma ChangePinAcceptsExactlyNew(t: TokenData, userType: nat, oldPin: Bytes, newPin: Bytes, probe: Bytes)
    requires userType == CKU_SO || userType == CKU_USER
    ensures var (u, rv) := ChangePinSpec(t, userType, oldPin, newPin);
            && (rv == CkrOk ==> (Verifies(PinOf(u, userType), probe) <==> probe == newPin))
            && (rv != CkrOk ==> PinOf(u, userType) == PinOf(t, userType))
            && (!Verifies(PinOf(t, userType), oldPin) ==> PinOf(u, userType) == PinOf(t, userType))
            && PinOf(u, 1 - userType) == PinOf(t, 1 - userType)
  {
  }

  /**
   A successful `C_InitToken` leaves exactly its PIN accepted for the SO and no PIN for the
   user, and the token can be initialised again with that PIN; a refused one changes nothing.
   */
  lemma InitTokenThenLogin(t: TokenData, pin: Bytes, text: Bytes, text': Bytes, probe: Bytes)
    ensures var (u, rv) := InitTokenSpec(t, pin, text);
            && (rv == CkrOk ==>
                  && (VerifyPinSpec(u, CKU_SO, probe).1 == CkrOk <==> probe == pin)
                  && VerifyPinSpec(u, CKU_USER, probe).1 != CkrOk
                  && InitTokenSpec(u, pin, text').1 == CkrOk)
            && (rv != CkrOk ==> u == t)
  {
  }

  /**
   A successful `C_InitPIN` leaves exactly its PIN accepted for the user, lock or no lock before, and the SO
   as it was.
   */
  lemma InitPinThenLogin(t: TokenData, pin: Bytes, probe: Bytes)
    ensures var (u, rv) := InitPinSpec(t, pin);
            && (rv == CkrOk ==>
                  && (VerifyPinSpec(u, CKU_USER, probe).1 == CkrOk <==> probe == pin)
                  && VerifyPinSpec(u, CKU_SO, probe).1 == VerifyPinSpec(t, CKU_SO, probe).1)
            && (rv != CkrOk ==> u == t)
  {
  }
}
