/**
 The five process-wide reader-writer locks: which entry point takes which, in which
 nesting, and why no set of threads can block each other for ever.
 */
module Locking {

  datatype Lock = GlobalLock | ObjectLock | TokenLock | SessionLock | RegistryLock

  datatype Mode = Read | Write

  /** What a call does with locks: guards are scoped, so holding is nested. */
  datatype Prog =
    | Skip
    | Seq(first: Prog, second: Prog)
    | Choice(left: Prog, right: Prog)
    | Loop(body: Prog)
    | Hold(lock: Lock, mode: Mode, body: Prog)

  // ---- Threads ---------------------------------------------------------------------------------------------

  /** What a thread has left to do; an `Unlock` still on the stack is a lock it holds. */
  datatype Task = Do(prog: Prog) | Unlock(lock: Lock, mode: Mode)

  type Thread = seq<Task>

  predicate HoldsIn(t: Thread, l: Lock, m: Mode) {
    Unlock(l, m) in t
  }

  predicate Holds(t: Thread, l: Lock) {
    HoldsIn(t, l, Read) || HoldsIn(t, l, Write)
  }

  /** The thread is about to take `l` in mode `m`, and may be waiting for it. */
  predicate Wants(t: Thread, l: Lock, m: Mode) {
    t != [] && t[0].Do? && t[0].prog.Hold? && t[0].prog.lock == l && t[0].prog.mode == m
  }

  /** A lock is not re-entrant, and a waiting writer keeps new readers out. */
  predicate Granted(threads: seq<Thread>, i: nat, l: Lock, m: Mode) {
    match m
    case Write => forall j :: 0 <= j < |threads| ==> !Holds(threads[j], l)
    case Read => forall j :: 0 <= j < |threads| ==>
      !HoldsIn(threads[j], l, Write) && (j != i ==> !Wants(threads[j], l, Write))
  }

  /** One thread's possible next stacks, locks permitting. */
  predicate Moves(t: Thread, t': Thread)
    requires t != []
  {
    var rest := t[1..];
    match t[0]
    case Unlock(_, _) => t' == rest
    case Do(Skip) => t' == rest
    case Do(Seq(a, b)) => t' == [Do(a), Do(b)] + rest
    case Do(Choice(a, b)) => t' == [Do(a)] + rest || t' == [Do(b)] + rest
    case Do(Loop(b)) => t' == rest || t' == [Do(b), t[0]] + rest
    case Do(Hold(l, m, b)) => t' == [Do(b), Unlock(l, m)] + rest
  }

  predicate CanStep(threads: seq<Thread>, i: nat) {
    && i < |threads| && threads[i] != []
    && (threads[i][0].Do? && threads[i][0].prog.Hold? ==>
        Granted(threads, i, threads[i][0].prog.lock, threads[i][0].prog.mode))
  }

  predicate Step(threads: seq<Thread>, i: nat, threads': seq<Thread>) {
    && CanStep(threads, i) && |threads'| == |threads|
    && Moves(threads[i], threads'[i])
    && forall j :: 0 <= j < |threads| && j != i ==> threads'[j] == threads[j]
  }

  /** A run: some thread steps at every point. */
  ghost predicate Run(states: seq<seq<Thread>>) {
    states != [] && forall k :: 0 < k < |states| ==> Steps(states[k - 1], states[k])
  }

  ghost predicate Steps(threads: seq<Thread>, threads': seq<Thread>) {
    exists i :: Step(threads, i, threads')
  }

  // ---- The order -------------------------------------------------------------------------------------------

  function Rank(l: Lock): nat {
    match l
    case GlobalLock => 1
    case ObjectLock => 2
    case TokenLock => 3
    case SessionLock => 4
    case RegistryLock => 5
  }

  /** Every lock taken ranks above everything held around it. */
  predicate Ordered(p: Prog, above: nat) {
    match p
    case Skip => true
    case Seq(a, b) => Ordered(a, above) && Ordered(b, above)
    case Choice(a, b) => Ordered(a, above) && Ordered(b, above)
    case Loop(b) => Ordered(b, above)
    case Hold(l, _, b) => above < Rank(l) && Ordered(b, Rank(l))
  }

  /** The highest rank among the locks a stack still has to release. */
  function Top(t: Thread): nat {
    if t == [] then 0
    else if t[0].Unlock? && Rank(t[0].lock) > Top(t[1..]) then Rank(t[0].lock)
    else Top(t[1..])
  }

  predicate TaskOrdered(task: Task, above: nat) {
    match task
    case Do(p) => Ordered(p, above)
    case Unlock(l, _) => above < Rank(l)
  }

  predicate OrderedThread(t: Thread) {
    t == [] || (OrderedThread(t[1..]) && TaskOrdered(t[0], Top(t[1..])))
  }

  predicate AllOrdered(threads: seq<Thread>) {
    forall i :: 0 <= i < |threads| ==> OrderedThread(threads[i])
  }

  lemma {:induction false} HeldRanksBelowTop(t: Thread, l: Lock)
    requires Holds(t, l)
    ensures Rank(l) <= Top(t)
  {
    if t[0] != Unlock(l, Read) && t[0] != Unlock(l, Write) {
      assert Holds(t[1..], l);
      HeldRanksBelowTop(t[1..], l);
    }
  }

  /** A thread about to take a lock holds nothing of that rank or above: no lock is ever re-entered. */
  lemma WantedRanksAboveHeld(t: Thread, l: Lock, m: Mode, held: Lock)
    requires OrderedThread(t) && Wants(t, l, m) && Holds(t, held)
    ensures Rank(held) < Rank(l)
  {
    assert Holds(t[1..], held);
    HeldRanksBelowTop(t[1..], held);
  }

  lemma StepKeepsOrder(threads: seq<Thread>, i: nat, threads': seq<Thread>)
    requires AllOrdered(threads) && Step(threads, i, threads')
    ensures AllOrdered(threads')
  {
  }

  // ---- Progress --------------------------------------------------------------------------------------------

  predicate Unfinished(threads: seq<Thread>, i: nat) {
    i < |threads| && threads[i] != []
  }

  /** The thread is at a lock; the rank of that lock. */
  function WantedRank(t: Thread): nat {
    if t != [] && t[0].Do? && t[0].prog.Hold? then Rank(t[0].prog.lock) else 0
  }

  /** Among the unfinished threads, one wants a lock of greatest rank. */
  lemma {:induction false} HighestWant(threads: seq<Thread>, n: nat) returns (k: nat)
    requires n <= |threads| && exists i :: 0 <= i < n && threads[i] != []
    ensures k < n && threads[k] != []
    ensures forall j :: 0 <= j < n && threads[j] != [] ==> WantedRank(threads[j]) <= WantedRank(threads[k])
    decreases n
  {
    if exists i :: 0 <= i < n - 1 && threads[i] != [] {
      k := HighestWant(threads, n - 1);
      if threads[n - 1] != [] && WantedRank(threads[n - 1]) > WantedRank(threads[k]) {
        k := n - 1;
      }
    } else {
      k := n - 1;
    }
  }

  /** Nobody holds the lock of greatest rank that anybody wants. */
  lemma TopLockIsFree(threads: seq<Thread>, l: Lock, j: nat)
    requires AllOrdered(threads) && j < |threads|
    requires forall i :: 0 <= i < |threads| && threads[i] != [] ==> threads[i][0].Do? && threads[i][0].prog.Hold?
    requires forall i :: 0 <= i < |threads| ==> WantedRank(threads[i]) <= Rank(l)
    ensures !Holds(threads[j], l)
  {
    var t := threads[j];
    if Holds(t, l) {
      var want := t[0].prog;
      WantedRanksAboveHeld(t, want.lock, want.mode, l);
    }
  }

  /** With ordered stacks, some unfinished thread can always step. */
  lemma SomeoneCanStep(threads: seq<Thread>)
    requires AllOrdered(threads) && exists i :: Unfinished(threads, i)
    ensures exists i :: CanStep(threads, i)
  {
    var u :| Unfinished(threads, u);
    if i :| 0 <= i < |threads| && threads[i] != [] && !(threads[i][0].Do? && threads[i][0].prog.Hold?) {
      assert CanStep(threads, i);
    } else {
      var k := HighestWant(threads, |threads|);
      var l := threads[k][0].prog.lock;
      forall j | 0 <= j < |threads| ensures !Holds(threads[j], l) {
        TopLockIsFree(threads, l, j);
      }
      if w :| 0 <= w < |threads| && Wants(threads[w], l, Write) {
        assert CanStep(threads, w);
      } else {
        assert CanStep(threads, k);
      }
    }
  }

  // ---- Mutual exclusion --------------------------------------------------------------------------------------

  /** A writer excludes everybody else. */
  predicate Exclusive(threads: seq<Thread>) {
    forall i, j, l :: 0 <= i < |threads| && 0 <= j < |threads| && i != j && HoldsIn(threads[i], l, Write) ==>
      !Holds(threads[j], l)
  }

  lemma StepKeepsExclusive(threads: seq<Thread>, i: nat, threads': seq<Thread>)
    requires Exclusive(threads) && Step(threads, i, threads')
    ensures Exclusive(threads')
  {
  }

  // ---- The library's own lock programs -------------------------------------------------------------------------

  /** The sections the entry points are made of. */
  datatype Piece =
    | CheckInit
    | UseEngine
    | ReadSession | WriteSession
    | ReadObject | WriteObjects
    | ReadToken | WriteToken
    | Persist
    | StoreObject
    | ClearSlot
    | EnsureProfile
    | UseKey
    | CheckAuth
    | Query
    | TokenInfo
    | StartUp
    | Shutdown
    | Maybe(piece: Piece)

  function ReadLock(l: Lock): Prog { Hold(l, Read, Skip) }

  function WriteLock(l: Lock): Prog { Hold(l, Write, Skip) }

  function Optional(p: Prog): Prog { Choice(Skip, p) }

  /** `with_token`: a missing token is created between two read sections. */
  function WithToken(body: Prog): Prog {
    Seq(Hold(TokenLock, Read, Optional(body)), Optional(Seq(WriteLock(TokenLock), Hold(TokenLock, Read, body))))
  }

  /** `persist_if_needed`: the object lock is held throughout. */
  function PersistProg(): Prog {
    Hold(ObjectLock, Read, Seq(Loop(ReadLock(RegistryLock)), Seq(ReadLock(RegistryLock), Loop(WithToken(Skip)))))
  }

  /** `load_persisted_objects`. */
  function LoadProg(): Prog {
    Optional(Hold(ObjectLock, Write, Seq(Loop(ReadLock(RegistryLock)), Loop(WriteLock(TokenLock)))))
  }

  function ProfileProg(): Prog {
    Seq(ReadLock(ObjectLock), Optional(WriteLock(ObjectLock)))
  }

  function StartUpProg(): Prog {
    Seq(Seq(WriteLock(RegistryLock), Optional(ReadLock(RegistryLock))),
        Seq(LoadProg(), Seq(Loop(WriteLock(TokenLock)), Loop(ProfileProg()))))
  }

  function ShutdownProg(): Prog {
    Seq(WriteLock(SessionLock),
        Seq(PersistProg(), Seq(WriteLock(ObjectLock), Seq(WriteLock(TokenLock), WriteLock(RegistryLock)))))
  }

  function PieceProg(p: Piece): Prog {
    match p
    case CheckInit => ReadLock(GlobalLock)
    case UseEngine => ReadLock(RegistryLock)
    case ReadSession => ReadLock(SessionLock)
    case WriteSession => WriteLock(SessionLock)
    case ReadObject => ReadLock(ObjectLock)
    case WriteObjects => WriteLock(ObjectLock)
    case ReadToken => WithToken(Skip)
    case WriteToken => WriteLock(TokenLock)
    case Persist => PersistProg()
    case StoreObject => Seq(WriteLock(ObjectLock), Optional(PersistProg()))
    case ClearSlot => Seq(WriteLock(ObjectLock), PersistProg())
    case EnsureProfile => ProfileProg()
    case UseKey => Hold(ObjectLock, Read, ReadLock(RegistryLock))            // an engine call under the object lock
    case CheckAuth =>
      Hold(ObjectLock, Read, Optional(WriteLock(SessionLock)))  // the session lock under the object lock
    case Query => Hold(ObjectLock, Read, Loop(Optional(ReadLock(RegistryLock))))
    case TokenInfo =>
      WithToken(Seq(ReadLock(SessionLock), ReadLock(SessionLock)))  // session counts under the token lock
    case StartUp => Optional(Hold(GlobalLock, Write, Optional(StartUpProg())))
    case Shutdown => Optional(Hold(GlobalLock, Write, Optional(ShutdownProg())))
    case Maybe(q) => Optional(PieceProg(q))
  }

  /** One piece after the other, with a possible early return after each. */
  function InTurn(ps: seq<Piece>): Prog {
    if ps == [] then Skip else Seq(PieceProg(ps[0]), Choice(Skip, InTurn(ps[1..])))
  }

  datatype EntryPoint =
    | C_Initialize | C_Finalize | C_GetInfo | C_GetSlotList | C_GetSlotInfo | C_GetTokenInfo
    | C_GetMechanismList | C_GetMechanismInfo | C_WaitForSlotEvent
    | C_InitToken | C_InitPIN | C_SetPIN
    | C_OpenSession | C_CloseSession | C_CloseAllSessions | C_GetSessionInfo
    | C_Login | C_LoginUser | C_Logout | C_SessionCancel | C_GetOperationState | C_SetOperationState
    | C_CreateObject | C_CopyObject | C_DestroyObject | C_GetObjectSize | C_GetAttributeValue | C_SetAttributeValue
    | C_FindObjectsInit | C_FindObjects | C_FindObjectsFinal
    | C_GenerateKey | C_GenerateKeyPair | C_WrapKey | C_UnwrapKey | C_DeriveKey
    | C_SeedRandom | C_GenerateRandom
    | C_DigestInit | C_Digest | C_DigestUpdate | C_DigestKey | C_DigestFinal
    | C_SignInit | C_Sign | C_SignUpdate | C_SignFinal
    | C_VerifyInit | C_Verify | C_VerifyUpdate | C_VerifyFinal
    | C_EncryptInit | C_Encrypt | C_EncryptUpdate | C_EncryptFinal
    | C_DecryptInit | C_Decrypt | C_DecryptUpdate | C_DecryptFinal
    | C_MessageEncryptInit | C_EncryptMessage | C_EncryptMessageBegin | C_MessageEncryptFinal
    | C_MessageDecryptInit | C_DecryptMessage | C_DecryptMessageBegin | C_MessageDecryptFinal
    | C_SignMessage | C_SignMessageBegin | C_MessageSignFinal
    | C_VerifyMessage | C_VerifyMessageBegin | C_MessageVerifyFinal

  /** The pieces of every entry point that takes a lock, in order. */
  function Pieces(c: EntryPoint): seq<Piece> {
    match c
    case C_Initialize => [StartUp]
    case C_Finalize => [Shutdown]
    case C_GetTokenInfo => [CheckInit, UseEngine, TokenInfo]
    case C_InitToken => [CheckInit, UseEngine, ReadSession, WriteToken, ClearSlot, EnsureProfile, Persist]
    case C_InitPIN => [CheckInit, ReadSession, ReadSession, WriteToken, Persist]
    case C_SetPIN => [CheckInit, ReadSession, ReadSession, WriteToken, Persist, WriteSession]
    case C_OpenSession => [CheckInit, UseEngine, WriteSession]
    case C_CloseSession => [CheckInit, WriteSession, WriteObjects]
    case C_CloseAllSessions => [CheckInit, UseEngine, WriteSession, WriteObjects]
    case C_Login => [CheckInit, ReadSession, ReadSession, Maybe(ReadSession), Maybe(ReadToken), Maybe(WriteToken),
                     WriteSession, WriteSession]
    case C_LoginUser =>
      [CheckInit, ReadSession, ReadSession, Maybe(ReadSession), Maybe(ReadToken), Maybe(WriteToken), WriteSession]
    case C_Logout => [CheckInit, ReadSession, ReadSession, WriteSession, WriteObjects, WriteSession]
    case C_CreateObject => [CheckInit, ReadSession, Maybe(ReadSession), StoreObject]
    case C_CopyObject => [CheckInit, ReadSession, ReadObject, Maybe(ReadSession), StoreObject]
    case C_DestroyObject =>
      [CheckInit, ReadSession, ReadObject, Maybe(ReadSession), ReadObject, WriteObjects, Maybe(Persist)]
    case C_GetObjectSize => [CheckInit, ReadSession, ReadObject]
    case C_GetAttributeValue => [CheckInit, ReadSession, Query]
    case C_SetAttributeValue => [CheckInit, ReadSession, WriteObjects, Persist]
    case C_FindObjectsInit => [CheckInit, ReadSession, ReadObject, WriteSession]
    case C_GenerateKey => [CheckInit, ReadSession, Maybe(ReadSession), UseEngine, StoreObject]
    case C_GenerateKeyPair => [CheckInit, ReadSession, Maybe(ReadSession), UseEngine, StoreObject, StoreObject]
    case C_WrapKey =>
      [CheckInit, ReadSession, ReadObject, ReadObject, ReadObject, Maybe(ReadObject), ReadObject, ReadObject,
       UseEngine, WriteSession]
    case C_UnwrapKey => [CheckInit, ReadSession, Maybe(ReadSession), CheckAuth, UseKey, StoreObject, WriteSession]
    case C_DeriveKey =>
      [CheckInit, Maybe(ReadSession), ReadSession, CheckAuth, UseKey, UseEngine, StoreObject, WriteSession]
    case C_Sign => [CheckInit, WriteSession, CheckAuth, UseKey, WriteSession]
    case C_SignFinal => [CheckInit, WriteSession, CheckAuth, UseKey, WriteSession]
    case C_Decrypt => [CheckInit, WriteSession, CheckAuth, UseKey, WriteSession]
    case C_DecryptFinal => [CheckInit, WriteSession, CheckAuth, UseKey, WriteSession]
    case C_Verify => [CheckInit, ReadSession, ReadObject, Maybe(ReadObject), WriteSession, UseKey]
    case C_VerifyFinal => [CheckInit, ReadSession, ReadObject, Maybe(ReadObject), WriteSession, UseKey]
    case C_Encrypt => [CheckInit, WriteSession, UseKey]
    case C_EncryptFinal => [CheckInit, WriteSession, UseKey]
    case C_Digest => [CheckInit, WriteSession, UseEngine, WriteSession]
    case C_DigestFinal => [CheckInit, WriteSession, UseEngine, WriteSession]
    case C_DigestKey => [CheckInit, ReadSession, UseKey, WriteSession, WriteSession]
    case C_EncryptMessage => [CheckInit, ReadSession, UseKey]
    case C_DecryptMessage => [CheckInit, ReadSession, UseKey]
    case C_SignMessage => [CheckInit, ReadSession, UseKey]
    case C_VerifyMessage => [CheckInit, ReadSession, UseKey]
    case C_GenerateRandom => [CheckInit, ReadSession, UseEngine]
    case C_GetSlotList => [CheckInit, UseEngine]
    case C_GetSlotInfo => [CheckInit, UseEngine]
    case C_GetMechanismList => [CheckInit, UseEngine]
    case C_GetMechanismInfo => [CheckInit, UseEngine]
    case C_GetInfo => [CheckInit]
    case C_WaitForSlotEvent => [CheckInit]
    case _ =>
      if ReadsItsSessionOnly(c) then [CheckInit, ReadSession] else [CheckInit, WriteSession]
  }

  function Program(c: EntryPoint): Prog {
    InTurn(Pieces(c))
  }

  predicate ReadsItsSessionOnly(c: EntryPoint) {
    c.C_GetSessionInfo? || c.C_GetOperationState? || c.C_SetOperationState? || c.C_SeedRandom?
    || c.C_EncryptMessageBegin? || c.C_DecryptMessageBegin? || c.C_SignMessageBegin? || c.C_VerifyMessageBegin?
  }

  lemma PersistOrdered(above: nat)
    requires above < 2
    ensures Ordered(PersistProg(), above)
  {
    assert Ordered(WithToken(Skip), 2) && Ordered(Seq(ReadLock(RegistryLock), Loop(WithToken(Skip))), 2);
  }

  lemma LifecycleOrdered()
    ensures Ordered(StartUpProg(), 1) && Ordered(ShutdownProg(), 1)
  {
    PersistOrdered(1);
    assert Ordered(LoadProg(), 1) && Ordered(ProfileProg(), 1);
    assert Ordered(Seq(LoadProg(), Seq(Loop(WriteLock(TokenLock)), Loop(ProfileProg()))), 1);
    assert Ordered(Seq(WriteLock(ObjectLock), Seq(WriteLock(TokenLock), WriteLock(RegistryLock))), 1);
  }

  /** Every section nests its locks in the order global, objects, tokens, sessions, registry. */
  lemma {:induction false} PieceOrdered(p: Piece)
    ensures Ordered(PieceProg(p), 0)
  {
    PersistOrdered(0);
    LifecycleOrdered();
    match p
    case Maybe(q) => PieceOrdered(q);
    case StartUp => assert Ordered(Optional(StartUpProg()), 1);
    case Shutdown => assert Ordered(Optional(ShutdownProg()), 1);
    case TokenInfo => assert Ordered(Seq(ReadLock(SessionLock), ReadLock(SessionLock)), 3);
    case _ =>
  }

  lemma {:induction false} InTurnOrdered(ps: seq<Piece>)
    ensures Ordered(InTurn(ps), 0)
  {
    hide PieceProg;
    if ps != [] {
      PieceOrdered(ps[0]);
      InTurnOrdered(ps[1..]);
      assert Ordered(Choice(Skip, InTurn(ps[1..])), 0);
    }
  }

  /** Every entry point follows the order. */
  lemma ProgramOrdered(c: EntryPoint)
    ensures Ordered(Program(c), 0)
  {
    hide Pieces, Ordered;
    InTurnOrdered(Pieces(c));
  }

  // ---- Deadlock freedom ----------------------------------------------------------------------------------------

  /** A thread that makes these calls one after the other. */
  function Calls(cs: seq<EntryPoint>): Thread {
    seq(|cs|, i requires 0 <= i < |cs| => Do(Program(cs[i])))
  }

  lemma {:induction false} CallsOrdered(cs: seq<EntryPoint>)
    ensures OrderedThread(Calls(cs)) && Top(Calls(cs)) == 0
  {
    if cs != [] {
      CallsOrdered(cs[1..]);
      ProgramOrdered(cs[0]);
      assert Calls(cs)[1..] == Calls(cs[1..]);
      assert Calls(cs) == [Do(Program(cs[0]))] + Calls(cs[1..]);
    }
  }

  ghost predicate Initial(threads: seq<Thread>, work: seq<seq<EntryPoint>>) {
    |threads| == |work| && forall i :: 0 <= i < |work| ==> threads[i] == Calls(work[i])
  }

  /**
   For any number of threads making any calls, in any interleaving: a writer excludes
   everybody else, no thread ever waits for a lock it holds, and as long as some thread
   has work left some thread can take a step.
   */
  lemma {:induction false} NoDeadlock(work: seq<seq<EntryPoint>>, states: seq<seq<Thread>>)
    requires Run(states) && Initial(states[0], work)
    ensures var last := states[|states| - 1];
            && AllOrdered(last) && Exclusive(last)
            && (forall i, l, m :: 0 <= i < |last| && Wants(last[i], l, m) ==> !Holds(last[i], l))
            && ((exists i :: Unfinished(last, i)) ==> exists i :: CanStep(last, i))
    decreases |states|
  {
    hide Program, Step, CanStep, OrderedThread;
    var last := states[|states| - 1];
    if |states| == 1 {
      forall i | 0 <= i < |work| ensures OrderedThread(last[i]) && forall l :: !Holds(last[i], l) {
        CallsOrdered(work[i]);
      }
    } else {
      var before := states[..|states| - 1];
      NoDeadlock(work, before);
      assert Steps(states[|states| - 2], states[|states| - 1]);
      var i :| Step(before[|before| - 1], i, last);
      StepKeepsOrder(before[|before| - 1], i, last);
      StepKeepsExclusive(before[|before| - 1], i, last);
    }
    forall i, l, m | 0 <= i < |last| && Wants(last[i], l, m) ensures !Holds(last[i], l) {
      if Holds(last[i], l) {
        WantedRanksAboveHeld(last[i], l, m, l);
      }
    }
    if exists i :: Unfinished(last, i) {
      SomeoneCanStep(last);
    }
  }
}
