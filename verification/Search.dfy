/**
 Template search: the snapshot taken at the start, the cursor over it, what a
 logged-out session can still see, and the C++ wrapper's batch loop.
 */
module Search {
  import opened Types
  import opened Objects
  import opened Backend
  import opened Sessions
  import opened SessionOperations
  import opened Storage
  import opened Machine
  import opened Tickets
  import opened Streams

  // ---- The cursor over whole runs --------------------------------------------------------------------------

  /** A search as the caller sees it: what it should find, what was private then, and what it has handed out. */
  datatype SearchView = SearchView(expected: set<ObjectHandle>, hidden: set<ObjectHandle>, delivered: seq<ObjectHandle>)

  function PrivateOn(objects: ObjectMap): set<ObjectHandle> {
    set h | h in objects && IsPrivateObject(objects[h])
  }

  function OpenView(st: State, h: SessionHandle, template: Template): SearchView
    requires h in st.sessions
  {
    SearchView(VisibleMatches(st.objects, st.sessions[h].slot, CollectTemplateVec(template),
                              st.sessions[h].login != NotLoggedIn),
               PrivateOn(st.objects), [])
  }

  function NextView(st: State, h: SessionHandle, view: Option<SearchView>, op: SessionOp, out: Out): Option<SearchView>
    requires h in st.sessions
  {
    if out.rv != CkrOk then view
    else
      match op
      case FindObjectsInit(template, _) => Some(OpenView(st, h, template))
      case FindObjects(_) =>
        if view.Some? then Some(view.value.(delivered := view.value.delivered + out.handles)) else view
      case _ => view
  }

  ghost function TrackedSearch(e: Engine, st: State, calls: seq<Call>, h: SessionHandle): Option<SearchView> {
    if calls == [] then None
    else
      var before := After(e, st, calls[..|calls| - 1]);
      var c := calls[|calls| - 1];
      var view := TrackedSearch(e, st, calls[..|calls| - 1], h);
      if c.Op? && c.h == h && h in before.sessions && before.initialized
      then NextView(before, h, view, c.op, Step(e, before, c).1)
      else view
  }

  /** A live search: its snapshot lists exactly what it should, and the cursor is where the deliveries end. */
  ghost predicate Follows(find: Option<FindContext>, view: Option<SearchView>, loggedIn: bool) {
    find.Some? ==>
      && view.Some?
      && find.value.index <= |find.value.results|
      && view.value.delivered == find.value.results[..find.value.index]
      && Enumerates(find.value.results, view.value.expected)
      && (!loggedIn ==> view.value.expected !! view.value.hidden)
  }

  ghost predicate FollowsAt(sessions: SessionMap, h: SessionHandle, view: Option<SearchView>) {
    h in sessions ==> Follows(sessions[h].ops.find, view, sessions[h].login != NotLoggedIn)
  }

  lemma BatchExtends(ctx: FindContext, max: nat)
    requires ctx.index <= |ctx.results|
    ensures ctx.results[..ctx.index] + NextBatch(ctx, max) == ctx.results[..ctx.index + |NextBatch(ctx, max)|]
    ensures ctx.index + |NextBatch(ctx, max)| <= |ctx.results|
    ensures |NextBatch(ctx, max)| < max ==> ctx.index + |NextBatch(ctx, max)| == |ctx.results|
  {
  }

  lemma OtherOpsKeepFind(env: Env, s: Session, op: SessionOp)
    requires !op.FindObjectsInit? && !op.FindObjects?
    ensures SessionStep(env, s, op).0.ops.find in {None, s.ops.find}
  {
    hide SignWith, VerifyWith, EncryptSymmetric, DecryptSymmetric, DigestWith, WriteToOutput, ExtractCipherParams;
    hide AttrTrue;
  }

  lemma FindStepFollows(env: Env, st: State, h: SessionHandle, op: SessionOp, view: Option<SearchView>)
    requires h in st.sessions && FollowsAt(st.sessions, h, view) && (op.FindObjectsInit? || op.FindObjects?)
    requires op.FindObjectsInit? ==> Enumerates(op.results, OpenView(st, h, op.template).expected)
    ensures var (s', out) := SessionStep(env, st.sessions[h], op);
            Follows(s'.ops.find, NextView(st, h, view, op, out), s'.login != NotLoggedIn)
  {
    hide Enumerates, VisibleMatches, PrivateOn;
    var s := st.sessions[h];
    if op.FindObjects? {
      if s.ops.find.Some? {
        BatchExtends(s.ops.find.value, op.max);
      }
    } else {
      HiddenFromPublic(st, h, op.template);
      assert op.results[..0] == [];
    }
  }

  lemma HiddenFromPublic(st: State, h: SessionHandle, template: Template)
    requires h in st.sessions
    ensures st.sessions[h].login == NotLoggedIn ==>
            OpenView(st, h, template).expected !! OpenView(st, h, template).hidden
  {
    hide MatchesTemplate;
  }

  lemma OpFollows(e: Engine, st: State, c: Call, h: SessionHandle, view: Option<SearchView>)
    requires c.Op? && c.h == h && h in st.sessions && st.initialized && Legal(st, c) && FollowsAt(st.sessions, h, view)
    ensures FollowsAt(Step(e, st, c).0.sessions, h, NextView(st, h, view, c.op, Step(e, st, c).1))
  {
    hide Step, SessionStep, Follows;
    OpTouchesOwnSession(e, st, c, h);
    var env := EnvOf(e, st, h);
    SessionStepFrame(env, st.sessions[h], c.op);
    if c.op.FindObjectsInit? || c.op.FindObjects? {
      FindStepFollows(env, st, h, c.op, view);
    } else {
      OtherOpsKeepFind(env, st.sessions[h], c.op);
      NoneFollows(NextView(st, h, view, c.op, Step(e, st, c).1), st.sessions[h].login != NotLoggedIn);
    }
  }

  lemma NoneFollows(view: Option<SearchView>, loggedIn: bool)
    ensures Follows(None, view, loggedIn)
  {
  }

  lemma KeptFollows(sessions: SessionMap, sessions': SessionMap, h: SessionHandle, view: Option<SearchView>)
    requires SessionsKept(sessions, sessions') && FollowsAt(sessions, h, view)
    ensures FollowsAt(sessions', h, view)
  {
  }

  lemma OtherOpFollows(e: Engine, st: State, c: Call, h: SessionHandle, view: Option<SearchView>)
    requires c.Op? && !(c.h == h && h in st.sessions && st.initialized) && FollowsAt(st.sessions, h, view)
    ensures FollowsAt(Step(e, st, c).0.sessions, h, view)
  {
    hide SessionStep, Follows;
  }

  /**
   In every legal run and every session: a live search's snapshot lists, without
   duplicates, exactly the matching objects visible when it began; what has been handed
   out in batches of any sizes is its prefix up to the cursor; and in a session that is
   logged out it holds no handle of an object that was private when it began.
   */
  lemma {:induction false} SearchFollowsRun(e: Engine, disk: Option<StoredState>, calls: seq<Call>, h: SessionHandle)
    requires LegalRun(e, Boot(disk), calls)
    ensures FollowsAt(After(e, Boot(disk), calls).sessions, h, TrackedSearch(e, Boot(disk), calls, h))
  {
    hide Step, FollowsAt, Legal, NextView;
    if calls == [] {
      EmptyFollows(h);
    } else {
      var before := calls[..|calls| - 1];
      var c := calls[|calls| - 1];
      var st := After(e, Boot(disk), before);
      var view := TrackedSearch(e, Boot(disk), before, h);
      SearchFollowsRun(e, disk, before, h);
      OffHasNoSessions(e, disk, before);
      if c.Op? {
        if c.h == h && h in st.sessions && st.initialized {
          OpFollows(e, st, c, h, view);
        } else {
          OtherOpFollows(e, st, c, h, view);
        }
      } else {
        StepOps(e, st, c);
        KeptFollows(st.sessions, Step(e, st, c).0.sessions, h, view);
      }
    }
  }

  lemma EmptyFollows(h: SessionHandle)
    ensures FollowsAt(map[], h, None)
  {
  }

  /** A batch smaller than asked for means everything expected has now been handed out, each object once. */
  lemma ShortBatchEndsSearch(find: FindContext, view: SearchView, loggedIn: bool, max: nat)
    requires Follows(Some(find), Some(view), loggedIn) && |NextBatch(find, max)| < max
    ensures Enumerates(view.delivered + NextBatch(find, max), view.expected)
  {
  }

  /** Right after `C_Logout` no private session object is left on the slot, and nothing else is gone. */
  lemma LogoutClearsPrivateSessionObjects(st: State, h: SessionHandle)
    requires h in st.sessions && LogoutStep(st, h).1.rv == CkrOk
    ensures var slot, st' := st.sessions[h].slot, LogoutStep(st, h).0;
            forall o :: o in st.objects ==>
              (o in st'.objects <==>
               !(st.objects[o].slot == slot && IsSessionObject(st.objects[o]) && IsPrivateObject(st.objects[o])))
              && (o in st'.objects ==> st'.objects[o] == st.objects[o])
    ensures var slot := st.sessions[h].slot;
            forall a :: a in LogoutStep(st, h).0.sessions && LogoutStep(st, h).0.sessions[a].slot == slot ==>
              LogoutStep(st, h).0.sessions[a].login == NotLoggedIn && LogoutStep(st, h).0.sessions[a].ops.find.None?
  {
    hide SlotLogin;
  }

  // ---- The loops ---------------------------------------------------------------------------------------------

  /** `find_objects`: filter the object map, whose iteration order is arbitrary. */
  method FindMatching(objects: ObjectMap, slot: SlotId, template: seq<(AttributeType, Bytes)>, loggedIn: bool)
    returns (r: seq<ObjectHandle>)
    ensures Enumerates(r, VisibleMatches(objects, slot, template, loggedIn))
  {
    hide MatchesTemplate;
    r := [];
    var todo := objects.Keys;
    while todo != {}
      invariant todo <= objects.Keys
      invariant Enumerates(r, VisibleMatches(objects, slot, template, loggedIn) - todo)
      decreases |todo|
    {
      var h :| h in todo;
      todo := todo - {h};
      if Visible(objects[h], slot, template, loggedIn) {
        r := r + [h];
      }
    }
  }

  /** The search side of one session, over the objects its slot shows. */
  class Searcher {
    var find: Option<FindContext>
    const objects: ObjectMap
    const slot: SlotId
    const loggedIn: bool

    constructor (objects: ObjectMap, slot: SlotId, loggedIn: bool)
      ensures this.find == None && this.objects == objects && this.slot == slot && this.loggedIn == loggedIn
    {
      this.find, this.objects, this.slot, this.loggedIn := None, objects, slot, loggedIn;
    }

    /** `C_FindObjectsInit`. */
    method Init(template: Template) returns (rv: Rv)
      modifies this`find
      ensures old(find).Some? ==> rv == OperationActive && find == old(find)
      ensures old(find).None? ==> rv == CkrOk && find.Some? && find.value.index == 0
                                  && Enumerates(find.value.results,
                                                VisibleMatches(objects, slot, CollectTemplateVec(template), loggedIn))
    {
      var results := FindMatching(objects, slot, CollectTemplateVec(template), loggedIn);
      if find.Some? {
        return OperationActive;
      }
      find := Some(FindContext(results, 0));
      return CkrOk;
    }

    /** `C_FindObjects`: copy the next batch into the caller's array and move the cursor. */
    method Next(batch: array<ObjectHandle>, max: nat) returns (rv: Rv, n: nat)
      requires max <= batch.Length
      modifies this`find, batch
      ensures old(find).None? ==> rv == OperationNotInitialized && find == None && n == 0 && batch[..] == old(batch[..])
      ensures old(find).Some? ==>
                && rv == CkrOk && n == |NextBatch(old(find).value, max)| <= max
                && batch[..n] == NextBatch(old(find).value, max) && batch[n..] == old(batch[n..])
                && find == Some(old(find).value.(index := old(find).value.index + n))
    {
      if find.None? {
        return OperationNotInitialized, 0;
      }
      var ctx := find.value;
      var avail := if ctx.index <= |ctx.results| then |ctx.results| - ctx.index else 0;
      n := Min(avail, max);
      for i := 0 to n
        invariant batch[..i] == NextBatch(ctx, max)[..i]
        invariant batch[i..] == old(batch[i..])
      {
        batch[i] := ctx.results[ctx.index + i];
      }
      find := Some(ctx.(index := ctx.index + n));
      return CkrOk, n;
    }

    /** `C_FindObjectsFinal`. */
    method Final() returns (rv: Rv)
      modifies this`find
      ensures rv == CkrOk && find == None
    {
      find := None;
      return CkrOk;
    }

    /**
     `Session::findObjectsImpl`: batches of 32 until an empty one. It terminates and
     returns every visible match exactly once; a search already under way is refused
     and left alone.
     */
    method FindAll(template: Template) returns (r: Result<seq<ObjectHandle>>)
      modifies this`find
      ensures old(find).Some? ==> r == Err(OperationActive) && find == old(find)
      ensures old(find).None? ==> r.Ok? && find.None?
                                  && Enumerates(r.value,
                                                VisibleMatches(objects, slot, CollectTemplateVec(template), loggedIn))
    {
      hide Enumerates, VisibleMatches;
      var rv := Init(template);
      if rv != CkrOk {
        return Err(rv);
      }
      ghost var all := find.value.results;
      var results: seq<ObjectHandle> := [];
      var batch := new ObjectHandle[32];
      var found := 1;
      while found != 0
        invariant fresh(batch)
        invariant find.Some? && find.value.results == all && find.value.index <= |all|
        invariant results == all[..find.value.index]
        invariant found == 0 ==> find.value.index == |all|
        decreases |all| - find.value.index, found
      {
        ghost var ctx := find.value;
        rv, found := Next(batch, 32);
        BatchExtends(ctx, 32);
        results := results + batch[..found];
      }
      assert all[..|all|] == all;
      rv := Final();
      return Ok(results);
    }
  }
}
