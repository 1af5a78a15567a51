/** Every run of the two-lock table is a run of the one-lock table; counts, freeing and locking are right in every state. */
module FooTheorem {
  import opened Common
  import opened FooSpec
  import opened FooThreads
  import opened FooInvariant
  import opened FooProof
  import opened FooSteps
  import opened FooChanges
  import opened FooRemoval

  /** Whatever step a thread takes, the invariant holds afterwards and the one-lock table has moved by at most one call. */
  lemma StepKeeps(s: State, a: Abs, t: nat, ch: Choice) returns (a': Abs)
    requires Inv(s, a) && t < |s.thr| && Enabled(s, t, ch)
    ensures Inv(Next(s, t, ch), a') && ObjectStep(Object(s, a), Object(Next(s, t, ch), a'), t)
  {
    var pc := s.thr[t];
    ChangeKinds(s, pc, ch);
    hide Inv, ObjectStep, Object, Next, Enabled, Changes, Insert, AddRef, Drop;
    if !Changes(s, pc, ch) {
      QuietStep(s, a, t, ch);
      a' := a;
    } else if pc.AllocMalloc? {
      MakeStep(s, a, t, ch);
      a' := Made(a, ch.p, t);
    } else if pc.AllocNext? {
      LinkStep(s, a, t, ch);
      a' := a;
    } else if pc.AllocHead? {
      InsertStep(s, a, t, ch);
      a' := Inserted(a, pc.p, pc.id);
    } else if pc.HoldInc? || pc.FindInc? {
      RefStep(s, a, t, ch);
      a' := Referenced(a, pc.p);
    } else if pc.ReleDec? || pc.ReleDec2? {
      UnrefStep(s, a, t, ch);
      a' := Dropped(a, pc.p);
    } else if pc.ReleFree? {
      FreeStep(s, a, t, ch);
      a' := Freed(a, pc.p);
    } else {
      UnlinkStep(s, a, t, ch);
      a' := Unlinked(a, pc.p, t);
    }
  }

  lemma ChangeKinds(s: State, pc: Pc, ch: Choice)
    ensures Changes(s, pc, ch) && pc.AllocMalloc? ==> ch.p != 0
    ensures Changes(s, pc, ch) ==>
      pc.AllocMalloc? || pc.AllocNext? || pc.AllocHead? || pc.HoldInc? || pc.FindInc? || pc.ReleDec? || pc.ReleDec2? || pc.ReleFree?
      || pc.ReleHead? || pc.ReleWalk?
  {
  }

  function FirstAbs(): Abs {
    Abs(EmptyTable(), map[])
  }

  lemma InitialOk(s: State)
    requires Initial(s)
    ensures Inv(s, FirstAbs())
  {
    forall u | 0 <= u < |s.thr| ensures s.thr[u] == Idle {
      assert s.thr[u] in s.thr;
    }
  }

  // ---- runs ----

  datatype Move = Move(t: nat, ch: Choice)

  ghost predicate Run(run: seq<State>, moves: seq<Move>) {
    && |run| == |moves| + 1 && Initial(run[0])
    && forall i :: 0 <= i < |moves| ==> Step(run[i], run[i + 1], moves[i].t, moves[i].ch)
  }

  /**
   The two-lock table refines the one-lock table: along any run there are states of the atomic table, each reached from
   the one before by at most one call taking effect, that show the same calls with the same results and hold the same
   objects with the same counts.
   */
  lemma {:induction false} Refines(run: seq<State>, moves: seq<Move>) returns (abs: seq<Abs>)
    requires Run(run, moves)
    ensures |abs| == |run| && abs[0].t == EmptyTable()
    ensures forall i :: 0 <= i < |run| ==> Inv(run[i], abs[i])
    ensures forall i :: 0 <= i < |moves| ==> ObjectStep(Object(run[i], abs[i]), Object(run[i + 1], abs[i + 1]), moves[i].t)
    decreases |moves|
  {
    hide Inv, ObjectStep, Object, Next, Enabled;
    if |moves| == 0 {
      InitialOk(run[0]);
      abs := [FirstAbs()];
    } else {
      var n := |moves| - 1;
      var early := Refines(run[..n + 1], moves[..n]);
      assert Step(run[n], run[n + 1], moves[n].t, moves[n].ch);
      var a := StepKeeps(run[n], early[n], moves[n].t, moves[n].ch);
      abs := early + [a];
      forall i | 0 <= i < |moves| ensures ObjectStep(Object(run[i], abs[i]), Object(run[i + 1], abs[i + 1]), moves[i].t) {
        if i < n {
          assert ObjectStep(Object(run[..n + 1][i], early[i]), Object(run[..n + 1][i + 1], early[i + 1]), moves[..n][i].t);
        }
      }
    }
  }

  lemma RunInvariant(run: seq<State>, moves: seq<Move>) returns (s: State, a: Abs)
    requires Run(run, moves)
    ensures s == run[|run| - 1] && Inv(s, a)
  {
    hide Inv, ObjectStep, Object;
    var abs := Refines(run, moves);
    s, a := run[|run| - 1], abs[|run| - 1];
  }

  /**
   In every reachable state the count of each object is the number of references to it, every reference is to an object
   in memory, and an object is freed only when no other thread has, uses, locks or can find it.
   */
  lemma CountsAndFrees(run: seq<State>, moves: seq<Move>)
    requires Run(run, moves)
    ensures
      var s := run[|run| - 1];
      && (forall p <- s.heap :: s.heap[p].count == |RefsTo(s.refs, p)|)
      && (forall r <- s.refs :: s.refs[r] in s.heap)
      && (forall t | 0 <= t < |s.thr| :: Touches(s.thr[t]) == 0 || Touches(s.thr[t]) in s.heap)
      && (forall t | 0 <= t < |s.thr| && s.thr[t].ReleFree? ::
            && RefsTo(s.refs, s.thr[t].p) == {s.thr[t].r} && s.thr[t].p !in s.flock && s.thr[t].p !in s.fh
            && forall u | 0 <= u < |s.thr| && u != t :: Touches(s.thr[u]) != s.thr[t].p)
  {
    hide Inv, Touches;
    var s, a := RunInvariant(run, moves);
    InvParts(s, a);
    forall t | 0 <= t < |s.thr| ensures Touches(s.thr[t]) == 0 || Touches(s.thr[t]) in s.heap {
      NoWildPointer(s, a, t);
    }
    forall t | 0 <= t < |s.thr| && s.thr[t].ReleFree?
      ensures RefsTo(s.refs, s.thr[t].p) == {s.thr[t].r} && s.thr[t].p !in s.flock && s.thr[t].p !in s.fh
      ensures forall u | 0 <= u < |s.thr| && u != t :: Touches(s.thr[u]) != s.thr[t].p
    {
      FreeIsSafe(s, a, t);
    }
  }

  /** An object stays in memory from the moment a call makes it until after the last reference has been given up. */
  lemma Lifetime(run: seq<State>, moves: seq<Move>) returns (a: Abs)
    requires Run(run, moves)
    ensures
      var s := run[|run| - 1];
      && TableOk(a.t) && (forall p <- a.t.count :: p in s.heap && s.heap[p].count == a.t.count[p])
      && forall p | p in s.heap && p !in a.t.count :: exists u :: 0 <= u < |s.thr| && Outside(s.thr[u]) == Some(p)
  {
    hide Outside, TableOk, LocksOk, SafeOk, BucketsOk, CountsOk, UsesOk, ThreadOk, Run;
    var s;
    s, a := RunInvariant(run, moves);
    InvTable(s, a);
    forall p | p in s.heap && p !in a.t.count ensures exists u :: 0 <= u < |s.thr| && Outside(s.thr[u]) == Some(p) {
      assert p in a.out;
    }
  }

  /** A release goes on to take hashlock only when it has found, under the object's lock, that its reference is the last. */
  lemma HashlockForLast(run: seq<State>, moves: seq<Move>, t: nat)
    requires Run(run, moves) && t < |run[|run| - 1].thr| && run[|run| - 1].thr[t].ReleDrop?
    ensures
      var s := run[|run| - 1];
      var p := s.thr[t].p;
      p in s.flock && s.flock[p] == t && p in s.heap && s.heap[p].count == 1
  {
    hide Inv, Run, ThreadOk, HoldsF;
    var s, a := RunInvariant(run, moves);
    ThreadFacts(s, a, t);
    LastFound(s, a, s.thr[t]);
    HeldFacts(s, a, t);
  }

  lemma LastFound(s: State, a: Abs, pc: Pc)
    requires ThreadOk(s, a, pc) && pc.ReleDrop?
    ensures pc.p in s.heap && s.heap[pc.p].count == 1 && HoldsF(pc) == Some(pc.p)
  {
  }

  // ---- no deadlock ----

  predicate WantsHash(pc: Pc) {
    pc.AllocLock? || pc.FindLock? || pc.ReleHLock?
  }

  predicate WantsF(pc: Pc) {
    pc.AllocFLock? || pc.HoldLock? || pc.FindFLock? || pc.ReleLock? || pc.ReleRelock?
  }

  predicate Waits(s: State, pc: Pc) {
    if WantsHash(pc) then s.hash.Some? else WantsF(pc) && pc.p in s.flock
  }

  predicate InCall(pc: Pc) {
    !pc.Idle? && !pc.Return?
  }

  /** The order of the locks: nobody waits for hashlock while holding a lock, nor for an object's lock while holding another. */
  lemma LockOrder(pc: Pc)
    ensures HoldsHash(pc) || HoldsF(pc).Some? ==> !WantsHash(pc) && InCall(pc)
    ensures HoldsF(pc).Some? ==> !WantsF(pc)
  {
  }

  /**
   hashlock comes first: along any run, who holds an object's lock is in a call, holds no other and is about to take
   neither another nor hashlock; and who holds hashlock is in a call and is not about to take it again.
   */
  lemma HashlockFirst(run: seq<State>, moves: seq<Move>)
    requires Run(run, moves)
    ensures
      var s := run[|run| - 1];
      && (forall p <- s.flock :: s.flock[p] < |s.thr| && InCall(s.thr[s.flock[p]])
                                 && !WantsHash(s.thr[s.flock[p]]) && !WantsF(s.thr[s.flock[p]]))
      && (s.hash.Some? ==> s.hash.value < |s.thr| && InCall(s.thr[s.hash.value]) && !WantsHash(s.thr[s.hash.value]))
      && forall p, q | p in s.flock && q in s.flock && s.flock[p] == s.flock[q] :: p == q
  {
    hide Inv, Run, HoldsF, HoldsHash, WantsHash, WantsF, InCall;
    var s, a := RunInvariant(run, moves);
    InvParts(s, a);
    if s.hash.Some? {
      LockOrder(s.thr[s.hash.value]);
    }
    forall p | p in s.flock
      ensures InCall(s.thr[s.flock[p]]) && !WantsHash(s.thr[s.flock[p]]) && !WantsF(s.thr[s.flock[p]])
      ensures HoldsF(s.thr[s.flock[p]]) == Some(p)
    {
      LockOrder(s.thr[s.flock[p]]);
    }
  }

  lemma NoWaitNoBlock(s: State, t: nat, r: nat)
    requires t < |s.thr| && !s.thr[t].Idle? && !Waits(s, s.thr[t]) && r !in s.refs
    ensures Enabled(s, t, Choice(FindOp(0), r, 0))
  {
  }

  lemma FreshRef(refs: map<nat, nat>) returns (r: nat)
    ensures r !in refs
  {
    r := Above(refs.Keys);
  }

  lemma {:induction false} Above(m: set<nat>) returns (r: nat)
    ensures forall x <- m :: x < r
    decreases |m|
  {
    if m == {} {
      r := 0;
    } else {
      var x :| x in m;
      var r0 := Above(m - {x});
      r := if x < r0 then r0 else x + 1;
      assert forall y <- m :: y == x || y in m - {x};
    }
  }

  /**
   No set of threads deadlocks: while some thread is in a call, some thread in a call can take a step. A thread waiting
   for an object's lock waits for a thread that can move, and hashlock is never waited for by a thread that holds an
   object's lock.
   */
  lemma NoDeadlock(run: seq<State>, moves: seq<Move>, t: nat) returns (u: nat, ch: Choice)
    requires Run(run, moves)
    requires t < |run[|run| - 1].thr| && !run[|run| - 1].thr[t].Idle?
    ensures u < |run[|run| - 1].thr| && !run[|run| - 1].thr[u].Idle? && Enabled(run[|run| - 1], u, ch)
  {
    hide Inv, HoldsF, HoldsHash, Enabled, Run;
    var s, a := RunInvariant(run, moves);
    InvParts(s, a);
    u := t;
    if Waits(s, s.thr[u]) {
      u := Blocker(s, u);
      LockOrder(s.thr[u]);
      if Waits(s, s.thr[u]) {
        u := Blocker(s, u);
        LockOrder(s.thr[u]);
      }
    }
    var r := FreshRef(s.refs);
    ch := Choice(FindOp(0), r, 0);
    NoWaitNoBlock(s, u, r);
  }

  /** Who a waiting thread waits for. */
  lemma Blocker(s: State, t: nat) returns (u: nat)
    requires LocksOk(s) && t < |s.thr| && Waits(s, s.thr[t])
    ensures u < |s.thr|
    ensures if WantsHash(s.thr[t]) then HoldsHash(s.thr[u]) else HoldsF(s.thr[u]).Some?
  {
    hide HoldsF, HoldsHash;
    var pc := s.thr[t];
    u := if WantsHash(pc) then s.hash.value else s.flock[pc.p];
  }
}
