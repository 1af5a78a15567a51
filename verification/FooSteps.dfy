/** The steps that change no object, bucket or count: locks, tests, and the walk of foo_find(). */
module FooSteps {
  import opened Common
  import opened FooSpec
  import opened FooThreads
  import opened FooInvariant
  import opened FooProof

  lemma {:induction false} FirstWithAt(id: map<nat, int>, s: seq<nat>, x: int, k: nat)
    requires k < |s| && s[k] in id && id[s[k]] == x
    requires forall j :: 0 <= j < k ==> !(s[j] in id && id[s[j]] == x)
    ensures FirstWith(id, s, x) == Some(s[k])
  {
    if k > 0 {
      assert forall j :: 0 <= j < k - 1 ==> s[1..][j] == s[j + 1];
      FirstWithAt(id, s[1..], x, k - 1);
    }
  }

  lemma {:induction false} FirstWithNone(id: map<nat, int>, s: seq<nat>, x: int)
    requires forall j :: 0 <= j < |s| ==> !(s[j] in id && id[s[j]] == x)
    ensures FirstWith(id, s, x) == None
  {
    if s != [] {
      assert forall j :: 0 <= j < |s| - 1 ==> s[1..][j] == s[j + 1];
      FirstWithNone(id, s[1..], x);
    }
  }

  /** Steps that change an object, a bucket, a count or the callers' references. */
  predicate Changes(s: State, pc: Pc, ch: Choice) {
    match pc
    case AllocMalloc(_) => ch.p != 0
    case ReleHead(p, _) => Head(s, At(s, p).id) == p
    case ReleWalk(p, _, c, _) => At(s, c).next == p
    case _ => pc.AllocNext? || pc.AllocHead? || pc.HoldInc? || pc.FindInc? || pc.ReleDec? || pc.ReleDec2? || pc.ReleFree?
  }

  lemma QuietMove(s: State, t: nat, ch: Choice)
    requires t < |s.thr| && Enabled(s, t, ch) && !Changes(s, s.thr[t], ch)
    ensures
      var s', pc, pc' := Next(s, t, ch), s.thr[t], Next(s, t, ch).thr[t];
      && s'.heap == s.heap && s'.fh == s.fh && s'.refs == s.refs && s'.thr == s.thr[t := pc']
      && Outside(pc') == Outside(pc) && (pc'.ReleFree? ==> pc.ReleFUnlock3? && pc'.p == pc.p)
  {
    hide HashOf, Head, At, MayCall, Start, HashAfter, FlockAfter;
    StartPlain(ch.op, ch.r);
    StartNotFree(ch.op, ch.r);
  }

  lemma StartNotFree(op: Op, r: nat)
    ensures !Start(op, r).ReleFree?
  {
  }

  lemma TableObjects(s: State, a: Abs, p: nat)
    requires Inv(s, a) && p in a.t.count
    ensures p !in a.out
  {
    hide LocksOk, SafeOk, ThreadOk, UsesOk, CountsOk, BucketsOk, OutOk;
  }

  /** A thread that locks an object finds it in memory, and nobody about to free it. */
  lemma LockSafe(s: State, a: Abs, t: nat, u: nat)
    requires Inv(s, a) && t < |s.thr| && u < |s.thr| && u != t && s.thr[u].ReleFree?
    requires Uses(s.thr[t]).Some? || s.thr[t].FindFLock?
    ensures s.thr[t].p != s.thr[u].p
  {
    hide LocksOk, SafeOk, CountsOk, MemoryOk, BucketsOk, TableOk, Lookup;
    ThreadFacts(s, a, t);
    InvTable(s, a);
    if s.thr[t].FindFLock? {
      FoundLive(a.t, s.thr[t].id, s.thr[t].p);
      TableObjects(s, a, s.thr[t].p);
    } else if s.thr[t].p == s.thr[u].p {
      OutsideAlone(s, a, u, t);
    }
  }

  lemma LocksWhat(pc: Pc, pc': Pc, s: State, t: nat, ch: Choice)
    requires t < |s.thr| && Enabled(s, t, ch) && pc == s.thr[t] && pc' == Next(s, t, ch).thr[t]
    ensures HoldsF(pc) == None && HoldsF(pc').Some? ==>
      (Uses(pc).Some? || pc.FindFLock?) && HoldsF(pc').value == pc.p
    ensures HoldsF(pc).Some? ==> pc.p == HoldsF(pc).value
    ensures pc'.ReleFree? ==> pc.ReleFUnlock3? && pc'.p == pc.p && HoldsF(pc).Some? && HoldsF(pc') == None
    ensures HoldsF(pc) == None && HoldsF(pc').Some? ==> !pc.ReleFree?
    ensures pc.ReleFree? ==> HoldsF(pc') == None
  {
    hide HashOf, HeapAfter, HeadsAfter, RefsAfter, Head, At, MayCall, Start, HashAfter, FlockAfter;
    StartPlain(ch.op, ch.r);
    StartNotFree(ch.op, ch.r);
  }

  /** Locked objects stay in memory ... */
  lemma LockedKept(s: State, a: Abs, t: nat, ch: Choice)
    requires Inv(s, a) && t < |s.thr| && Enabled(s, t, ch)
    requires forall p :: p in s.heap && !(s.thr[t].ReleFree? && p == s.thr[t].p) ==> p in Next(s, t, ch).heap
    ensures forall p <- Next(s, t, ch).flock :: p in Next(s, t, ch).heap
  {
    var s', pc, pc' := Next(s, t, ch), s.thr[t], Next(s, t, ch).thr[t];
    LocksMove(s, t, ch);
    LocksWhat(pc, pc', s, t, ch);
    InvSafe(s, a);
    hide Inv, Next, Enabled, HoldsHash, HoldsF, Uses;
    if HoldsF(pc) == None && HoldsF(pc').Some? {
      LockedInMemory(s, a, t);
    }
  }

  /** ... and what is about to be freed stays unlocked. */
  lemma FreeingKept(s: State, a: Abs, t: nat, ch: Choice, u: nat)
    requires Inv(s, a) && t < |s.thr| && Enabled(s, t, ch) && u < |s.thr| && Next(s, t, ch).thr[u].ReleFree?
    ensures Next(s, t, ch).thr[u].p !in Next(s, t, ch).flock
  {
    var s', pc, pc' := Next(s, t, ch), s.thr[t], Next(s, t, ch).thr[t];
    LocksMove(s, t, ch);
    LocksWhat(pc, pc', s, t, ch);
    InvSafe(s, a);
    hide Inv, Next, Enabled, HoldsHash, HoldsF, Uses;
    if u != t && HoldsF(pc) == None && HoldsF(pc').Some? {
      LockSafe(s, a, t, u);
    }
  }

  lemma SafeKept(s: State, a: Abs, t: nat, ch: Choice)
    requires Inv(s, a) && t < |s.thr| && Enabled(s, t, ch)
    requires forall p :: p in s.heap && !(s.thr[t].ReleFree? && p == s.thr[t].p) ==> p in Next(s, t, ch).heap
    ensures SafeOk(Next(s, t, ch))
  {
    hide Inv, Enabled, NextPc, HeapAfter, FlockAfter, HeadsAfter, HashAfter, RefsAfter;
    LockedKept(s, a, t, ch);
    forall u | 0 <= u < |s.thr| && Next(s, t, ch).thr[u].ReleFree? ensures Next(s, t, ch).thr[u].p !in Next(s, t, ch).flock {
      FreeingKept(s, a, t, ch, u);
    }
  }

  lemma InvSafe(s: State, a: Abs)
    requires Inv(s, a)
    ensures SafeOk(s)
  {
    hide LocksOk, SafeOk, CountsOk, MemoryOk, BucketsOk, TableOk, UsesOk, OutOk, ThreadOk;
  }

  lemma LockedInMemory(s: State, a: Abs, t: nat)
    requires Inv(s, a) && t < |s.thr| && (Uses(s.thr[t]).Some? || s.thr[t].FindFLock?)
    ensures s.thr[t].p in s.heap
  {
    hide LocksOk, SafeOk, CountsOk, MemoryOk, BucketsOk, TableOk, Lookup, UsesOk, OutOk;
    ThreadFacts(s, a, t);
    InvTable(s, a);
    NoWildPointer(s, a, t);
    if s.thr[t].FindFLock? {
      FoundLive(a.t, s.thr[t].id, s.thr[t].p);
    }
  }

  /** The first object of a bucket, as the head shows it. */
  lemma HeadFacts(s: State, a: Abs, id: int)
    requires Inv(s, a)
    ensures |a.t.buckets| == NHASH && Head(s, id) == Target(a.t.buckets[HashOf(id)], 0)
    ensures Head(s, id) != 0 ==> Cursor(a, id, Head(s, id), 0)
    ensures Head(s, id) == 0 ==> a.t.buckets[HashOf(id)] == []
  {
    hide LocksOk, SafeOk, CountsOk, MemoryOk, UsesOk, OutOk, ThreadOk, HashOf;
    assert Links(s.heap, s.fh[HashOf(id)], a.t.buckets[HashOf(id)]);
  }

  lemma FindHeadThread(s: State, a: Abs, t: nat, ch: Choice)
    requires Inv(s, a) && t < |s.thr| && s.thr[t].FindHead?
    ensures ThreadOk(s, a, NextPc(s, s.thr[t], ch))
    ensures CallStep(CallOf(s.thr[t]), a.t, CallOf(NextPc(s, s.thr[t], ch)), a.t)
  {
    hide Inv, HashOf, Head;
    HeadFacts(s, a, s.thr[t].id);
  }

  lemma FindWalkThread(s: State, a: Abs, t: nat, ch: Choice)
    requires Inv(s, a) && t < |s.thr| && s.thr[t].FindWalk?
    ensures ThreadOk(s, a, NextPc(s, s.thr[t], ch))
    ensures CallStep(CallOf(s.thr[t]), a.t, CallOf(NextPc(s, s.thr[t], ch)), a.t)
  {
    hide Inv, HashOf, FirstWith;
    var pc := s.thr[t];
    ThreadFacts(s, a, t);
    CursorLive(s, a, pc.id, pc.c, pc.n);
    var b := a.t.buckets[HashOf(pc.id)];
    BucketNoNull(s, a, HashOf(pc.id));
    if s.heap[pc.c].id == pc.id {
      FirstWithAt(a.t.id, b, pc.id, pc.n);
    } else if s.heap[pc.c].next == 0 {
      assert pc.n + 1 == |b|;
      FirstWithNone(a.t.id, b, pc.id);
    }
  }

  lemma BucketNoNull(s: State, a: Abs, h: nat)
    requires Inv(s, a) && h < NHASH
    ensures |a.t.buckets| == NHASH && 0 !in a.t.buckets[h]
  {
    hide LocksOk, SafeOk, CountsOk, MemoryOk, UsesOk, OutOk, ThreadOk, HashOf;
    assert Links(s.heap, s.fh[h], a.t.buckets[h]);
  }

  /** The object being released is in the table, in the bucket of its id. */
  lemma ReleasedInBucket(s: State, a: Abs, t: nat)
    requires Inv(s, a) && t < |s.thr| && Uses(s.thr[t]).Some? && Outside(s.thr[t]).None?
    ensures s.thr[t].p in s.heap && s.thr[t].p in a.t.count && |a.t.buckets| == NHASH
    ensures s.thr[t].p in a.t.buckets[HashOf(s.heap[s.thr[t].p].id)]
  {
    hide LocksOk, SafeOk, CountsOk, UsesOk, OutOk, ThreadOk, HashOf, Links, Ordered;
    UsedFacts(s, a, t);
    assert In(a.t.buckets, HashOf(a.t.id[s.thr[t].p]), s.thr[t].p);
  }

  lemma ReleTestThread(s: State, a: Abs, t: nat, ch: Choice)
    requires Inv(s, a) && t < |s.thr| && (s.thr[t].ReleCheck? || s.thr[t].ReleRecheck?)
    ensures ThreadOk(s, a, NextPc(s, s.thr[t], ch))
    ensures CallStep(CallOf(s.thr[t]), a.t, CallOf(NextPc(s, s.thr[t], ch)), a.t)
  {
    hide Inv, HashOf;
    UsedFacts(s, a, t);
  }

  lemma ReleHeadThread(s: State, a: Abs, t: nat, ch: Choice)
    requires Inv(s, a) && t < |s.thr| && s.thr[t].ReleHead? && Head(s, At(s, s.thr[t].p).id) != s.thr[t].p
    ensures ThreadOk(s, a, NextPc(s, s.thr[t], ch))
    ensures CallStep(CallOf(s.thr[t]), a.t, CallOf(NextPc(s, s.thr[t], ch)), a.t)
  {
    hide Inv, HashOf, Head;
    ThreadFacts(s, a, t);
    ReleasedInBucket(s, a, t);
    HeadFacts(s, a, s.heap[s.thr[t].p].id);
  }

  lemma ReleWalkThread(s: State, a: Abs, t: nat, ch: Choice)
    requires Inv(s, a) && t < |s.thr| && s.thr[t].ReleWalk? && At(s, s.thr[t].c).next != s.thr[t].p
    ensures ThreadOk(s, a, NextPc(s, s.thr[t], ch))
    ensures CallStep(CallOf(s.thr[t]), a.t, CallOf(NextPc(s, s.thr[t], ch)), a.t)
  {
    hide Inv, HashOf;
    var pc := s.thr[t];
    ThreadFacts(s, a, t);
    ReleasedInBucket(s, a, t);
    CursorLive(s, a, s.heap[pc.p].id, pc.c, pc.n);
    var b := a.t.buckets[HashOf(s.heap[pc.p].id)];
    assert b == b[..pc.n + 1] + b[pc.n + 1..];
    assert b[..pc.n + 2] == b[..pc.n + 1] + [b[pc.n + 1]];
  }

  /** Steps that test nothing. */
  predicate Plain(pc: Pc) {
    !pc.FindHead? && !pc.FindWalk? && !pc.ReleCheck? && !pc.ReleRecheck? && !pc.ReleHead? && !pc.ReleWalk? && !pc.AllocMalloc?
  }

  lemma PlainThread(s: State, a: Abs, pc: Pc, ch: Choice)
    requires ThreadOk(s, a, pc) && Plain(pc) && !Changes(s, pc, ch)
    ensures ThreadOk(s, a, NextPc(s, pc, ch))
    ensures CallStep(CallOf(pc), a.t, CallOf(NextPc(s, pc, ch)), a.t)
  {
    hide HashOf, Head, Effect, Lookup, Cursor;
    StartThread(s, a, ch.op, ch.r);
  }

  lemma StartThread(s: State, a: Abs, op: Op, r: nat)
    ensures ThreadOk(s, a, Start(op, r)) && CallOf(Start(op, r)) == Pending(op)
  {
  }

  lemma QuietThread(s: State, a: Abs, t: nat, ch: Choice)
    requires Inv(s, a) && t < |s.thr| && Enabled(s, t, ch) && !Changes(s, s.thr[t], ch)
    ensures ThreadOk(s, a, NextPc(s, s.thr[t], ch))
    ensures CallStep(CallOf(s.thr[t]), a.t, CallOf(NextPc(s, s.thr[t], ch)), a.t)
  {
    hide Inv, HashOf, Head, ThreadOk, CallStep, NextPc, CallOf, Enabled, TableOk;
    var pc := s.thr[t];
    ThreadFacts(s, a, t);
    InvTable(s, a);
    if pc.FindHead? {
      FindHeadThread(s, a, t, ch);
    } else if pc.FindWalk? {
      FindWalkThread(s, a, t, ch);
    } else if pc.ReleCheck? || pc.ReleRecheck? {
      ReleTestThread(s, a, t, ch);
    } else if pc.ReleHead? {
      ReleHeadThread(s, a, t, ch);
    } else if pc.ReleWalk? {
      ReleWalkThread(s, a, t, ch);
    } else if pc.AllocMalloc? {
      MallocFails(s, a, pc, ch);
    } else {
      PlainThread(s, a, pc, ch);
    }
  }

  lemma MallocFails(s: State, a: Abs, pc: Pc, ch: Choice)
    requires TableOk(a.t) && pc.AllocMalloc? && ch.p == 0
    ensures ThreadOk(s, a, NextPc(s, pc, ch))
    ensures CallStep(CallOf(pc), a.t, CallOf(NextPc(s, pc, ch)), a.t)
  {
  }

  /** One thread's call moved, the others stayed. */
  lemma ObjectMoves(s: State, a: Abs, s': State, a': Abs, t: nat)
    requires t < |s.thr| == |s'.thr| && s'.thr == s.thr[t := s'.thr[t]]
    requires CallStep(CallOf(s.thr[t]), a.t, CallOf(s'.thr[t]), a'.t)
    ensures ObjectStep(Object(s, a), Object(s', a'), t)
  {
    hide CallStep, CallOf;
  }

  lemma OutSame(s: State, a: Abs, s': State, a': Abs, t: nat)
    requires OutOk(s, a) && t < |s.thr| == |s'.thr| && s'.thr == s.thr[t := s'.thr[t]] && a'.out == a.out
    requires Outside(s'.thr[t]) == Outside(s.thr[t])
    requires forall p <- a.out :: p in s.heap ==> p in s'.heap && s'.heap[p].count == s.heap[p].count
    ensures OutOk(s', a')
  {
    hide Outside;
  }

  lemma MemorySame(s: State, s': State, a: Abs)
    requires MemoryOk(s, a) && BucketsOk(s, a) && CountsOk(s)
    requires s'.heap == s.heap && s'.fh == s.fh && s'.refs == s.refs
    ensures MemoryOk(s', a) && BucketsOk(s', a) && CountsOk(s')
  {
    hide TableOk, Links;
  }

  /** A step that changes no object, bucket or count. */
  lemma QuietStep(s: State, a: Abs, t: nat, ch: Choice)
    requires Inv(s, a) && t < |s.thr| && Enabled(s, t, ch) && !Changes(s, s.thr[t], ch)
    ensures Inv(Next(s, t, ch), a) && ObjectStep(Object(s, a), Object(Next(s, t, ch), a), t)
  {
    hide Next, NextPc, Enabled, Changes, Object, CallOf, CallStep, ObjectStep, Outside;
    hide LocksOk, SafeOk, MemoryOk, BucketsOk, CountsOk, OutOk, UsesOk, ThreadOk;
    var s' := Next(s, t, ch);
    QuietMove(s, t, ch);
    QuietThread(s, a, t, ch);
    NextThread(s, t, ch);
    SafeKept(s, a, t, ch);
    LocksKept(s, t, ch);
    UsesKept(s, t, ch);
    MemorySame(s, s', a);
    OutSame(s, a, s', a, t);
    forall u | 0 <= u < |s.thr| ensures ThreadOk(s', a, s'.thr[u]) {
      ThreadSame(s, s', a, s'.thr[u]);
    }
    ObjectMoves(s, a, s', a, t);
  }

  lemma NextThread(s: State, t: nat, ch: Choice)
    requires t < |s.thr|
    ensures Next(s, t, ch).thr == s.thr[t := NextPc(s, s.thr[t], ch)]
  {
  }

  lemma ThreadSame(s: State, s': State, a: Abs, pc: Pc)
    requires s'.heap == s.heap && s'.fh == s.fh
    ensures ThreadOk(s', a, pc) == ThreadOk(s, a, pc)
  {
  }
}
