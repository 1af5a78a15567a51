/** The steps that change an object, a bucket or a count. */
module FooChanges {
  import opened Common
  import opened FooSpec
  import opened FooThreads
  import opened FooInvariant
  import opened FooProof
  import opened FooSteps

  lemma LocksAlone(s: State, t: nat, u: nat)
    requires LocksOk(s) && t < |s.thr| && u < |s.thr| && t != u
    ensures !(HoldsHash(s.thr[t]) && HoldsHash(s.thr[u]))
    ensures HoldsF(s.thr[t]).Some? ==> HoldsF(s.thr[u]) != HoldsF(s.thr[t])
  {
    hide HoldsHash, HoldsF;
  }

  lemma InvParts(s: State, a: Abs)
    requires Inv(s, a)
    ensures LocksOk(s) && SafeOk(s) && MemoryOk(s, a) && BucketsOk(s, a) && CountsOk(s) && OutOk(s, a) && UsesOk(s)
  {
    hide LocksOk, SafeOk, MemoryOk, BucketsOk, CountsOk, OutOk, UsesOk, ThreadOk;
  }

  /** What another thread relies on is as it was. */
  ghost predicate Kept(s: State, a: Abs, s': State, a': Abs, pc: Pc) {
    && (ObjectOf(pc).Some? && ObjectOf(pc).value in s.heap ==>
          var p := ObjectOf(pc).value;
          p in s'.heap && s'.heap[p].id == s.heap[p].id && (pc.AllocHead? ==> s'.heap[p].next == s.heap[p].next))
    && (HoldsF(pc).Some? && HoldsF(pc).value in s.heap ==>
          HoldsF(pc).value in s'.heap && s'.heap[HoldsF(pc).value].count == s.heap[HoldsF(pc).value].count)
    && (HoldsHash(pc) ==> s'.fh == s.fh && a'.t.buckets == a.t.buckets && a'.t.id == a.t.id)
  }

  /** The object a thread's place says something about. */
  function ObjectOf(pc: Pc): Option<nat> {
    if pc.AllocLock? || pc.AllocNext? || pc.AllocHead? || pc.ReleDec? || pc.ReleDec2? || pc.ReleHead? || pc.ReleWalk?
    then Some(pc.p) else None
  }

  lemma FrameThread(s: State, a: Abs, s': State, a': Abs, pc: Pc)
    requires ThreadOk(s, a, pc) && Kept(s, a, s', a', pc)
    ensures ThreadOk(s', a', pc)
  {
    hide HashOf, FirstWith;
  }

  /** The parts of the invariant put together again after a change. */
  lemma Assemble(s: State, a: Abs, t: nat, ch: Choice, a': Abs)
    requires Inv(s, a) && t < |s.thr| && Enabled(s, t, ch)
    requires
      var s' := Next(s, t, ch);
      && MemoryOk(s', a') && BucketsOk(s', a') && CountsOk(s') && OutOk(s', a')
      && ThreadOk(s', a', s'.thr[t]) && CallStep(CallOf(s.thr[t]), a.t, CallOf(s'.thr[t]), a'.t)
      && forall p :: p in s.heap && !(s.thr[t].ReleFree? && p == s.thr[t].p) ==> p in s'.heap
    requires forall u | 0 <= u < |s.thr| && u != t :: Kept(s, a, Next(s, t, ch), a', s.thr[u])
    ensures Inv(Next(s, t, ch), a') && ObjectStep(Object(s, a), Object(Next(s, t, ch), a'), t)
  {
    hide Next, NextPc, Enabled, Object, CallOf, CallStep, ObjectStep, Kept;
    hide LocksOk, SafeOk, MemoryOk, BucketsOk, CountsOk, OutOk, UsesOk, ThreadOk;
    var s' := Next(s, t, ch);
    NextThread(s, t, ch);
    SafeKept(s, a, t, ch);
    LocksKept(s, t, ch);
    UsesKept(s, t, ch);
    forall u | 0 <= u < |s.thr| ensures ThreadOk(s', a', s'.thr[u]) {
      if u != t {
        FrameThread(s, a, s', a', s.thr[u]);
      }
    }
    ObjectMoves(s, a, s', a', t);
  }

  // ---- counting references ----

  lemma CountAdded(refs: map<nat, nat>, r: nat, p: nat, q: nat)
    requires r !in refs
    ensures |RefsTo(refs[r := p], q)| == |RefsTo(refs, q)| + if q == p then 1 else 0
  {
    if q == p {
      assert RefsTo(refs[r := p], q) == RefsTo(refs, q) + {r};
    } else {
      assert RefsTo(refs[r := p], q) == RefsTo(refs, q);
    }
  }

  lemma CountRemoved(refs: map<nat, nat>, r: nat, q: nat)
    requires r in refs
    ensures |RefsTo(refs - {r}, q)| == |RefsTo(refs, q)| - if q == refs[r] then 1 else 0
  {
    if q == refs[r] {
      assert RefsTo(refs - {r}, q) == RefsTo(refs, q) - {r};
    } else {
      assert RefsTo(refs - {r}, q) == RefsTo(refs, q);
    }
  }

  lemma NoneYet(refs: map<nat, nat>, p: nat)
    requires forall r <- refs :: refs[r] != p
    ensures |RefsTo(refs, p)| == 0
  {
    assert RefsTo(refs, p) == {};
  }

  // ---- foo_alloc() getting its object ----

  function Made(a: Abs, p: nat, t: nat): Abs {
    a.(out := a.out[p := t])
  }

  lemma MakeMemory(s: State, a: Abs, s': State, p: nat, t: nat, r: nat, id: int)
    requires MemoryOk(s, a) && BucketsOk(s, a) && CountsOk(s) && p !in s.heap && p != 0 && r !in s.refs
    requires s'.heap == s.heap[p := Obj(1, id, 0)] && s'.refs == s.refs[r := p] && s'.fh == s.fh
    ensures MemoryOk(s', Made(a, p, t)) && BucketsOk(s', Made(a, p, t)) && CountsOk(s')
  {
    hide TableOk, CountsOk;
    MakeCounts(s, s', p, r, id);
    assert Made(a, p, t).out.Keys == a.out.Keys + {p};
  }

  lemma MakeCounts(s: State, s': State, p: nat, r: nat, id: int)
    requires CountsOk(s) && p !in s.heap && r !in s.refs
    requires s'.heap == s.heap[p := Obj(1, id, 0)] && s'.refs == s.refs[r := p]
    ensures CountsOk(s')
  {
    hide RefsTo;
    NoneYet(s.refs, p);
    forall q <- s'.heap ensures s'.heap[q].count == |RefsTo(s'.refs, q)| {
      CountAdded(s.refs, r, p, q);
    }
  }

  lemma MakeOut(s: State, a: Abs, s': State, t: nat, p: nat)
    requires OutOk(s, a) && t < |s.thr| == |s'.thr| && s'.thr == s.thr[t := s'.thr[t]]
    requires Outside(s.thr[t]) == None && Outside(s'.thr[t]) == Some(p) && p !in s.heap && p !in a.out
    requires p in s'.heap && s'.heap[p].count == 1 && forall q <- s.heap :: q in s'.heap && s'.heap[q] == s.heap[q]
    ensures OutOk(s', Made(a, p, t))
  {
    hide Outside;
  }

  lemma MakeStep(s: State, a: Abs, t: nat, ch: Choice)
    requires Inv(s, a) && t < |s.thr| && Enabled(s, t, ch) && s.thr[t].AllocMalloc? && ch.p != 0
    ensures
      var a' := Made(a, ch.p, t);
      Inv(Next(s, t, ch), a') && ObjectStep(Object(s, a), Object(Next(s, t, ch), a'), t)
  {
    hide Inv, Object, ObjectStep, MemoryOk, BucketsOk, CountsOk, OutOk, LocksOk, SafeOk, UsesOk, HashOf;
    var s', a' := Next(s, t, ch), Made(a, ch.p, t);
    InvParts(s, a);
    OutInMemory(s, a);
    MakeMemory(s, a, s', ch.p, t, ch.r, s.thr[t].id);
    MakeOut(s, a, s', t, ch.p);
    Assemble(s, a, t, ch, a');
  }

  lemma OutInMemory(s: State, a: Abs)
    requires MemoryOk(s, a)
    ensures a.out.Keys <= s.heap.Keys
  {
  }

  // ---- foo_alloc() linking its object to the bucket's first ----

  lemma PrivateFacts(s: State, a: Abs, t: nat)
    requires Inv(s, a) && t < |s.thr| && Outside(s.thr[t]).Some?
    ensures s.thr[t].p in s.heap && s.thr[t].p !in a.t.count && s.thr[t].p in a.out && a.out[s.thr[t].p] == t
    ensures forall u | 0 <= u < |s.thr| && u != t && ObjectOf(s.thr[u]).Some? :: ObjectOf(s.thr[u]).value != s.thr[t].p
    ensures forall h | 0 <= h < NHASH :: |a.t.buckets| == NHASH && s.thr[t].p !in a.t.buckets[h]
  {
    hide LocksOk, SafeOk, CountsOk, UsesOk, ThreadOk, HashOf, Links, Ordered;
    OutsideUses(s.thr[t]);
    forall u | 0 <= u < |s.thr| && u != t && ObjectOf(s.thr[u]).Some? ensures ObjectOf(s.thr[u]).value != s.thr[t].p {
      ObjectUsed(s.thr[u]);
      if ObjectOf(s.thr[u]).value == s.thr[t].p {
        OutsideAlone(s, a, t, u);
      }
    }
    forall h | 0 <= h < NHASH ensures s.thr[t].p !in a.t.buckets[h] {
      assert !In(a.t.buckets, h, s.thr[t].p);
    }
  }

  lemma ObjectUsed(pc: Pc)
    requires ObjectOf(pc).Some?
    ensures Uses(pc).Some? && pc.p == ObjectOf(pc).value
  {
  }

  lemma LinkMemory(s: State, a: Abs, s': State, p: nat, next: nat)
    requires MemoryOk(s, a) && BucketsOk(s, a) && CountsOk(s) && p in s.heap
    requires forall h | 0 <= h < NHASH :: p !in a.t.buckets[h]
    requires s'.heap == s.heap[p := s.heap[p].(next := next)] && s'.refs == s.refs && s'.fh == s.fh
    ensures MemoryOk(s', a) && BucketsOk(s', a) && CountsOk(s')
  {
    hide TableOk;
  }

  lemma LinkStep(s: State, a: Abs, t: nat, ch: Choice)
    requires Inv(s, a) && t < |s.thr| && Enabled(s, t, ch) && s.thr[t].AllocNext?
    ensures Inv(Next(s, t, ch), a) && ObjectStep(Object(s, a), Object(Next(s, t, ch), a), t)
  {
    hide Inv, Object, ObjectStep, MemoryOk, BucketsOk, CountsOk, OutOk, LocksOk, SafeOk, UsesOk, HashOf, Head;
    var s', pc := Next(s, t, ch), s.thr[t];
    InvParts(s, a);
    ThreadFacts(s, a, t);
    PrivateFacts(s, a, t);
    LinkMemory(s, a, s', pc.p, Head(s, pc.id));
    OutSame(s, a, s', a, t);
    HeadSame(s, s', pc.id);
    Assemble(s, a, t, ch, a);
  }

  lemma HeadSame(s: State, s': State, id: int)
    requires s'.fh == s.fh
    ensures Head(s', id) == Head(s, id)
  {
  }

  // ---- foo_alloc() making its object the first of the bucket ----

  function Inserted(a: Abs, p: nat, id: int): Abs
    requires |a.t.buckets| == NHASH
  {
    Abs(Insert(a.t, p, id), a.out - {p})
  }

  lemma InsertBuckets(s: State, a: Abs, s': State, p: nat, id: int)
    requires BucketsOk(s, a) && p in s.heap && p != 0 && p !in a.t.count && s.heap[p].next == Head(s, id)
    requires s'.heap == s.heap && s'.fh == s.fh[HashOf(id) := p]
    ensures |a.t.buckets| == NHASH && BucketsOk(s', Inserted(a, p, id))
  {
    hide HashOf, TableOk;
    assert |a.t.buckets| == NHASH by {
      TableSize(a.t);
    }
    InsertOk(a.t, p, id);
    var h := HashOf(id);
    forall g | 0 <= g < NHASH ensures Links(s'.heap, s'.fh[g], Insert(a.t, p, id).buckets[g]) {
      assert Links(s.heap, s.fh[g], a.t.buckets[g]);
      if g == h {
        PushLinks(s.heap, s.fh[h], a.t.buckets[h], p);
      }
    }
  }

  lemma TableSize(t: Table<nat>)
    requires TableOk(t)
    ensures |t.buckets| == NHASH
  {
  }

  lemma PushLinks(heap: map<nat, Obj>, head: nat, b: seq<nat>, p: nat)
    requires Links(heap, head, b) && p != 0 && p in heap && heap[p].next == head
    ensures Links(heap, p, [p] + b)
  {
    var c := [p] + b;
    forall i | 0 <= i < |c| ensures c[i] != 0 && c[i] in heap && heap[c[i]].next == Target(c, i + 1) {
      if i > 0 {
        assert c[i] == b[i - 1];
      }
    }
  }

  lemma InsertMemory(s: State, a: Abs, s': State, p: nat, id: int)
    requires MemoryOk(s, a) && |a.t.buckets| == NHASH && p in a.out && p in s.heap && s.heap[p].id == id && s.heap[p].count == 1
    requires s'.heap == s.heap
    ensures MemoryOk(s', Inserted(a, p, id))
  {
    hide HashOf;
    var a' := Inserted(a, p, id);
    assert a'.t.count.Keys == a.t.count.Keys + {p};
    assert a'.out.Keys == a.out.Keys - {p};
  }

  lemma LeavesOut(s: State, a: Abs, s': State, a': Abs, t: nat, p: nat)
    requires OutOk(s, a) && t < |s.thr| == |s'.thr| && s'.thr == s.thr[t := s'.thr[t]] && a'.out == a.out - {p}
    requires Outside(s.thr[t]) == Some(p) && Outside(s'.thr[t]) == None
    requires forall q | q in s.heap && q != p :: q in s'.heap && s'.heap[q].count == s.heap[q].count
    ensures OutOk(s', a')
  {
    hide Outside;
  }

  lemma CountsSame(s: State, s': State)
    requires CountsOk(s) && s'.refs == s.refs && s'.heap.Keys == s.heap.Keys
    requires forall q <- s.heap :: s'.heap[q].count == s.heap[q].count
    ensures CountsOk(s')
  {
    hide RefsTo;
  }

  lemma OutCount(s: State, a: Abs, t: nat)
    requires OutOk(s, a) && t < |s.thr| && Outside(s.thr[t]).Some?
    ensures Outside(s.thr[t]).value in s.heap && s.heap[Outside(s.thr[t]).value].count == 1
  {
    hide Outside;
  }

  lemma InsertStep(s: State, a: Abs, t: nat, ch: Choice)
    requires Inv(s, a) && t < |s.thr| && Enabled(s, t, ch) && s.thr[t].AllocHead?
    ensures |a.t.buckets| == NHASH
    ensures
      var a' := Inserted(a, s.thr[t].p, s.thr[t].id);
      Inv(Next(s, t, ch), a') && ObjectStep(Object(s, a), Object(Next(s, t, ch), a'), t)
  {
    hide Inv, Object, ObjectStep, MemoryOk, BucketsOk, CountsOk, OutOk, LocksOk, SafeOk, UsesOk, HashOf, Head, Insert;
    var s', pc := Next(s, t, ch), s.thr[t];
    InvParts(s, a);
    InvTable(s, a);
    ThreadFacts(s, a, t);
    PrivateFacts(s, a, t);
    OutCount(s, a, t);
    HeadsSize(s, a);
    InsertBuckets(s, a, s', pc.p, pc.id);
    var a' := Inserted(a, pc.p, pc.id);
    InsertMemory(s, a, s', pc.p, pc.id);
    CountsSame(s, s');
    LeavesOut(s, a, s', a', t, pc.p);
    forall u | 0 <= u < |s.thr| && u != t ensures Kept(s, a, s', a', s.thr[u]) {
      LocksAlone(s, t, u);
    }
    Assemble(s, a, t, ch, a');
  }

  lemma HeadsSize(s: State, a: Abs)
    requires BucketsOk(s, a)
    ensures |s.fh| == NHASH && |a.t.buckets| == NHASH
  {
    hide Links, Ordered;
  }

  // ---- foo_hold() and foo_find() adding a reference ----

  function Referenced(a: Abs, p: nat): Abs
    requires p in a.t.count
  {
    a.(t := AddRef(a.t, p))
  }

  lemma RefMemory(s: State, a: Abs, s': State, p: nat, r: nat)
    requires MemoryOk(s, a) && BucketsOk(s, a) && CountsOk(s) && p in a.t.count && p in s.heap && r !in s.refs
    requires s'.heap == s.heap[p := s.heap[p].(count := s.heap[p].count + 1)] && s'.refs == s.refs[r := p] && s'.fh == s.fh
    ensures MemoryOk(s', Referenced(a, p)) && BucketsOk(s', Referenced(a, p)) && CountsOk(s')
  {
    hide TableOk, CountsOk;
    AddRefOk(a.t, p);
    RefCounts(s, s', p, r);
    BucketsAlike(s, a, s', Referenced(a, p));
  }

  lemma BucketsAlike(s: State, a: Abs, s': State, a': Abs)
    requires BucketsOk(s, a) && TableOk(a'.t) && a'.t.buckets == a.t.buckets && s'.fh == s.fh
    requires forall p <- s.heap :: p in s'.heap && s'.heap[p].next == s.heap[p].next
    ensures BucketsOk(s', a')
  {
    hide TableOk;
    TableSize(a.t);
    forall h | 0 <= h < NHASH ensures Links(s'.heap, s'.fh[h], a'.t.buckets[h]) {
      assert Links(s.heap, s.fh[h], a.t.buckets[h]);
    }
  }

  lemma RefCounts(s: State, s': State, p: nat, r: nat)
    requires CountsOk(s) && p in s.heap && r !in s.refs
    requires s'.heap == s.heap[p := s.heap[p].(count := s.heap[p].count + 1)] && s'.refs == s.refs[r := p]
    ensures CountsOk(s')
  {
    hide RefsTo;
    forall q <- s'.heap ensures s'.heap[q].count == |RefsTo(s'.refs, q)| {
      CountAdded(s.refs, r, p, q);
    }
  }

  lemma OutUntouched(s: State, a: Abs, s': State, a': Abs, t: nat, p: nat)
    requires OutOk(s, a) && t < |s.thr| == |s'.thr| && s'.thr == s.thr[t := s'.thr[t]] && a'.out == a.out && p !in a.out
    requires Outside(s.thr[t]) == None && Outside(s'.thr[t]) == None
    requires forall q | q in s.heap && q != p :: q in s'.heap && s'.heap[q].count == s.heap[q].count
    ensures OutOk(s', a')
  {
    hide Outside;
  }

  /** The object whose count a step changes is in the table, and the thread holds its lock. */
  lemma CountedFacts(s: State, a: Abs, t: nat)
    requires Inv(s, a) && t < |s.thr|
    requires s.thr[t].HoldInc? || s.thr[t].FindInc? || s.thr[t].ReleDec? || s.thr[t].ReleDec2?
    ensures s.thr[t].p in a.t.count && s.thr[t].p in s.heap && s.thr[t].p !in a.out && HoldsF(s.thr[t]) == Some(s.thr[t].p)
    ensures s.thr[t].p in a.t.id && s.heap[s.thr[t].p].count == a.t.count[s.thr[t].p] && s.heap[s.thr[t].p].id == a.t.id[s.thr[t].p]
  {
    hide LocksOk, SafeOk, CountsOk, UsesOk, OutOk, BucketsOk, TableOk, Lookup;
    InvTable(s, a);
    ThreadFacts(s, a, t);
    if s.thr[t].FindInc? {
      FoundLive(a.t, s.thr[t].id, s.thr[t].p);
    } else {
      UsedFacts(s, a, t);
    }
    TableObjects(s, a, s.thr[t].p);
  }

  lemma RefStep(s: State, a: Abs, t: nat, ch: Choice)
    requires Inv(s, a) && t < |s.thr| && Enabled(s, t, ch) && (s.thr[t].HoldInc? || s.thr[t].FindInc?)
    ensures s.thr[t].p in a.t.count
    ensures
      var a' := Referenced(a, s.thr[t].p);
      Inv(Next(s, t, ch), a') && ObjectStep(Object(s, a), Object(Next(s, t, ch), a'), t)
  {
    hide Inv, Object, ObjectStep, MemoryOk, BucketsOk, CountsOk, OutOk, LocksOk, SafeOk, UsesOk, HashOf, Head, Lookup;
    var s', pc := Next(s, t, ch), s.thr[t];
    InvParts(s, a);
    HeadsSize(s, a);
    ThreadFacts(s, a, t);
    CountedFacts(s, a, t);
    var a' := Referenced(a, pc.p);
    RefMemory(s, a, s', pc.p, ch.r);
    OutUntouched(s, a, s', a', t, pc.p);
    forall u | 0 <= u < |s.thr| && u != t ensures Kept(s, a, s', a', s.thr[u]) {
      LocksAlone(s, t, u);
    }
    Assemble(s, a, t, ch, a');
  }

  // ---- foo_rele() giving up a reference that is not the last ----

  function Dropped(a: Abs, p: nat): Abs
    requires p in a.t.count && p in a.t.id && |a.t.buckets| == NHASH
  {
    a.(t := Drop(a.t, p))
  }

  lemma UnrefCounts(s: State, s': State, p: nat, r: nat)
    requires CountsOk(s) && p in s.heap && r in s.refs && s.refs[r] == p && s.heap[p].count > 1
    requires s'.heap == s.heap[p := s.heap[p].(count := s.heap[p].count - 1)] && s'.refs == s.refs - {r}
    ensures CountsOk(s')
  {
    hide RefsTo;
    forall q <- s'.heap ensures s'.heap[q].count == |RefsTo(s'.refs, q)| {
      CountRemoved(s.refs, r, q);
    }
  }

  lemma UnrefMemory(s: State, a: Abs, s': State, p: nat)
    requires MemoryOk(s, a) && BucketsOk(s, a) && p in a.t.count && p in a.t.id && p in s.heap && s.heap[p].count > 1
    requires |a.t.buckets| == NHASH
    requires s'.heap == s.heap[p := s.heap[p].(count := s.heap[p].count - 1)] && s'.fh == s.fh
    ensures MemoryOk(s', Dropped(a, p)) && BucketsOk(s', Dropped(a, p))
  {
    hide TableOk;
    DropOk(a.t, p);
    BucketsAlike(s, a, s', Dropped(a, p));
  }

  lemma UnrefEffect(s: State, a: Abs, t: nat, ch: Choice)
    requires t < |s.thr| && (s.thr[t].ReleDec? || s.thr[t].ReleDec2?) && s.thr[t].p in s.heap && s.heap[s.thr[t].p].count > 1
    requires s.thr[t].p in a.t.count && s.thr[t].p in a.t.id && |a.t.buckets| == NHASH
    ensures
      var s', pc := Next(s, t, ch), s.thr[t];
      && s'.heap == s.heap[pc.p := s.heap[pc.p].(count := s.heap[pc.p].count - 1)] && s'.refs == s.refs - {pc.r} && s'.fh == s.fh
      && t < |s'.thr| && s'.thr == s.thr[t := s'.thr[t]] && Outside(pc) == None && Outside(s'.thr[t]) == None
      && (s'.thr[t].ReleFUnlock? || s'.thr[t].ReleFUnlock2?) && s'.thr[t].p == pc.p
  {
    hide HashOf, Head, Lookup, Drop;
  }

  lemma UnrefCall(s: State, a: Abs, pc: Pc, pc': Pc, a': Abs)
    requires (pc.ReleDec? || pc.ReleDec2?) && (pc'.ReleFUnlock? || pc'.ReleFUnlock2?) && pc'.p == pc.p
    requires pc.p in a.t.count && pc.p in a.t.id && |a.t.buckets| == NHASH
    ensures CallStep(CallOf(pc), a.t, CallOf(pc'), Dropped(a, pc.p).t) && ThreadOk(s, a', pc')
  {
    hide HashOf, Lookup, Drop;
  }

  lemma UnrefKept(s: State, a: Abs, t: nat, u: nat, s': State)
    requires LocksOk(s) && t < |s.thr| && u < |s.thr| && u != t && (s.thr[t].ReleDec? || s.thr[t].ReleDec2?)
    requires s.thr[t].p in a.t.count && s.thr[t].p in a.t.id && |a.t.buckets| == NHASH && s.thr[t].p in s.heap
    requires s.heap[s.thr[t].p].count > 1 && a.t.count[s.thr[t].p] > 1 && HoldsF(s.thr[t]) == Some(s.thr[t].p)
    requires s'.heap == s.heap[s.thr[t].p := s.heap[s.thr[t].p].(count := s.heap[s.thr[t].p].count - 1)] && s'.fh == s.fh
    ensures Kept(s, a, s', Dropped(a, s.thr[t].p), s.thr[u])
  {
    hide LocksOk, HoldsF, HoldsHash;
    LocksAlone(s, t, u);
  }

  lemma UnrefStep(s: State, a: Abs, t: nat, ch: Choice)
    requires Inv(s, a) && t < |s.thr| && Enabled(s, t, ch) && (s.thr[t].ReleDec? || s.thr[t].ReleDec2?)
    ensures s.thr[t].p in a.t.count && s.thr[t].p in a.t.id && |a.t.buckets| == NHASH
    ensures
      var a' := Dropped(a, s.thr[t].p);
      Inv(Next(s, t, ch), a') && ObjectStep(Object(s, a), Object(Next(s, t, ch), a'), t)
  {
    hide Inv, Object, ObjectStep, MemoryOk, BucketsOk, CountsOk, OutOk, LocksOk, SafeOk, HashOf, Head, Lookup;
    hide Next, CallStep, CallOf, Kept, Drop, Outside, Enabled;
    var s', pc := Next(s, t, ch), s.thr[t];
    InvParts(s, a);
    HeadsSize(s, a);
    ThreadFacts(s, a, t);
    CountedFacts(s, a, t);
    UseFacts(s, a, t);
    var a' := Dropped(a, pc.p);
    UnrefEffect(s, a, t, ch);
    UnrefCall(s', a, pc, s'.thr[t], a');
    UnrefCounts(s, s', pc.p, pc.r);
    UnrefMemory(s, a, s', pc.p);
    OutUntouched(s, a, s', a', t, pc.p);
    forall u | 0 <= u < |s.thr| && u != t ensures Kept(s, a, s', a', s.thr[u]) {
      UnrefKept(s, a, t, u, s');
    }
    Assemble(s, a, t, ch, a');
  }

  /** The reference being given up is to the object. */
  lemma UseFacts(s: State, a: Abs, t: nat)
    requires UsesOk(s) && t < |s.thr| && (s.thr[t].ReleDec? || s.thr[t].ReleDec2?)
    ensures s.thr[t].r in s.refs && s.refs[s.thr[t].r] == s.thr[t].p
  {
    assert Uses(s.thr[t]) == Some(s.thr[t].r);
  }
}
