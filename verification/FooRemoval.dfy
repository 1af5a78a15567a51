/** foo_rele() giving up the last reference: unlinking the object and freeing it. */
module FooRemoval {
  import opened Common
  import opened FooSpec
  import opened FooThreads
  import opened FooInvariant
  import opened FooProof
  import opened FooSteps
  import opened FooChanges

  /** The object leaves the table and stays, for now, with the thread. */
  function Unlinked(a: Abs, p: nat, t: nat): Abs
    requires p in a.t.count && p in a.t.id && |a.t.buckets| == NHASH
  {
    Abs(Drop(a.t, p), a.out[p := t])
  }

  /** Copying an object's link into what pointed to it takes exactly that object out of the list. */
  lemma CutLinks(heap: map<nat, Obj>, head: nat, b: seq<nat>, k: nat, heap': map<nat, Obj>, head': nat)
    requires Links(heap, head, b) && k < |b| && Distinct(b)
    requires if k == 0 then head' == heap[b[0]].next && heap' == heap
             else head' == head && heap' == heap[b[k - 1] := heap[b[k - 1]].(next := heap[b[k]].next)]
    ensures Links(heap', head', b[..k] + b[k + 1..])
  {
    var c := b[..k] + b[k + 1..];
    assert forall j :: 0 <= j < |b| ==> b[j] in heap && heap[b[j]].next == Target(b, j + 1);
    forall i | 0 <= i < |c| ensures c[i] != 0 && c[i] in heap' && heap'[c[i]].next == Target(c, i + 1) {
      CutTarget(b, k, i);
    }
  }

  /** The lists with and without the k-th object, place by place. */
  lemma CutTarget(b: seq<nat>, k: nat, i: nat)
    requires k < |b| && i + 1 < |b|
    ensures
      var c := b[..k] + b[k + 1..];
      && |c| == |b| - 1 && c[i] == b[if i < k then i else i + 1]
      && Target(c, i + 1) == (if i + 1 < k then b[i + 1] else Target(b, i + 2))
  {
  }

  /** Where an object being unlinked stands in its bucket. */
  ghost predicate Place(s: State, a: Abs, pc: Pc, k: nat) {
    && (pc.ReleHead? || pc.ReleWalk?)
    && pc.p in s.heap && |a.t.buckets| == NHASH
    && var b := a.t.buckets[HashOf(s.heap[pc.p].id)];
    && k < |b| && b[k] == pc.p
    && (pc.ReleHead? ==> k == 0)
    && (pc.ReleWalk? ==> k > 0 && b[k - 1] == pc.c)
  }

  lemma PlaceFound(s: State, a: Abs, t: nat, ch: Choice) returns (k: nat)
    requires Inv(s, a) && t < |s.thr| && (s.thr[t].ReleHead? || s.thr[t].ReleWalk?) && Changes(s, s.thr[t], ch)
    ensures Place(s, a, s.thr[t], k)
  {
    hide Inv, HashOf, Head;
    var pc := s.thr[t];
    ThreadFacts(s, a, t);
    ReleasedInBucket(s, a, t);
    UsedFacts(s, a, t);
    var id := s.heap[pc.p].id;
    if pc.ReleHead? {
      HeadFacts(s, a, id);
      k := 0;
    } else {
      CursorLive(s, a, id, pc.c, pc.n);
      k := pc.n + 1;
    }
  }

  lemma CutBuckets(s: State, a: Abs, s': State, pc: Pc, k: nat)
    requires BucketsOk(s, a) && Place(s, a, pc, k) && pc.p in a.t.count && pc.p in a.t.id && a.t.count[pc.p] == 1
    requires a.t.id[pc.p] == s.heap[pc.p].id
    requires if pc.ReleHead? then s'.heap == s.heap && s'.fh == s.fh[HashOf(s.heap[pc.p].id) := s.heap[pc.p].next]
             else pc.c in s.heap && s'.fh == s.fh && s'.heap == s.heap[pc.c := s.heap[pc.c].(next := s.heap[pc.p].next)]
    ensures |s'.fh| == NHASH && TableOk(Drop(a.t, pc.p))
    ensures forall g | 0 <= g < NHASH :: Links(s'.heap, s'.fh[g], Drop(a.t, pc.p).buckets[g])
  {
    hide HashOf, TableOk, Ordered, Minus;
    HeadsSize(s, a);
    DropOk(a.t, pc.p);
    var h := HashOf(s.heap[pc.p].id);
    var b := a.t.buckets[h];
    BucketDistinct(a.t, h);
    MinusAt(b, k);
    forall g | 0 <= g < NHASH ensures Links(s'.heap, s'.fh[g], Drop(a.t, pc.p).buckets[g]) {
      assert Links(s.heap, s.fh[g], a.t.buckets[g]);
      if g == h {
        CutLinks(s.heap, s.fh[h], b, k, s'.heap, s'.fh[h]);
      } else if pc.ReleWalk? {
        BucketsApart(a.t, g, h, pc.c);
      }
    }
  }

  lemma BucketDistinct(t: Table<nat>, h: nat)
    requires TableOk(t) && h < NHASH
    ensures |t.buckets| == NHASH && Distinct(t.buckets[h])
  {
    hide HashOf, Ordered;
    OrderedDistinct(t.born, t.buckets[h]);
  }

  lemma BucketsApart(t: Table<nat>, g: nat, h: nat, c: nat)
    requires TableOk(t) && g < NHASH && h < NHASH && g != h
    ensures |t.buckets| == NHASH && (c in t.buckets[h] ==> c !in t.buckets[g])
  {
    hide HashOf, Ordered;
    assert In(t.buckets, g, c) <==> c in t.buckets[g];
    assert In(t.buckets, h, c) <==> c in t.buckets[h];
  }

  lemma CutMemory(s: State, a: Abs, s': State, p: nat, t: nat)
    requires MemoryOk(s, a) && p in a.t.count && p in a.t.id && a.t.count[p] == 1 && |a.t.buckets| == NHASH
    requires s'.heap.Keys == s.heap.Keys
    requires forall q <- s.heap :: s'.heap[q].count == s.heap[q].count && s'.heap[q].id == s.heap[q].id
    ensures MemoryOk(s', Unlinked(a, p, t))
  {
    hide HashOf, Minus;
    var a' := Unlinked(a, p, t);
    assert a'.t.count.Keys == a.t.count.Keys - {p};
    assert a'.out.Keys == a.out.Keys + {p};
  }

  lemma EntersOut(s: State, a: Abs, s': State, a': Abs, t: nat, p: nat)
    requires OutOk(s, a) && t < |s.thr| == |s'.thr| && s'.thr == s.thr[t := s'.thr[t]] && a'.out == a.out[p := t] && p !in a.out
    requires Outside(s.thr[t]) == None && Outside(s'.thr[t]) == Some(p) && p in s'.heap && s'.heap[p].count == 1
    requires s'.heap.Keys == s.heap.Keys && forall q <- s.heap :: s'.heap[q].count == s.heap[q].count
    ensures OutOk(s', a')
  {
    hide Outside;
  }

  /** The object being unlinked: in the table, with one reference. */
  lemma LastFacts(s: State, a: Abs, t: nat)
    requires Inv(s, a) && t < |s.thr| && (s.thr[t].ReleHead? || s.thr[t].ReleWalk?)
    ensures
      var p := s.thr[t].p;
      && p in a.t.count && p in a.t.id && a.t.count[p] == 1 && p in s.heap && s.heap[p].count == 1
      && s.heap[p].id == a.t.id[p] && p !in a.out && |a.t.buckets| == NHASH
  {
    hide LocksOk, SafeOk, CountsOk, UsesOk, OutOk, BucketsOk, TableOk;
    InvTable(s, a);
    TableSize(a.t);
    ThreadFacts(s, a, t);
    UsedFacts(s, a, t);
    TableObjects(s, a, s.thr[t].p);
  }

  lemma UnlinkEffect(s: State, t: nat, ch: Choice)
    requires t < |s.thr| && (s.thr[t].ReleHead? || s.thr[t].ReleWalk?) && Changes(s, s.thr[t], ch)
    requires s.thr[t].p in s.heap && (s.thr[t].ReleWalk? ==> s.thr[t].c in s.heap) && |s.fh| == NHASH
    ensures
      var s', pc := Next(s, t, ch), s.thr[t];
      && (if pc.ReleHead? then s'.heap == s.heap && s'.fh == s.fh[HashOf(s.heap[pc.p].id) := s.heap[pc.p].next]
          else s'.fh == s.fh && s'.heap == s.heap[pc.c := s.heap[pc.c].(next := s.heap[pc.p].next)])
      && s'.refs == s.refs && s'.thr[t] == ReleHUnlock3(pc.p, pc.r) && s'.thr == s.thr[t := s'.thr[t]]
      && CallOf(pc) == Pending(ReleOp(pc.p)) && CallOf(s'.thr[t]) == Done(ReleOp(pc.p), None)
  {
    hide HashOf;
  }

  lemma UnlinkStep(s: State, a: Abs, t: nat, ch: Choice)
    requires Inv(s, a) && t < |s.thr| && Enabled(s, t, ch) && (s.thr[t].ReleHead? || s.thr[t].ReleWalk?)
    requires Changes(s, s.thr[t], ch)
    ensures s.thr[t].p in a.t.count && s.thr[t].p in a.t.id && |a.t.buckets| == NHASH
    ensures
      var a' := Unlinked(a, s.thr[t].p, t);
      Inv(Next(s, t, ch), a') && ObjectStep(Object(s, a), Object(Next(s, t, ch), a'), t)
  {
    hide Inv, Object, ObjectStep, MemoryOk, BucketsOk, CountsOk, OutOk, LocksOk, SafeOk, UsesOk, HashOf, Changes, Next, NextPc, CallOf, Enabled, Drop, TableOk, Links;
    var s', pc := Next(s, t, ch), s.thr[t];
    InvParts(s, a);
    HeadsSize(s, a);
    LastFacts(s, a, t);
    NoWildPointer(s, a, t);
    var k := PlaceFound(s, a, t, ch);
    if pc.ReleWalk? {
      CursorInMemory(s, a, t);
    }
    UnlinkEffect(s, t, ch);
    var a' := Unlinked(a, pc.p, t);
    CutBuckets(s, a, s', pc, k);
    CutMemory(s, a, s', pc.p, t);
    CountsSame(s, s');
    EntersOut(s, a, s', a', t, pc.p);
    TableSize(a'.t);
    BucketsGiven(s', a');
    forall u | 0 <= u < |s.thr| && u != t ensures Kept(s, a, s', a', s.thr[u]) {
      LocksAlone(s, t, u);
    }
    Assemble(s, a, t, ch, a');
  }

  lemma CursorInMemory(s: State, a: Abs, t: nat)
    requires Inv(s, a) && t < |s.thr| && s.thr[t].ReleWalk?
    ensures s.thr[t].c in s.heap
  {
    hide Inv;
    ThreadFacts(s, a, t);
    CursorLive(s, a, s.heap[s.thr[t].p].id, s.thr[t].c, s.thr[t].n);
  }

  lemma BucketsGiven(s: State, a: Abs)
    requires TableOk(a.t) && |s.fh| == NHASH && |a.t.buckets| == NHASH
    requires forall g | 0 <= g < NHASH :: Links(s.heap, s.fh[g], a.t.buckets[g])
    ensures BucketsOk(s, a)
  {
    hide TableOk, Links;
  }

  // ---- free() ----

  function Freed(a: Abs, p: nat): Abs {
    a.(out := a.out - {p})
  }

  /** At the moment of free() nobody else has a reference to the object, uses it, holds or waits for its lock, or can find it. */
  lemma FreeIsSafe(s: State, a: Abs, t: nat)
    requires Inv(s, a) && t < |s.thr| && s.thr[t].ReleFree?
    ensures
      var p := s.thr[t].p;
      && RefsTo(s.refs, p) == {s.thr[t].r} && p !in s.flock && p in s.heap
      && (forall u | 0 <= u < |s.thr| && u != t :: Touches(s.thr[u]) != p && (Uses(s.thr[u]).Some? ==> s.thr[u].p != p))
      && p !in s.fh && forall q <- a.t.count :: q in s.heap && q != p && s.heap[q].next != p
  {
    var p := s.thr[t].p;
    InvParts(s, a);
    OutCount(s, a, t);
    OnlyOne(s, a, t);
    forall u | 0 <= u < |s.thr| && u != t
      ensures Touches(s.thr[u]) != p && (Uses(s.thr[u]).Some? ==> s.thr[u].p != p)
    {
      TouchesOther(s, a, t, u);
    }
    forall q <- a.t.count ensures q in s.heap && q != p && s.heap[q].next != p {
      NotNext(s, a, t, q);
    }
    NotHead(s, a, t);
  }

  lemma OnlyOne(s: State, a: Abs, t: nat)
    requires Inv(s, a) && t < |s.thr| && s.thr[t].ReleFree?
    ensures RefsTo(s.refs, s.thr[t].p) == {s.thr[t].r} && s.thr[t].p !in s.flock
  {
    hide LocksOk, MemoryOk, BucketsOk, ThreadOk;
    var p, r := s.thr[t].p, s.thr[t].r;
    Member(s.refs, r, p);
    forall q <- RefsTo(s.refs, p) ensures q == r {
      OnlyMember(s.refs, r, q, p);
    }
  }

  lemma TouchesOther(s: State, a: Abs, t: nat, u: nat)
    requires Inv(s, a) && t < |s.thr| && s.thr[t].ReleFree? && u < |s.thr| && u != t
    ensures Touches(s.thr[u]) != s.thr[t].p && (Uses(s.thr[u]).Some? ==> s.thr[u].p != s.thr[t].p)
    ensures HoldsF(s.thr[u]) != Some(s.thr[t].p)
    ensures ObjectOf(s.thr[u]) != Some(s.thr[t].p)
  {
    hide Inv, Touches, Uses, HoldsF, ObjectOf;
    var pc := s.thr[u];
    NoNullFree(s, a, t);
    OnlyOne(s, a, t);
    TouchKinds(pc);
    FreeOutside(s, t);
    UsesOther(s, a, t, u);
    if HoldsF(pc).Some? {
      HeldFacts(s, a, u);
    }
    if ObjectOf(pc).Some? {
      ObjectUsed(pc);
    }
    if pc.FindWalk? || pc.ReleWalk? || pc.FindFLock? || pc.FindInc? {
      TouchesTable(s, a, u);
      PrivateFacts(s, a, t);
    }
  }

  lemma UsesOther(s: State, a: Abs, t: nat, u: nat)
    requires Inv(s, a) && t < |s.thr| && s.thr[t].ReleFree? && u < |s.thr| && u != t
    ensures Uses(s.thr[u]).Some? ==> s.thr[u].p != s.thr[t].p
  {
    hide Inv;
    FreeOutside(s, t);
    if Uses(s.thr[u]).Some? && s.thr[u].p == s.thr[t].p {
      OutsideAlone(s, a, t, u);
    }
  }

  lemma TouchesTable(s: State, a: Abs, u: nat)
    requires Inv(s, a) && u < |s.thr|
    requires s.thr[u].FindWalk? || s.thr[u].ReleWalk? || s.thr[u].FindFLock? || s.thr[u].FindInc?
    ensures Touches(s.thr[u]) in a.t.count
  {
    hide Inv, TableOk, Lookup, HashOf;
    var pc := s.thr[u];
    InvTable(s, a);
    ThreadFacts(s, a, u);
    if pc.FindWalk? {
      CursorLive(s, a, pc.id, pc.c, pc.n);
    } else if pc.ReleWalk? {
      CursorLive(s, a, s.heap[pc.p].id, pc.c, pc.n);
    } else {
      FoundLive(a.t, pc.id, pc.p);
    }
  }

  lemma FreeOutside(s: State, t: nat)
    requires t < |s.thr| && s.thr[t].ReleFree?
    ensures Outside(s.thr[t]) == Some(s.thr[t].p) && Uses(s.thr[t]) == Some(s.thr[t].r)
  {
  }

  lemma NoNullFree(s: State, a: Abs, t: nat)
    requires Inv(s, a) && t < |s.thr| && s.thr[t].ReleFree?
    ensures s.thr[t].p != 0
  {
    hide Inv;
    UsedFacts(s, a, t);
  }

  lemma NotHead(s: State, a: Abs, t: nat)
    requires Inv(s, a) && t < |s.thr| && s.thr[t].ReleFree?
    ensures s.thr[t].p !in s.fh
  {
    hide LocksOk, SafeOk, CountsOk, UsesOk, OutOk, ThreadOk, MemoryOk, TableOk, HashOf;
    PrivateFacts(s, a, t);
    NoNullFree(s, a, t);
    HeadsSize(s, a);
    forall h | 0 <= h < |s.fh| ensures s.fh[h] != s.thr[t].p {
      var b := a.t.buckets[h];
      assert Links(s.heap, s.fh[h], b);
      assert b != [] ==> b[0] in b;
    }
  }

  lemma NotNext(s: State, a: Abs, t: nat, q: nat)
    requires Inv(s, a) && t < |s.thr| && s.thr[t].ReleFree? && q in a.t.count
    ensures q in s.heap && q != s.thr[t].p && s.heap[q].next != s.thr[t].p
  {
    hide LocksOk, SafeOk, CountsOk, UsesOk, OutOk, ThreadOk, HashOf, Ordered;
    PrivateFacts(s, a, t);
    NoNullFree(s, a, t);
    var h := HashOf(a.t.id[q]);
    var b := a.t.buckets[h];
    assert In(a.t.buckets, h, q);
    var i :| 0 <= i < |b| && b[i] == q;
    assert Links(s.heap, s.fh[h], b);
    assert s.heap[q].next == Target(b, i + 1);
    assert i + 1 < |b| ==> b[i + 1] in b;
  }

  lemma FreeCounts(s: State, s': State, p: nat, r: nat)
    requires CountsOk(s) && p in s.heap && RefsTo(s.refs, p) == {r}
    requires s'.heap == s.heap - {p} && s'.refs == s.refs - {r}
    ensures CountsOk(s')
  {
    assert r in RefsTo(s.refs, p);
    forall q <- s'.refs ensures s'.refs[q] in s'.heap {
      assert q in RefsTo(s.refs, p) <==> s.refs[q] == p;
    }
    forall q <- s'.heap ensures s'.heap[q].count == |RefsTo(s'.refs, q)| {
      CountRemoved(s.refs, r, q);
    }
  }

  lemma FreeMemory(s: State, a: Abs, s': State, p: nat)
    requires MemoryOk(s, a) && BucketsOk(s, a) && p in a.out && p !in a.t.count
    requires forall h | 0 <= h < NHASH :: p !in a.t.buckets[h]
    requires s'.heap == s.heap - {p} && s'.fh == s.fh
    ensures MemoryOk(s', Freed(a, p)) && BucketsOk(s', Freed(a, p))
  {
    hide TableOk;
    HeadsSize(s, a);
    assert Freed(a, p).out.Keys == a.out.Keys - {p};
    forall h | 0 <= h < NHASH ensures Links(s'.heap, s'.fh[h], a.t.buckets[h]) {
      assert Links(s.heap, s.fh[h], a.t.buckets[h]);
    }
  }

  lemma FreeStep(s: State, a: Abs, t: nat, ch: Choice)
    requires Inv(s, a) && t < |s.thr| && Enabled(s, t, ch) && s.thr[t].ReleFree?
    ensures
      var a' := Freed(a, s.thr[t].p);
      Inv(Next(s, t, ch), a') && ObjectStep(Object(s, a), Object(Next(s, t, ch), a'), t)
  {
    hide Inv, Object, ObjectStep, MemoryOk, BucketsOk, CountsOk, OutOk, LocksOk, SafeOk, UsesOk, HashOf, RefsTo;
    var s', pc := Next(s, t, ch), s.thr[t];
    var a' := Freed(a, pc.p);
    InvParts(s, a);
    HeadsSize(s, a);
    PrivateFacts(s, a, t);
    OnlyOne(s, a, t);
    FreeCounts(s, s', pc.p, pc.r);
    FreeMemory(s, a, s', pc.p);
    LeavesOut(s, a, s', a', t, pc.p);
    forall u | 0 <= u < |s.thr| && u != t ensures Kept(s, a, s', a', s.thr[u]) {
      TouchesOther(s, a, t, u);
    }
    Assemble(s, a, t, ch, a');
  }
}
