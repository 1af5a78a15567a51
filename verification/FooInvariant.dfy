/** What every reachable state of the two-lock table satisfies. */
module FooInvariant {
  import opened Common
  import opened FooSpec
  import opened FooThreads

  /** The table under one lock; and the objects outside it, each with the thread that is making or destroying it. */
  datatype Abs = Abs(t: Table<nat>, out: map<nat, nat>)

  predicate HoldsHash(pc: Pc) {
    pc.AllocNext? || pc.AllocHead? || pc.AllocFLock? || pc.AllocHUnlock? || pc.FindHead? || pc.FindWalk? || pc.FindFLock?
    || pc.FindInc? || pc.FindFUnlock? || pc.FindHUnlock? || pc.FindMiss? || pc.ReleRelock? || pc.ReleRecheck? || pc.ReleDec2?
    || pc.ReleFUnlock2? || pc.ReleHUnlock2? || pc.ReleHead? || pc.ReleWalk? || pc.ReleHUnlock3?
  }

  /** The object whose lock the thread holds. */
  function HoldsF(pc: Pc): Option<nat> {
    if pc.AllocHUnlock? || pc.AllocFUnlock? || pc.HoldInc? || pc.HoldUnlock? || pc.FindInc? || pc.FindFUnlock?
       || pc.ReleCheck? || pc.ReleDec? || pc.ReleFUnlock? || pc.ReleDrop? || pc.ReleRecheck? || pc.ReleDec2? || pc.ReleFUnlock2?
       || pc.ReleHead? || pc.ReleWalk? || pc.ReleHUnlock3? || pc.ReleFUnlock3?
    then Some(pc.p) else None
  }

  /** The object the thread has outside the table: not in it yet, or no longer. */
  function Outside(pc: Pc): Option<nat> {
    if pc.AllocLock? || pc.AllocNext? || pc.AllocHead? || pc.ReleHUnlock3? || pc.ReleFUnlock3? || pc.ReleFree?
    then Some(pc.p) else None
  }

  function RefsTo(refs: map<nat, nat>, p: nat): set<nat> {
    set r | r in refs && refs[r] == p
  }

  function Target(s: seq<nat>, i: nat): nat
    requires i <= |s|
  {
    if i == |s| then 0 else s[i]
  }

  /** Following f_next from the head of a bucket visits exactly its objects and ends in NULL. */
  ghost predicate Links(heap: map<nat, Obj>, head: nat, s: seq<nat>) {
    && head == Target(s, 0)
    && forall i :: 0 <= i < |s| ==> s[i] != 0 && s[i] in heap && heap[s[i]].next == Target(s, i + 1)
  }

  ghost predicate LocksOk(s: State) {
    && (s.hash.Some? ==> s.hash.value < |s.thr| && HoldsHash(s.thr[s.hash.value]))
    && (forall u | 0 <= u < |s.thr| && HoldsHash(s.thr[u]) :: s.hash == Some(u))
    && (forall p <- s.flock :: s.flock[p] < |s.thr| && HoldsF(s.thr[s.flock[p]]) == Some(p))
    && (forall u | 0 <= u < |s.thr| && HoldsF(s.thr[u]).Some? ::
          HoldsF(s.thr[u]).value in s.flock && s.flock[HoldsF(s.thr[u]).value] == u)
  }

  ghost predicate MemoryOk(s: State, a: Abs) {
    && 0 !in s.heap
    && s.heap.Keys == a.t.count.Keys + a.out.Keys && a.t.count.Keys !! a.out.Keys
    && forall p <- a.t.count :: p in s.heap && p in a.t.id && s.heap[p].count == a.t.count[p] && s.heap[p].id == a.t.id[p]
  }

  ghost predicate BucketsOk(s: State, a: Abs) {
    && TableOk(a.t) && |s.fh| == NHASH
    && forall h :: 0 <= h < NHASH ==> Links(s.heap, s.fh[h], a.t.buckets[h])
  }

  /** f_count is the number of references. */
  ghost predicate CountsOk(s: State) {
    && (forall r <- s.refs :: s.refs[r] in s.heap)
    && (forall p <- s.heap :: s.heap[p].count == |RefsTo(s.refs, p)|)
  }

  ghost predicate OutOk(s: State, a: Abs) {
    && (forall p <- a.out :: a.out[p] < |s.thr| && Outside(s.thr[a.out[p]]) == Some(p))
    && (forall u | 0 <= u < |s.thr| && Outside(s.thr[u]).Some? ::
          && Outside(s.thr[u]).value in a.out && a.out[Outside(s.thr[u]).value] == u
          && Outside(s.thr[u]).value in s.heap && s.heap[Outside(s.thr[u]).value].count == 1)
  }

  /** The reference a thread uses is there, and only holders share one. */
  ghost predicate UsesOk(s: State) {
    && (forall u | 0 <= u < |s.thr| && Uses(s.thr[u]).Some? ::
          Uses(s.thr[u]).value in s.refs && s.refs[Uses(s.thr[u]).value] == s.thr[u].p)
    && (forall u, v | 0 <= u < |s.thr| && 0 <= v < |s.thr| && u != v && Uses(s.thr[u]).Some? && Uses(s.thr[v]) == Uses(s.thr[u]) ::
          InHold(s.thr[u]) && InHold(s.thr[v]))
  }

  /** The cursor of a walk is at place n of the bucket. */
  ghost predicate Cursor(a: Abs, id: int, c: nat, n: nat) {
    && |a.t.buckets| == NHASH
    && n < |a.t.buckets[HashOf(id)]| && a.t.buckets[HashOf(id)][n] == c
  }

  ghost predicate ThreadOk(s: State, a: Abs, pc: Pc) {
    match pc
    case AllocLock(id, p, _) => p in s.heap && s.heap[p].id == id
    case AllocNext(id, p, _) => p in s.heap && s.heap[p].id == id
    case AllocHead(id, p, _) => p in s.heap && s.heap[p].id == id && s.heap[p].next == Head(s, id)
    case FindWalk(id, c, n) => Cursor(a, id, c, n) && forall j :: 0 <= j < n ==> !(a.t.buckets[HashOf(id)][j] in a.t.id && a.t.id[a.t.buckets[HashOf(id)][j]] == id)
    case FindFLock(id, p) => |a.t.buckets| == NHASH && Lookup(a.t, id) == Some(p)
    case FindInc(id, p) => |a.t.buckets| == NHASH && Lookup(a.t, id) == Some(p)
    case ReleDec(p, _) => p in s.heap && s.heap[p].count > 1
    case ReleDrop(p, _) => p in s.heap && s.heap[p].count == 1
    case ReleDec2(p, _) => p in s.heap && s.heap[p].count > 1
    case ReleHead(p, _) => p in s.heap && s.heap[p].count == 1
    case ReleWalk(p, _, c, n) => p in s.heap && s.heap[p].count == 1 && Cursor(a, s.heap[p].id, c, n) &&
                                 p !in a.t.buckets[HashOf(s.heap[p].id)][..n + 1]
    case _ => true
  }

  /** A locked object is in memory, and one about to be freed is not locked. */
  ghost predicate SafeOk(s: State) {
    && (forall p <- s.flock :: p in s.heap)
    && (forall u | 0 <= u < |s.thr| && s.thr[u].ReleFree? :: s.thr[u].p !in s.flock)
  }

  ghost predicate Inv(s: State, a: Abs) {
    && LocksOk(s) && SafeOk(s) && MemoryOk(s, a) && BucketsOk(s, a) && CountsOk(s) && OutOk(s, a) && UsesOk(s)
    && forall u :: 0 <= u < |s.thr| ==> ThreadOk(s, a, s.thr[u])
  }

  /** What a call looks like from outside. */
  function CallOf(pc: Pc): Call {
    match pc
    case Idle => Ready
    case Return(op, result) => Done(op, result)
    case AllocMalloc(id) => Pending(AllocOp(id))
    case AllocLock(id, _, _) => Pending(AllocOp(id))
    case AllocNext(id, _, _) => Pending(AllocOp(id))
    case AllocHead(id, _, _) => Pending(AllocOp(id))
    case AllocFLock(id, p, _) => Done(AllocOp(id), Some(p))
    case AllocHUnlock(id, p, _) => Done(AllocOp(id), Some(p))
    case AllocFUnlock(id, p, _) => Done(AllocOp(id), Some(p))
    case HoldLock(p, _) => Pending(HoldOp(p))
    case HoldInc(p, _) => Pending(HoldOp(p))
    case HoldUnlock(p, _) => Done(HoldOp(p), None)
    case FindLock(id) => Pending(FindOp(id))
    case FindHead(id) => Pending(FindOp(id))
    case FindWalk(id, _, _) => Pending(FindOp(id))
    case FindFLock(id, _) => Pending(FindOp(id))
    case FindInc(id, _) => Pending(FindOp(id))
    case FindFUnlock(id, p, _) => Done(FindOp(id), Some(p))
    case FindHUnlock(id, p, _) => Done(FindOp(id), Some(p))
    case FindMiss(id) => Done(FindOp(id), None)
    case ReleFUnlock(p) => Done(ReleOp(p), None)
    case ReleFUnlock2(p) => Done(ReleOp(p), None)
    case ReleHUnlock2(p) => Done(ReleOp(p), None)
    case ReleHUnlock3(p, _) => Done(ReleOp(p), None)
    case ReleFUnlock3(p, _) => Done(ReleOp(p), None)
    case ReleFree(p, _) => Done(ReleOp(p), None)
    case _ => Pending(ReleOp(pc.p))
  }

  ghost function Object(s: State, a: Abs): TableObject {
    TableObject(a.t, seq(|s.thr|, u requires 0 <= u < |s.thr| => CallOf(s.thr[u])))
  }
}
