/**
 Any number of threads calling foo_alloc(), foo_hold(), foo_find() and foo_rele() of the version with two levels of
 locks: one for the hash table and its links, one in each object for its count. Each lock, unlock, read and write of
 shared memory is a step.
 */
module FooThreads {
  import opened Common
  import opened FooSpec

  /** An object in memory; addresses are numbers and 0 is NULL. */
  datatype Obj = Obj(count: nat, id: int, next: nat)

  datatype Op = AllocOp(id: int) | HoldOp(p: nat) | FindOp(id: int) | ReleOp(p: nat)

  /**
   Where a thread is. `p` is the object of the call and `r` the reference the caller brings, or is about to get;
   `c` is the cursor of a walk and `n` how many objects it has passed.
   */
  datatype Pc =
    | Idle
    | AllocMalloc(id: int) | AllocLock(id: int, p: nat, r: nat) | AllocNext(id: int, p: nat, r: nat)
    | AllocHead(id: int, p: nat, r: nat) | AllocFLock(id: int, p: nat, r: nat)
    | AllocHUnlock(id: int, p: nat, r: nat) | AllocFUnlock(id: int, p: nat, r: nat)
    | HoldLock(p: nat, r: nat) | HoldInc(p: nat, r: nat) | HoldUnlock(p: nat, r: nat)
    | FindLock(id: int) | FindHead(id: int) | FindWalk(id: int, c: nat, n: nat) | FindFLock(id: int, p: nat)
    | FindInc(id: int, p: nat) | FindFUnlock(id: int, p: nat, r: nat) | FindHUnlock(id: int, p: nat, r: nat) | FindMiss(id: int)
    | ReleLock(p: nat, r: nat) | ReleCheck(p: nat, r: nat) | ReleDec(p: nat, r: nat) | ReleFUnlock(p: nat)
    | ReleDrop(p: nat, r: nat) | ReleHLock(p: nat, r: nat) | ReleRelock(p: nat, r: nat) | ReleRecheck(p: nat, r: nat)
    | ReleDec2(p: nat, r: nat) | ReleFUnlock2(p: nat) | ReleHUnlock2(p: nat)
    | ReleHead(p: nat, r: nat) | ReleWalk(p: nat, r: nat, c: nat, n: nat)
    | ReleHUnlock3(p: nat, r: nat) | ReleFUnlock3(p: nat, r: nat) | ReleFree(p: nat, r: nat)
    | Return(op: Op, result: Option<nat>)

  /**
   Memory, the heads of the buckets, who holds hashlock, who holds each f_lock, the threads; and the references callers
   have: `refs[r]` is the object reference r is to.
   */
  datatype State = State(heap: map<nat, Obj>, fh: seq<nat>, hash: Option<nat>, flock: map<nat, nat>, thr: seq<Pc>, refs: map<nat, nat>)

  /** What is left open in a step: the call an idle thread makes, the address malloc() gives (0 for none), names for references. */
  datatype Choice = Choice(op: Op, r: nat, p: nat)

  /** The reference a thread is using. */
  function Uses(pc: Pc): Option<nat> {
    if pc.AllocLock? || pc.AllocNext? || pc.AllocHead? || pc.AllocFLock? || pc.AllocHUnlock? || pc.AllocFUnlock?
       || pc.HoldLock? || pc.HoldInc? || pc.HoldUnlock? || pc.FindFUnlock? || pc.FindHUnlock?
       || pc.ReleLock? || pc.ReleCheck? || pc.ReleDec? || pc.ReleDrop? || pc.ReleHLock? || pc.ReleRelock? || pc.ReleRecheck?
       || pc.ReleDec2? || pc.ReleHead? || pc.ReleWalk? || pc.ReleHUnlock3? || pc.ReleFUnlock3? || pc.ReleFree?
    then Some(pc.r) else None
  }

  predicate InHold(pc: Pc) {
    pc.HoldLock? || pc.HoldInc? || pc.HoldUnlock?
  }

  /**
   What a caller owes: foo_hold() and foo_rele() are called on an object the caller has a reference to; nobody else is
   giving that reference up meanwhile, and the one given up by foo_rele() nobody else is using.
   */
  predicate MayCall(s: State, t: nat, ch: Choice) {
    match ch.op
    case HoldOp(p) => ch.r in s.refs && s.refs[ch.r] == p
                      && forall u | 0 <= u < |s.thr| && Uses(s.thr[u]) == Some(ch.r) :: InHold(s.thr[u])
    case ReleOp(p) => ch.r in s.refs && s.refs[ch.r] == p && forall u | 0 <= u < |s.thr| :: Uses(s.thr[u]) != Some(ch.r)
    case _ => true
  }

  predicate FreeF(s: State, p: nat) {
    p !in s.flock
  }

  /** Whether thread t can take its step. */
  predicate Enabled(s: State, t: nat, ch: Choice)
    requires t < |s.thr|
  {
    match s.thr[t]
    case Idle => MayCall(s, t, ch)
    case AllocMalloc(_) => ch.p == 0 || (ch.p !in s.heap && ch.r !in s.refs)
    case AllocLock(_, _, _) => s.hash.None?
    case FindLock(_) => s.hash.None?
    case ReleHLock(_, _) => s.hash.None?
    case AllocFLock(_, p, _) => FreeF(s, p)
    case HoldLock(p, _) => FreeF(s, p)
    case FindFLock(_, p) => FreeF(s, p)
    case ReleLock(p, _) => FreeF(s, p)
    case ReleRelock(p, _) => FreeF(s, p)
    case HoldInc(_, _) => ch.r !in s.refs
    case FindInc(_, _) => ch.r !in s.refs
    case _ => true
  }

  /** The memory a step reads or writes through a pointer, 0 when there is none. */
  function Touches(pc: Pc): nat {
    match pc
    case AllocNext(_, p, _) => p
    case AllocFLock(_, p, _) => p
    case AllocFUnlock(_, p, _) => p
    case HoldLock(p, _) => p
    case HoldInc(p, _) => p
    case HoldUnlock(p, _) => p
    case FindWalk(_, c, _) => c
    case FindFLock(_, p) => p
    case FindInc(_, p) => p
    case FindFUnlock(_, p, _) => p
    case ReleLock(p, _) => p
    case ReleCheck(p, _) => p
    case ReleDec(p, _) => p
    case ReleFUnlock(p) => p
    case ReleDrop(p, _) => p
    case ReleRelock(p, _) => p
    case ReleRecheck(p, _) => p
    case ReleDec2(p, _) => p
    case ReleFUnlock2(p) => p
    case ReleHead(p, _) => p
    case ReleWalk(_, _, c, _) => c
    case ReleFUnlock3(p, _) => p
    case ReleFree(p, _) => p
    case _ => 0
  }

  function At(s: State, p: nat): Obj {
    if p in s.heap then s.heap[p] else Obj(0, 0, 0)
  }

  function Head(s: State, id: int): nat {
    if HashOf(id) < |s.fh| then s.fh[HashOf(id)] else 0
  }

  function SetHead(s: State, id: int, p: nat): seq<nat> {
    if HashOf(id) < |s.fh| then s.fh[HashOf(id) := p] else s.fh
  }

  function Less(count: nat): nat {
    if count > 0 then count - 1 else 0
  }

  function Start(op: Op, r: nat): Pc {
    match op
    case AllocOp(id) => AllocMalloc(id)
    case HoldOp(p) => HoldLock(p, r)
    case FindOp(id) => FindLock(id)
    case ReleOp(p) => ReleLock(p, r)
  }

  /** Where the thread goes. */
  function NextPc(s: State, pc: Pc, ch: Choice): Pc {
    match pc
    case Idle => Start(ch.op, ch.r)
    case AllocMalloc(id) => if ch.p == 0 then Return(AllocOp(id), None) else AllocLock(id, ch.p, ch.r)
    case AllocLock(id, p, r) => AllocNext(id, p, r)
    case AllocNext(id, p, r) => AllocHead(id, p, r)
    case AllocHead(id, p, r) => AllocFLock(id, p, r)
    case AllocFLock(id, p, r) => AllocHUnlock(id, p, r)
    case AllocHUnlock(id, p, r) => AllocFUnlock(id, p, r)
    case AllocFUnlock(id, p, _) => Return(AllocOp(id), Some(p))
    case HoldLock(p, r) => HoldInc(p, r)
    case HoldInc(p, r) => HoldUnlock(p, r)
    case HoldUnlock(p, _) => Return(HoldOp(p), None)
    case FindLock(id) => FindHead(id)
    case FindHead(id) => if Head(s, id) == 0 then FindMiss(id) else FindWalk(id, Head(s, id), 0)
    case FindWalk(id, c, n) =>
      if At(s, c).id == id then FindFLock(id, c)
      else if At(s, c).next == 0 then FindMiss(id)
      else FindWalk(id, At(s, c).next, n + 1)
    case FindFLock(id, p) => FindInc(id, p)
    case FindInc(id, p) => FindFUnlock(id, p, ch.r)
    case FindFUnlock(id, p, r) => FindHUnlock(id, p, r)
    case FindHUnlock(id, p, _) => Return(FindOp(id), Some(p))
    case FindMiss(id) => Return(FindOp(id), None)
    case ReleLock(p, r) => ReleCheck(p, r)
    case ReleCheck(p, r) => if At(s, p).count == 1 then ReleDrop(p, r) else ReleDec(p, r)
    case ReleDec(p, r) => ReleFUnlock(p)
    case ReleFUnlock(p) => Return(ReleOp(p), None)
    case ReleDrop(p, r) => ReleHLock(p, r)
    case ReleHLock(p, r) => ReleRelock(p, r)
    case ReleRelock(p, r) => ReleRecheck(p, r)
    case ReleRecheck(p, r) => if At(s, p).count != 1 then ReleDec2(p, r) else ReleHead(p, r)
    case ReleDec2(p, r) => ReleFUnlock2(p)
    case ReleFUnlock2(p) => ReleHUnlock2(p)
    case ReleHUnlock2(p) => Return(ReleOp(p), None)
    case ReleHead(p, r) => if Head(s, At(s, p).id) == p then ReleHUnlock3(p, r) else ReleWalk(p, r, Head(s, At(s, p).id), 0)
    case ReleWalk(p, r, c, n) => if At(s, c).next == p then ReleHUnlock3(p, r) else ReleWalk(p, r, At(s, c).next, n + 1)
    case ReleHUnlock3(p, r) => ReleFUnlock3(p, r)
    case ReleFUnlock3(p, r) => ReleFree(p, r)
    case ReleFree(p, _) => Return(ReleOp(p), None)
    case Return(_, _) => Idle
  }

  /** hashlock after the step. */
  function HashAfter(hash: Option<nat>, pc: Pc, t: nat): Option<nat> {
    if pc.AllocLock? || pc.FindLock? || pc.ReleHLock? then Some(t)
    else if pc.AllocHUnlock? || pc.FindHUnlock? || pc.FindMiss? || pc.ReleHUnlock2? || pc.ReleHUnlock3? then None
    else hash
  }

  /** The objects' locks after the step. */
  function FlockAfter(flock: map<nat, nat>, pc: Pc, t: nat): map<nat, nat> {
    if pc.AllocFLock? || pc.HoldLock? || pc.FindFLock? || pc.ReleLock? || pc.ReleRelock? then flock[pc.p := t]
    else if pc.AllocFUnlock? || pc.HoldUnlock? || pc.FindFUnlock? || pc.ReleFUnlock? || pc.ReleDrop? || pc.ReleFUnlock2? || pc.ReleFUnlock3?
    then flock - {pc.p}
    else flock
  }

  /** Memory after the step. */
  function HeapAfter(s: State, pc: Pc, ch: Choice): map<nat, Obj> {
    match pc
    case AllocMalloc(id) => if ch.p == 0 then s.heap else s.heap[ch.p := Obj(1, id, 0)]
    case AllocNext(id, p, _) => s.heap[p := At(s, p).(next := Head(s, id))]
    case HoldInc(p, _) => s.heap[p := At(s, p).(count := At(s, p).count + 1)]
    case FindInc(_, p) => s.heap[p := At(s, p).(count := At(s, p).count + 1)]
    case ReleDec(p, _) => s.heap[p := At(s, p).(count := Less(At(s, p).count))]
    case ReleDec2(p, _) => s.heap[p := At(s, p).(count := Less(At(s, p).count))]
    case ReleWalk(p, _, c, _) => if At(s, c).next == p then s.heap[c := At(s, c).(next := At(s, p).next)] else s.heap
    case ReleFree(p, _) => s.heap - {p}
    case _ => s.heap
  }

  /** The heads of the buckets after the step. */
  function HeadsAfter(s: State, pc: Pc): seq<nat> {
    match pc
    case AllocHead(id, p, _) => SetHead(s, id, p)
    case ReleHead(p, _) => if Head(s, At(s, p).id) == p then SetHead(s, At(s, p).id, At(s, p).next) else s.fh
    case _ => s.fh
  }

  /** The callers' references after the step. */
  function RefsAfter(s: State, pc: Pc, ch: Choice): map<nat, nat> {
    match pc
    case AllocMalloc(_) => if ch.p == 0 then s.refs else s.refs[ch.r := ch.p]
    case HoldInc(p, _) => s.refs[ch.r := p]
    case FindInc(_, p) => s.refs[ch.r := p]
    case ReleDec(_, r) => s.refs - {r}
    case ReleDec2(_, r) => s.refs - {r}
    case ReleFree(_, r) => s.refs - {r}
    case _ => s.refs
  }

  /** One step of thread t. */
  function Next(s: State, t: nat, ch: Choice): State
    requires t < |s.thr|
  {
    var pc := s.thr[t];
    State(HeapAfter(s, pc, ch), HeadsAfter(s, pc), HashAfter(s.hash, pc, t), FlockAfter(s.flock, pc, t),
          s.thr[t := NextPc(s, pc, ch)], RefsAfter(s, pc, ch))
  }

  ghost predicate Step(s: State, s': State, t: nat, ch: Choice) {
    t < |s.thr| && Enabled(s, t, ch) && s' == Next(s, t, ch)
  }

  ghost predicate Initial(s: State) {
    s.heap == map[] && s.fh == seq(NHASH, _ => 0) && s.hash.None? && s.flock == map[] && s.refs == map[]
    && forall pc <- s.thr :: pc.Idle?
  }

  // ---- the one-lock table as an atomic object ----

  datatype Call = Ready | Pending(op: Op) | Done(op: Op, result: Option<nat>)

  datatype TableObject = TableObject(t: Table<nat>, calls: seq<Call>)

  /** One operation of the table under its one lock: what it returns and what it leaves. */
  ghost predicate Effect(t: Table<nat>, op: Op, r: Option<nat>, t': Table<nat>) {
    && |t.buckets| == NHASH
    && match op
       case AllocOp(id) => (r.None? && t' == t) || (r.Some? && r.value != 0 && r.value !in t.count && t' == Insert(t, r.value, id))
       case HoldOp(p) => p in t.count && r.None? && t' == AddRef(t, p)
       case FindOp(id) => r == Lookup(t, id) && (if r.Some? then r.value in t.count && t' == AddRef(t, r.value) else t' == t)
       case ReleOp(p) => p in t.count && p in t.id && r.None? && t' == Drop(t, p)
  }

  ghost predicate CallStep(c: Call, t: Table<nat>, c': Call, t': Table<nat>) {
    match (c, c')
    case (Ready, Pending(_)) => t' == t
    case (Pending(op), Done(op', r)) => op' == op && Effect(t, op, r, t')
    case (Done(_, _), Ready) => t' == t
    case _ => c' == c && t' == t
  }

  ghost predicate ObjectStep(u: TableObject, u': TableObject, t: nat) {
    && t < |u.calls| == |u'.calls|
    && (forall q | 0 <= q < |u.calls| && q != t :: u'.calls[q] == u.calls[q])
    && CallStep(u.calls[t], u.t, u'.calls[t], u'.t)
  }
}
