/**
 The counted semaphore: any number of processes calling sem_create(), sem_open(), sem_op() and sem_close() on one key,
 each system call a step, and any process exiting between any two steps.
 */
module SemSet {
  import opened Common

  /** What member [1] starts at. */
  const BIGCOUNT := 10000
  /** The largest value a member can have. */
  const SEMVMX := 32767

  // ---- semop(): all operations of an array, or none ----

  /** One operation on one member of the set; every one that changes a value carries SEM_UNDO. */
  datatype SemBuf = SemBuf(num: nat, amount: int)

  function OpLock(): seq<SemBuf> { [SemBuf(2, 0), SemBuf(2, 1)] }
  function OpEndCreate(): seq<SemBuf> { [SemBuf(1, -1), SemBuf(2, -1)] }
  function OpOpen(): seq<SemBuf> { [SemBuf(1, -1)] }
  function OpClose(): seq<SemBuf> { [SemBuf(2, 0), SemBuf(2, 1), SemBuf(1, 1)] }
  function OpUnlock(): seq<SemBuf> { [SemBuf(2, -1)] }
  function OpOp(value: int): seq<SemBuf> { [SemBuf(0, value)] }

  /** The members' values and one process's adjustments for them. */
  datatype Values = Values(val: seq<int>, adj: seq<int>)

  /** What the operations make of the values, or None when one of them cannot be done now. */
  function SemOp(v: Values, ops: seq<SemBuf>): Option<Values>
    decreases |ops|
  {
    if ops == [] then Some(v)
    else
      var i, x := ops[0].num, ops[0].amount;
      if i >= |v.val| || i >= |v.adj| then None
      else if x == 0 then if v.val[i] == 0 then SemOp(v, ops[1..]) else None
      else if v.val[i] + x < 0 || v.val[i] + x > SEMVMX then None
      else SemOp(Values(v.val[i := v.val[i] + x], v.adj[i := v.adj[i] - x]), ops[1..])
  }

  /** What one operation after another amounts to. */
  function Sum(ops: seq<SemBuf>, i: nat): int {
    if ops == [] then 0 else (if ops[0].num == i then ops[0].amount else 0) + Sum(ops[1..], i)
  }

  /** An array of operations that is done adds up to its amounts, takes them back from the adjustments, and nothing else. */
  lemma {:induction false} SemOpAdds(v: Values, ops: seq<SemBuf>)
    ensures
      match SemOp(v, ops)
      case None => true
      case Some(w) =>
        && |w.val| == |v.val| && |w.adj| == |v.adj|
        && forall i | 0 <= i < |v.val| && i < |v.adj| ::
              && w.val[i] == v.val[i] + Sum(ops, i) && w.adj[i] == v.adj[i] - Sum(ops, i)
              && (0 <= v.val[i] <= SEMVMX ==> 0 <= w.val[i] <= SEMVMX)
    decreases |ops|
  {
    if ops != [] && SemOp(v, ops).Some? {
      var j, x := ops[0].num, ops[0].amount;
      var u := if x == 0 then v else Values(v.val[j := v.val[j] + x], v.adj[j := v.adj[j] - x]);
      SemOpAdds(u, ops[1..]);
    }
  }

  // ---- processes ----

  /** Where a process is; one handle each. */
  datatype Pc =
    | Idle
    | CreateGet(initval: int) | CreateLock(id: nat, initval: int) | CreateGetVal(id: nat, initval: int)
    | CreateSet0(id: nat, initval: int) | CreateSet1(id: nat) | CreateEnd(id: nat)
    | OpenGet | OpenOp(id: nat)
    | Using(id: nat)
    | CloseLock(id: nat) | CloseGetVal(id: nat) | CloseRemove(id: nat) | CloseUnlock(id: nat)

  /** A process and what the system would add to each member if it exited. */
  datatype Proc = Proc(pc: Pc, adj: seq<int>)

  /** The set of the key; `ready` is for the proof: whether somebody has initialised member [1]. */
  datatype Set = Set(id: nat, val: seq<int>, ready: bool)

  /** The set of the key, if there is one; the next identifier; the processes. */
  datatype State = State(cur: Option<Set>, next: nat, procs: seq<Proc>)

  /** What is left open in a step: whether the process exits, which call it makes, and with which number. */
  datatype Choice = Choice(exits: bool, opens: bool, n: int)

  predicate Live(s: State, id: nat) {
    s.cur.Some? && s.cur.value.id == id
  }

  function Val(s: State, i: nat): int {
    if s.cur.Some? && i < |s.cur.value.val| then s.cur.value.val[i] else 0
  }

  function Goto(s: State, p: nat, pc: Pc): State
    requires p < |s.procs|
  {
    s.(procs := s.procs[p := s.procs[p].(pc := pc)])
  }

  function Undone(val: int, adj: int): int {
    if val + adj < 0 then 0 else if val + adj > SEMVMX then SEMVMX else val + adj
  }

  /** A process exits: its adjustments are added. Its place can be taken by a new process. */
  function Exit(s: State, p: nat): State
    requires p < |s.procs|
  {
    var adj := s.procs[p].adj;
    State(match s.cur
          case None => None
          case Some(set') => Some(set'.(val := seq(|set'.val|, i requires 0 <= i < |set'.val| =>
                                          if i < |adj| then Undone(set'.val[i], adj[i]) else set'.val[i]))),
          s.next, s.procs[p := Proc(Idle, [0, 0, 0])])
  }

  function Try(s: State, p: nat, ops: seq<SemBuf>): Option<Values>
    requires p < |s.procs|
  {
    if s.cur.Some? then SemOp(Values(s.cur.value.val, s.procs[p].adj), ops) else None
  }

  /** semop(): an error when the set is gone, nothing while it has to wait. */
  function Apply(s: State, p: nat, id: nat, ops: seq<SemBuf>, pc: Pc): State
    requires p < |s.procs|
  {
    if !Live(s, id) then Exit(s, p)
    else match Try(s, p, ops)
      case None => s
      case Some(v) => State(Some(s.cur.value.(val := v.val)), s.next, s.procs[p := Proc(pc, v.adj)])
  }

  /** semctl(SETVAL): sets a member and clears every process's adjustment for it. */
  function SetVal(s: State, i: nat, x: int): State {
    if s.cur.None? || i >= |s.cur.value.val| then s
    else State(Some(s.cur.value.(val := s.cur.value.val[i := x], ready := s.cur.value.ready || i == 1)), s.next,
               seq(|s.procs|, q requires 0 <= q < |s.procs| =>
                 if i < |s.procs[q].adj| then s.procs[q].(adj := s.procs[q].adj[i := 0]) else s.procs[q]))
  }

  /** semctl(IPC_RMID): the set is gone and so are all adjustments for it. */
  function Remove(s: State): State {
    State(None, s.next, seq(|s.procs|, q requires 0 <= q < |s.procs| => s.procs[q].(adj := [0, 0, 0])))
  }

  /** The operations a process is about to do, if its step is a semop(). */
  function Ops(pc: Pc, n: int): Option<seq<SemBuf>> {
    match pc
    case CreateLock(_, _) => Some(OpLock())
    case CreateEnd(_) => Some(OpEndCreate())
    case OpenOp(_) => Some(OpOpen())
    case Using(_) => if n != 0 then Some(OpOp(n)) else None
    case CloseLock(_) => Some(OpClose())
    case CloseUnlock(_) => Some(OpUnlock())
    case _ => None
  }

  /** A process cannot step only while its semop() has to wait; it can always exit. */
  predicate Enabled(s: State, p: nat, ch: Choice)
    requires p < |s.procs|
  {
    var pc := s.procs[p].pc;
    ch.exits || (Ops(pc, ch.n).Some? && Live(s, pc.id) ==> Try(s, p, Ops(pc, ch.n).value).Some?)
  }

  /** One step of process p. */
  function Next(s: State, p: nat, ch: Choice): State
    requires p < |s.procs|
  {
    if ch.exits then Exit(s, p)
    else match s.procs[p].pc
      case Idle => Goto(s, p, if ch.opens then OpenGet else CreateGet(ch.n))
      case CreateGet(v) =>
        if s.cur.Some? then Goto(s, p, CreateLock(s.cur.value.id, v))
        else Goto(State(Some(Set(s.next, [0, 0, 0], false)), s.next + 1, s.procs), p, CreateLock(s.next, v))
      case CreateLock(id, v) =>
        if !Live(s, id) then Goto(s, p, CreateGet(v)) else Apply(s, p, id, OpLock(), CreateGetVal(id, v))
      case CreateGetVal(id, v) =>
        if !Live(s, id) then Exit(s, p) else Goto(s, p, if Val(s, 1) == 0 then CreateSet0(id, v) else CreateEnd(id))
      case CreateSet0(id, v) =>
        if !Live(s, id) || v < 0 || v > SEMVMX then Exit(s, p) else Goto(SetVal(s, 0, v), p, CreateSet1(id))
      case CreateSet1(id) =>
        if !Live(s, id) then Exit(s, p) else Goto(SetVal(s, 1, BIGCOUNT), p, CreateEnd(id))
      case CreateEnd(id) => Apply(s, p, id, OpEndCreate(), Using(id))
      case OpenGet => Goto(s, p, if s.cur.Some? then OpenOp(s.cur.value.id) else Idle)
      case OpenOp(id) => Apply(s, p, id, OpOpen(), Using(id))
      case Using(id) => if ch.n != 0 then Apply(s, p, id, OpOp(ch.n), Using(id)) else Goto(s, p, CloseLock(id))
      case CloseLock(id) => Apply(s, p, id, OpClose(), CloseGetVal(id))
      case CloseGetVal(id) =>
        if !Live(s, id) || Val(s, 1) > BIGCOUNT then Exit(s, p)
        else Goto(s, p, if Val(s, 1) == BIGCOUNT then CloseRemove(id) else CloseUnlock(id))
      case CloseRemove(id) => if !Live(s, id) then Exit(s, p) else Goto(Remove(s), p, Idle)
      case CloseUnlock(id) => Apply(s, p, id, OpUnlock(), Idle)
  }

  ghost predicate Initial(s: State) {
    s.cur.None? && forall q :: 0 <= q < |s.procs| ==> s.procs[q] == Proc(Idle, [0, 0, 0])
  }

  /** sem_open() has taken its share after a closer saw that there was no holder and before it removes the set. */
  predicate Slips(s: State, p: nat, ch: Choice)
    requires p < |s.procs|
  {
    !ch.exits && s.procs[p].pc.OpenOp? && Live(s, s.procs[p].pc.id)
    && exists q :: 0 <= q < |s.procs| && s.procs[q].pc.CloseRemove? && s.procs[q].pc.id == s.procs[p].pc.id
  }
}
