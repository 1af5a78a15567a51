/**
 Many processes, one handle each, working on the same database. Every lock, unlock, read and write is a step of its
 own, and the steps of different processes interleave freely.
 */
module DbProcesses {
  import opened Common
  import opened IndexRecord
  import opened Links
  import DbBytes
  import opened DbStore
  import opened Database

  /** The byte ranges the program locks: first byte of a chain, first byte of the file, all past the hash table, the data file. */
  datatype Region = Chain(h: nat) | FreeList | IndexTail | DataFile

  datatype Mode = Reading | Writing

  datatype Lock = Lock(pid: nat, region: Region, mode: Mode)

  /** Where a process is in db_fetch(), db_delete() or db_store(): each place is named for the step it is about to take. */
  datatype Pc =
    | Idle | Begin | LockChain | ReadHead | ReadHdr | ReadBody
    | ReadData | OverData
    | ReadChainPtr | LockFree | ReadFree | FreeHdr | FreeBody | PopFree | UnlockFreeHit | UnlockFreeMiss
    | ReuseDat | ReuseIdx
    | LockDat | SeekDat | AppendDat | UnlockDat | LockIdx | SeekIdx | AppendIdx | UnlockIdx | LinkHead
    | LockFreeD | BlankDat | ReadFreeD | BlankIdx | SetFree | UnlinkRec | UnlockFreeD | RereadChainPtr
    | UnlockChain | Returning | Broken | Dead | Stray

  /**
   A process: its place, its call, and the handle's fields and local variables. `n` counts the records its current
   walk has passed; `regrow` says that a store has deleted the old record of its key. At Broken it has read a
   record it cannot take apart and is about to end with a message, and its locks with it; at Dead it has ended; at Stray
   it has ended too, and leaves a record that no pointer leads to.
   */
  datatype Proc = Proc(
    pc: Pc, op: Op, n: nat, ptroff: nat, off: nat, ptrval: nat, len: nat, rec: Body,
    chainptr: nat, freeptr: nat, datoff: nat, regrow: bool, result: Option<Result>)

  datatype State = State(files: Files, locks: set<Lock>, procs: seq<Proc>)

  function KeyOf(op: Op): CString {
    op.key
  }

  function ChainOf(z: Proc): nat {
    Hash(KeyOf(z.op))
  }

  function HeadOf(z: Proc): nat {
    HeadLoc(ChainOf(z))
  }

  function ModeOf(op: Op): Mode {
    if op.FetchOp? then Reading else Writing
  }

  /** What one step does outside the process. */
  datatype Access =
    | Nothing
    | Acquire(region: Region, mode: Mode)
    | Release(region: Region)
    | GetPtr(loc: nat)
    | GetHdr(loc: nat)
    | GetRec(loc: nat, len: nat)
    | GetDat(loc: nat)
    | EndOfDat
    | EndOfIdx
    | PutPtr(loc: nat, v: nat)
    | PutRec(loc: nat, v: nat, b: Body)
    | PutDat(loc: nat, t: CString)
    | Quit

  /** What a read brings back; Empty where the program would stop with a message. */
  datatype Reply = Empty | Num(n: nat) | Header(ptr: nat, len: nat) | Record(b: Body) | Text(t: CString)

  function NewRec(z: Proc): Body
    requires z.op.StoreOp?
  {
    Body(z.op.key, z.datoff, |z.op.data| + 1)
  }

  function AccessOf(z: Proc): Access {
    match z.pc
    case LockChain => Acquire(Chain(ChainOf(z)), ModeOf(z.op))
    case ReadHead | ReadChainPtr | RereadChainPtr => GetPtr(HeadOf(z))
    case ReadHdr | FreeHdr => GetHdr(z.off)
    case ReadBody | FreeBody => GetRec(z.off, z.len)
    case ReadData => GetDat(z.rec.datoff)
    case OverData => if z.op.StoreOp? then PutDat(z.rec.datoff, z.op.data) else Nothing
    case LockFree | LockFreeD => Acquire(FreeList, Writing)
    case ReadFree | ReadFreeD => GetPtr(FREE_OFF)
    case PopFree => PutPtr(z.ptroff, z.ptrval)
    case UnlockFreeHit | UnlockFreeMiss | UnlockFreeD => Release(FreeList)
    case ReuseDat => if z.op.StoreOp? then PutDat(z.rec.datoff, z.op.data) else Nothing
    case ReuseIdx => if z.op.StoreOp? then PutRec(z.off, z.chainptr, NewRec(z)) else Nothing
    case LockDat => Acquire(DataFile, Writing)
    case SeekDat => EndOfDat
    case AppendDat => if z.op.StoreOp? then PutDat(z.datoff, z.op.data) else Nothing
    case UnlockDat => Release(DataFile)
    case LockIdx =>
      if z.op.StoreOp? && !LengthOk(NewRec(z)) then Quit else Acquire(IndexTail, Writing)
    case SeekIdx => EndOfIdx
    case AppendIdx => if z.op.StoreOp? then PutRec(z.off, z.chainptr, NewRec(z)) else Nothing
    case UnlockIdx => Release(IndexTail)
    case LinkHead => if z.off > PTR_MAX then Quit else PutPtr(HeadOf(z), z.off)
    case BlankDat => if z.rec.datlen > 0 then PutDat(z.rec.datoff, BlankString(z.rec.datlen - 1)) else Nothing
    case BlankIdx => PutRec(z.off, z.freeptr, Blanked(z.rec))
    case SetFree => PutPtr(FREE_OFF, z.off)
    case UnlinkRec => PutPtr(z.ptroff, z.ptrval)
    case UnlockChain | Broken => Release(Chain(ChainOf(z)))
    case Idle | Begin | Returning | Dead | Stray => Nothing
  }

  predicate FlagOk(flag: int) {
    flag == DB_INSERT || flag == DB_REPLACE || flag == DB_STORE
  }

  /** Where a call goes when its key is not on the chain ... */
  function AfterMiss(op: Op): Pc {
    if op.StoreOp? && op.flag != DB_REPLACE then ReadChainPtr else UnlockChain
  }

  /** ... and when it is, in a record with this data length. */
  function AfterHit(op: Op, datlen: nat): Pc {
    match op
    case FetchOp(_) => ReadData
    case DeleteOp(_) => LockFreeD
    case StoreOp(_, data, flag) =>
      if flag == DB_INSERT then UnlockChain else if |data| + 1 != datlen then LockFreeD else OverData
  }

  predicate Fits(op: Op, b: Body) {
    op.StoreOp? && |b.key| == |op.key| && b.datlen == |op.data| + 1
  }

  /** Where the process goes after its step, given what the step read. */
  function NextPc(z: Proc, r: Reply): Pc {
    match z.pc
    case Idle => Begin
    case Begin =>
      if z.op.StoreOp? && !FlagOk(z.op.flag) then Returning
      else if z.op.StoreOp? && !DataLengthOk(|z.op.data| + 1) then Dead
      else LockChain
    case LockChain => ReadHead
    case ReadHead => if r.Num? && r.n != 0 then ReadHdr else AfterMiss(z.op)
    case ReadHdr => ReadBody
    case ReadBody =>
      if r.Empty? then Broken
      else if r.Record? && r.b.key == KeyOf(z.op) then AfterHit(z.op, r.b.datlen)
      else if z.ptrval == 0 then AfterMiss(z.op)
      else ReadHdr
    case ReadData => UnlockChain
    case OverData => UnlockChain
    case ReadChainPtr => LockFree
    case LockFree => ReadFree
    case ReadFree => if r.Num? && r.n != 0 then FreeHdr else UnlockFreeMiss
    case FreeHdr => FreeBody
    case FreeBody =>
      if r.Record? && Fits(z.op, r.b) then PopFree else if z.ptrval == 0 then UnlockFreeMiss else FreeHdr
    case PopFree => UnlockFreeHit
    case UnlockFreeHit => ReuseDat
    case UnlockFreeMiss => LockDat
    case ReuseDat => ReuseIdx
    case ReuseIdx => LinkHead
    case LockDat => SeekDat
    case SeekDat => AppendDat
    case AppendDat => UnlockDat
    case UnlockDat => LockIdx
    case LockIdx => SeekIdx
    case SeekIdx => AppendIdx
    case AppendIdx => UnlockIdx
    case UnlockIdx => LinkHead
    case LinkHead => UnlockChain
    case LockFreeD => BlankDat
    case BlankDat => ReadFreeD
    case ReadFreeD => BlankIdx
    case BlankIdx => SetFree
    case SetFree => UnlinkRec
    case UnlinkRec => UnlockFreeD
    case UnlockFreeD => if z.op.StoreOp? then RereadChainPtr else UnlockChain
    case RereadChainPtr => LockDat
    case UnlockChain => Returning
    case Returning => Idle
    case Broken => Dead
    case Dead => Dead
    case Stray => Stray
  }

  function NotFound(op: Op): Result {
    if op.FetchOp? then Result.Data(None) else Code(-1)
  }

  /** What the call will return, once that is settled. */
  function Settled(z: Proc, r: Reply): Option<Result> {
    match z.pc
    case Idle => None
    case Begin => if z.op.StoreOp? && !FlagOk(z.op.flag) then Some(Code(-1)) else None
    case ReadHead => if NextPc(z, r) == UnlockChain then Some(NotFound(z.op)) else None
    case ReadBody =>
      if NextPc(z, r) != UnlockChain then None
      else if r.Record? && r.b.key == KeyOf(z.op) then Some(Code(1))
      else Some(NotFound(z.op))
    case ReadData => Some(Result.Data(if r.Text? then Some(r.t) else None))
    case OverData | LinkHead => Some(Code(0))
    case BlankDat => if z.op.StoreOp? then None else Some(Code(0))
    case _ => z.result
  }

  /** The fields and variables after the step. */
  function Noted(z: Proc, r: Reply): Proc {
    match (z.pc, r)
    case (ReadHead, Num(n)) => z.(ptroff := HeadOf(z), off := n, n := 0)
    case (ReadFree, Num(n)) => z.(ptroff := FREE_OFF, off := n, n := 0)
    case (ReadHdr, Header(n, len)) => z.(ptrval := n, len := len)
    case (FreeHdr, Header(n, len)) => z.(ptrval := n, len := len)
    case (ReadBody, Record(b)) =>
      if NextPc(z, r) == ReadHdr then z.(rec := b, ptroff := z.off, off := z.ptrval, n := z.n + 1) else z.(rec := b)
    case (FreeBody, Record(b)) =>
      if NextPc(z, r) == FreeHdr then z.(rec := b, ptroff := z.off, off := z.ptrval, n := z.n + 1)
      else z.(rec := b, datoff := b.datoff)
    case (ReadChainPtr, Num(n)) => z.(chainptr := n)
    case (RereadChainPtr, Num(n)) => z.(chainptr := n)
    case (SeekDat, Num(n)) => z.(datoff := n)
    case (SeekIdx, Num(n)) => z.(off := n)
    case (ReadFreeD, Num(n)) => z.(freeptr := n)
    case _ => z
  }

  /** The process after its step; an idle one starts the call `op`. */
  function Resume(z: Proc, r: Reply, op: Op): Proc {
    Noted(z, r).(
      pc := NextPc(z, r),
      op := if z.pc.Idle? then op else z.op,
      regrow := if z.pc.Idle? then false else if z.pc.BlankDat? && z.op.StoreOp? then true else z.regrow,
      result := Settled(z, r))
  }

  /** What a read of the files brings back. */
  function ReplyTo(f: Files, a: Access): Reply {
    match a
    case GetPtr(l) => if l in f.ptr then Num(f.ptr[l]) else Empty
    case GetHdr(o) => if o in f.ptr && o in f.body then Header(f.ptr[o], IdxLen(f.body[o])) else Empty
    case GetRec(o, len) => if o in f.body && len == IdxLen(f.body[o]) && KeyOk(f.body[o].key) then Record(f.body[o]) else Empty
    case GetDat(d) => if d in f.dat then Text(f.dat[d]) else Empty
    case EndOfDat => Num(f.dend)
    case EndOfIdx => Num(f.iend)
    case _ => Empty
  }

  function Written(f: Files, a: Access): Files {
    match a
    case PutPtr(l, v) => SetPtr(f, l, v)
    case PutRec(o, v, b) => SetRec(f, o, v, b)
    case PutDat(d, t) => SetDat(f, d, t)
    case _ => f
  }

  function Locked(locks: set<Lock>, p: nat, a: Access): set<Lock> {
    match a
    case Acquire(r, m) => locks + {Lock(p, r, m)}
    case Release(r) => locks - {Lock(p, r, Reading), Lock(p, r, Writing)}
    case _ => locks
  }

  /** fcntl(F_SETLKW): a lock is granted when no other process holds a conflicting one on the region. */
  predicate Grantable(locks: set<Lock>, p: nat, r: Region, m: Mode) {
    forall l <- locks :: l.pid != p && l.region == r ==> l.mode == Reading && m == Reading
  }

  predicate Enabled(s: State, p: nat)
    requires p < |s.procs|
  {
    var a := AccessOf(s.procs[p]);
    !Ended(s.procs[p].pc) && (a.Acquire? ==> Grantable(s.locks, p, a.region, a.mode))
  }

  predicate Ended(pc: Pc) {
    pc.Dead? || pc.Stray?
  }

  /** The process ends with a message: a limit stops it between its writes. */
  function Quits(z: Proc): Proc {
    z.(pc := if z.pc.LinkHead? then Stray else Dead)
  }

  /** Its locks go with it. */
  function Unlocked(locks: set<Lock>, p: nat): set<Lock> {
    set l | l in locks && l.pid != p
  }

  /** One step of process p; `op` is the call an idle process starts. */
  function Next(s: State, p: nat, op: Op): State
    requires p < |s.procs|
  {
    var z := s.procs[p];
    var a := AccessOf(z);
    if a.Quit? then State(s.files, Unlocked(s.locks, p), s.procs[p := Quits(z)])
    else State(Written(s.files, a), Locked(s.locks, p, a), s.procs[p := Resume(z, ReplyTo(s.files, a), op)])
  }

  ghost predicate Initial(s: State) {
    s.files == DbBytes.EmptyFiles() && s.locks == {} && forall z <- s.procs :: z.pc == Idle
  }

  /** The first and last byte of each locked range of its file (an open end is left out). */
  function FirstByte(r: Region): nat {
    match r
    case Chain(h) => HeadLoc(h)
    case FreeList => FREE_OFF
    case IndexTail => BASE
    case DataFile => 0
  }

  /** Different regions of the index file share no byte, so treating them as separate locks is exact. */
  lemma RegionsDisjoint(r: Region, q: Region)
    requires r != q && !r.DataFile? && !q.DataFile?
    requires r.Chain? ==> r.h < NHASH
    requires q.Chain? ==> q.h < NHASH
    ensures FirstByte(r) != FirstByte(q)
    ensures !r.IndexTail? ==> FirstByte(r) < BASE
  {
  }

  // ---- the atomic object the processes implement ----

  /** A call that fails has ended its process; `deleted` says that it was a store that had deleted the old record of its key. */
  datatype Call = Ready | Pending(op: Op) | Done(op: Op, result: Result) | Failed(op: Op, deleted: bool)

  datatype MapObject = MapObject(m: map<CString, CString>, calls: seq<Call>)

  /** A call starts, takes effect on the map in one step, and returns; or fails with no effect but perhaps that of a deletion. */
  ghost predicate CallStep(c: Call, m: map<CString, CString>, c': Call, m': map<CString, CString>) {
    match (c, c')
    case (Ready, Pending(_)) => m' == m
    case (Pending(op), Done(op', r)) => op' == op && (r, m') == ApplySpec(m, op)
    case (Done(_, _), Ready) => m' == m
    case (Pending(op), Failed(op', deleted)) =>
      op' == op && if deleted then op.StoreOp? && op.key in m && m' == m - {op.key} else m' == m
    case _ => c' == c && m' == m
  }

  /** One process's call moves; no other call does. */
  ghost predicate ObjectStep(u: MapObject, u': MapObject, p: nat) {
    && p < |u.calls| && |u'.calls| == |u.calls|
    && (forall q | 0 <= q < |u.calls| && q != p :: u'.calls[q] == u.calls[q])
    && CallStep(u.calls[p], u.m, u'.calls[p], u'.m)
  }
}
