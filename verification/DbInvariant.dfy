/** What every reachable state of the database processes satisfies. */
module DbInvariant {
  import opened Common
  import opened IndexRecord
  import opened Links
  import opened DbStore
  import opened Database
  import opened DbProcesses

  /**
   The abstract side of a state: the lists; the pointer fields as the lists see them (`vptr` differs from the file
   while a record is being taken off its chain); which process has which record in hand; for which keys a store is
   between deleting the old record and linking the new one; and the map the calls act on.
   */
  datatype Abs = Abs(lists: Lists, vptr: map<nat, nat>, own: map<nat, nat>, gap: map<CString, nat>, m: map<CString, CString>)

  predicate HoldsChain(pc: Pc) {
    !pc.Idle? && !pc.Begin? && !pc.LockChain? && !pc.Returning? && !Ended(pc)
  }

  predicate Unlinking(pc: Pc) {
    pc.ReadFreeD? || pc.BlankIdx? || pc.SetFree? || pc.UnlinkRec?
  }

  predicate FreeWalking(pc: Pc) {
    pc.FreeHdr? || pc.FreeBody? || pc.PopFree?
  }

  predicate HoldsFree(pc: Pc) {
    pc.ReadFree? || FreeWalking(pc) || pc.UnlockFreeHit? || pc.UnlockFreeMiss? || pc.BlankDat? || Unlinking(pc) || pc.UnlockFreeD?
  }

  predicate HoldsDat(pc: Pc) {
    pc.SeekDat? || pc.AppendDat? || pc.UnlockDat?
  }

  predicate HoldsIdx(pc: Pc) {
    pc.SeekIdx? || pc.AppendIdx? || pc.UnlockIdx?
  }

  predicate Walking(pc: Pc) {
    pc.ReadHdr? || pc.ReadBody?
  }

  predicate Found(pc: Pc) {
    pc.ReadData? || pc.OverData? || pc.LockFreeD? || pc.BlankDat?
  }

  /** A record is in the process's hands, on no list; or was when the process ended. */
  predicate Owns(pc: Pc) {
    pc.ReadFreeD? || pc.BlankIdx? || pc.SetFree? || pc.UnlockFreeHit? || pc.ReuseDat? || pc.ReuseIdx? || pc.UnlockIdx? || pc.LinkHead?
    || pc.Stray?
  }

  /** A data extent is appended whose index record is still to be written. */
  predicate OwnsDat(pc: Pc) {
    pc.UnlockDat? || pc.LockIdx? || pc.SeekIdx? || pc.AppendIdx?
  }

  predicate Appending(pc: Pc) {
    pc.LockDat? || pc.SeekDat? || pc.AppendDat? || OwnsDat(pc) || pc.UnlockIdx?
  }

  predicate Searching(pc: Pc) {
    pc.ReadChainPtr? || pc.LockFree? || pc.ReadFree? || FreeWalking(pc) || pc.UnlockFreeHit? || pc.UnlockFreeMiss? || pc.ReuseDat? || pc.ReuseIdx?
  }

  predicate AfterBlank(pc: Pc) {
    Unlinking(pc) || pc.UnlockFreeD? || pc.RereadChainPtr?
  }

  /** The key of the call is on no chain. */
  predicate Absent(pc: Pc) {
    Searching(pc) || Appending(pc) || pc.LinkHead? || AfterBlank(pc)
  }

  /** db_store() has read the head of its chain. */
  predicate HasHead(pc: Pc) {
    (Searching(pc) && !pc.ReadChainPtr?) || Appending(pc) || pc.LinkHead?
  }

  predicate Gap(z: Proc) {
    z.regrow && Absent(z.pc)
  }

  /** Which locks a process holds, by place. */
  predicate Holds(z: Proc, r: Region, m: Mode) {
    match r
    case Chain(h) => HoldsChain(z.pc) && h == ChainOf(z) && m == ModeOf(z.op)
    case FreeList => HoldsFree(z.pc) && m == Writing
    case DataFile => HoldsDat(z.pc) && m == Writing
    case IndexTail => HoldsIdx(z.pc) && m == Writing
  }

  ghost predicate LocksOk(s: State) {
    && (forall l :: l in s.locks <==> l.pid < |s.procs| && Holds(s.procs[l.pid], l.region, l.mode))
    && (forall l, k | l in s.locks && k in s.locks && l.pid != k.pid && l.region == k.region ::
          l.mode == Reading && k.mode == Reading)
  }

  /** The call and the place agree ... */
  predicate KindOk(z: Proc) {
    && (z.op.StoreOp? && (HoldsChain(z.pc) || z.pc.LockChain?) ==> DataLengthOk(|z.op.data| + 1) && FlagOk(z.op.flag))
    && (z.pc.OverData? || Searching(z.pc) || Appending(z.pc) || z.pc.LinkHead? || z.pc.RereadChainPtr? ==> z.op.StoreOp?)
    && (z.pc.ReadData? ==> z.op.FetchOp?)
    && (Replacing(z.pc) ==> !z.op.FetchOp?)
  }

  predicate Replacing(pc: Pc) {
    pc.OverData? || pc.LockFreeD? || pc.BlankDat? || AfterBlank(pc)
  }

  /** ... as do the flag of a store and whether it has deleted the old record ... */
  predicate FlagPlace(z: Proc) {
    FlagAllows(z) && RegrowPlace(z)
  }

  predicate FlagAllows(z: Proc) {
    && (Searching(z.pc) ==> z.op.StoreOp? && z.op.flag != DB_REPLACE)
    && (z.op.StoreOp? && Replacing(z.pc) ==> z.op.flag != DB_INSERT)
    && (z.op.StoreOp? && z.op.flag == DB_REPLACE && (Appending(z.pc) || z.pc.LinkHead?) ==> z.regrow)
  }

  predicate RegrowPlace(z: Proc) {
    && (AfterBlank(z.pc) && z.op.StoreOp? ==> z.regrow)
    && (z.regrow && Absent(z.pc) ==> z.op.StoreOp? && z.op.flag != DB_INSERT)
    && (z.regrow ==> !Searching(z.pc) && !Walking(z.pc) && !Found(z.pc) && !z.pc.ReadHead? && !z.pc.LockChain? && !z.pc.Begin? && !z.pc.Broken?)
  }

  /** ... and whether the call's result is settled. */
  predicate ResultPlace(z: Proc) {
    !z.pc.Idle? ==> (z.result.Some? <==> z.pc.UnlockChain? || z.pc.Returning? || (z.op.DeleteOp? && AfterBlank(z.pc)))
  }

  predicate CallOk(z: Proc) {
    KindOk(z) && FlagPlace(z) && ResultPlace(z)
  }

  /** The process stands at place n of its chain, having passed no record with its key. */
  ghost predicate AtChain(f: Files, a: Abs, z: Proc) {
    && |a.lists.chains| == NHASH
    && var c := a.lists.chains[ChainOf(z)];
    && z.n < |c| && c[z.n] == z.off && z.ptroff == Field(HeadOf(z), c, z.n)
    && forall j :: 0 <= j < z.n ==> c[j] in f.body && f.body[c[j]].key != KeyOf(z.op)
  }

  ghost predicate AtFree(f: Files, a: Abs, z: Proc) {
    && z.op.StoreOp?
    && z.n < |a.lists.free| && a.lists.free[z.n] == z.off && z.ptroff == Field(FREE_OFF, a.lists.free, z.n)
    && NoneFits(f, z.op, a.lists.free[..z.n])
  }

  /** None of the free records has the sizes a store needs. */
  ghost predicate NoneFits(f: Files, op: Op, s: seq<nat>) {
    forall o <- s :: o in f.body && !Fits(op, f.body[o])
  }

  ghost predicate RecordRead(f: Files, z: Proc) {
    z.off in f.body && z.off in f.ptr && z.rec == f.body[z.off] && z.ptrval == f.ptr[z.off]
  }

  /** Where a process stands on a chain, with what it has read there. */
  ghost predicate ChainPlace(f: Files, a: Abs, z: Proc) {
    && (Walking(z.pc) || Found(z.pc) || z.pc.Broken? ==> AtChain(f, a, z))
    && (z.pc.Broken? ==> z.off in f.body && !KeyOk(f.body[z.off].key))
    && (z.pc.ReadBody? ==> z.off in f.ptr && z.ptrval == f.ptr[z.off] && z.off in f.body && z.len == IdxLen(f.body[z.off]))
    && (Found(z.pc) ==> RecordRead(f, z) && z.rec.key == KeyOf(z.op))
    && (z.pc.OverData? ==> z.op.StoreOp? && |z.op.data| + 1 == z.rec.datlen)
    && (z.pc.LockFreeD? && z.op.StoreOp? ==> |z.op.data| + 1 != z.rec.datlen)
    && (Absent(z.pc) ==> KeyOf(z.op) !in a.lists.at)
    && (HasHead(z.pc) ==> HeadOf(z) in f.ptr && z.chainptr == f.ptr[HeadOf(z)])
    && (Unlinking(z.pc) ==>
          && |a.lists.chains| == NHASH && z.n <= |a.lists.chains[ChainOf(z)]|
          && z.ptroff == Field(HeadOf(z), a.lists.chains[ChainOf(z)], z.n)
          && z.ptrval <= PTR_MAX)
  }

  ghost predicate FreePlace(f: Files, a: Abs, z: Proc) {
    && (FreeWalking(z.pc) ==> AtFree(f, a, z))
    && (z.pc.UnlockFreeMiss? ==> NoneFits(f, z.op, a.lists.free))
    && (z.pc.FreeBody? ==> z.off in f.ptr && z.ptrval == f.ptr[z.off] && z.off in f.body && z.len == IdxLen(f.body[z.off]))
    && (z.pc.PopFree? ==> RecordRead(f, z) && Fits(z.op, z.rec) && z.datoff == z.rec.datoff && z.off <= PTR_MAX)
    && (z.pc.BlankIdx? ==> FREE_OFF in f.ptr && z.freeptr == f.ptr[FREE_OFF])
    && (z.pc.SetFree? ==> FREE_OFF in f.ptr && z.off in f.ptr && f.ptr[z.off] == f.ptr[FREE_OFF])
  }

  /** The record in hand. */
  ghost predicate HandPlace(f: Files, z: Proc) {
    && (z.pc.ReadFreeD? || z.pc.BlankIdx? ==>
          z.off in f.body && z.off <= PTR_MAX && f.body[z.off] == z.rec && z.rec.key == KeyOf(z.op))
    && (z.pc.SetFree? ==> z.off in f.body && z.off <= PTR_MAX && AllBlank(f.body[z.off].key))
    && (z.pc.UnlockFreeHit? || z.pc.ReuseDat? || z.pc.ReuseIdx? ==>
          z.off in f.body && z.off <= PTR_MAX && f.body[z.off] == z.rec && Fits(z.op, z.rec) && z.datoff == z.rec.datoff)
    && (z.pc.ReuseIdx? ==> z.rec.datoff in f.dat && f.dat[z.rec.datoff] == z.op.data)
    && (z.pc.UnlockIdx? || z.pc.LinkHead? ==>
          && z.off in f.body && z.off in f.ptr && f.ptr[z.off] == z.chainptr
          && z.op.StoreOp? && f.body[z.off] == NewRec(z) && z.datoff in f.dat && f.dat[z.datoff] == z.op.data)
    && (z.pc.Stray? ==> z.off > PTR_MAX)
  }

  ghost predicate TailPlace(f: Files, z: Proc) {
    && (z.pc.AppendDat? ==> z.datoff == f.dend)
    && (OwnsDat(z.pc) ==> z.op.StoreOp? && z.datoff in f.dat && f.dat[z.datoff] == z.op.data)
    && (z.pc.SeekIdx? || z.pc.AppendIdx? ==> z.op.StoreOp? && LengthOk(NewRec(z)))
    && (z.pc.AppendIdx? ==> z.off == f.iend)
  }

  ghost predicate PlaceOk(f: Files, a: Abs, z: Proc) {
    ChainPlace(f, a, z) && FreePlace(f, a, z) && HandPlace(f, z) && TailPlace(f, z)
  }

  ghost predicate ProcOk(f: Files, a: Abs, z: Proc) {
    CallOk(z) && PlaceOk(f, a, z)
  }

  ghost predicate VptrOk(s: State, a: Abs) {
    && a.vptr.Keys == s.files.ptr.Keys
    && (forall l <- a.vptr :: a.vptr[l] <= PTR_MAX)
    && (forall p | 0 <= p < |s.procs| && Unlinking(s.procs[p].pc) ::
          && s.procs[p].ptroff in s.files.ptr
          && a.vptr == s.files.ptr[s.procs[p].ptroff := s.procs[p].ptrval])
    && ((forall p :: 0 <= p < |s.procs| ==> !Unlinking(s.procs[p].pc)) ==> a.vptr == s.files.ptr)
  }

  ghost predicate OwnOk(s: State, a: Abs) {
    && (forall o <- a.own :: a.own[o] < |s.procs| && Owns(s.procs[a.own[o]].pc) && s.procs[a.own[o]].off == o)
    && (forall p | 0 <= p < |s.procs| && Owns(s.procs[p].pc) ::
          s.procs[p].off in a.own && a.own[s.procs[p].off] == p && !Live(s.files.body, a.lists, s.procs[p].off))
    && (forall p, o | 0 <= p < |s.procs| && OwnsDat(s.procs[p].pc) && o in s.files.body ::
          s.files.body[o].datoff != s.procs[p].datoff)
    && (forall p, q | 0 <= p < q < |s.procs| && OwnsDat(s.procs[p].pc) && OwnsDat(s.procs[q].pc) ::
          s.procs[p].datoff != s.procs[q].datoff)
  }

  ghost predicate ContentsOk(s: State, a: Abs) {
    && (forall k <- a.gap :: k !in a.lists.at && k in a.m)
    && (forall k <- a.gap :: a.gap[k] < |s.procs| && Gap(s.procs[a.gap[k]]) && KeyOf(s.procs[a.gap[k]].op) == k)
    && (forall p | 0 <= p < |s.procs| && Gap(s.procs[p]) :: KeyOf(s.procs[p].op) in a.gap && a.gap[KeyOf(s.procs[p].op)] == p)
    && (forall k :: k !in a.gap ==> (k in a.m <==> k in a.lists.at))
    && (forall k <- a.lists.at :: k in a.m && a.m[k] == DataOf(s.files, a.lists.at[k]))
  }

  ghost predicate Inv(s: State, a: Abs) {
    && FilesOk(s.files) && LocksOk(s) && VptrOk(s, a)
    && ListsOk(a.vptr, s.files.body, a.lists, a.own.Keys)
    && OwnOk(s, a) && ContentsOk(s, a)
    && forall p :: 0 <= p < |s.procs| ==> ProcOk(s.files, a, s.procs[p])
  }

  /** What the calls look like from outside. */
  function CallOf(z: Proc): Call {
    if z.pc.Idle? then Ready
    else if Ended(z.pc) then Failed(z.op, z.regrow)
    else match z.result
      case None => Pending(z.op)
      case Some(r) => Done(z.op, r)
  }

  ghost function Object(s: State, a: Abs): MapObject {
    MapObject(a.m, seq(|s.procs|, p requires 0 <= p < |s.procs| => CallOf(s.procs[p])))
  }
}
