/** The step that begins a deletion: from here on no process sees the record on its chain. */
module DbDeletion {
  import opened Common
  import opened IndexRecord
  import opened Links
  import opened DbStore
  import opened Database
  import opened DbProcesses
  import opened DbInvariant
  import opened DbFrame
  import opened DbReads
  import opened DbWrites
  import opened DbRecordWrites
  import opened DbPointerWrites

  /** The lists lose the record now; the bytes follow in the next steps. */
  function Begun(a: Abs, z: Proc, p: nat): Abs
    requires |a.lists.chains| == NHASH && z.n < |a.lists.chains[ChainOf(z)]|
  {
    var key := KeyOf(z.op);
    Abs(UnlinkChain(a.lists, ChainOf(z), z.n, key), a.vptr[z.ptroff := z.ptrval], a.own[z.off := p],
        if z.op.StoreOp? then a.gap[key := p] else a.gap,
        if z.op.StoreOp? then a.m else a.m - {key})
  }

  lemma BlankDatFacts(s: State, a: Abs, p: nat)
    requires Inv(s, a) && p < |s.procs| && s.procs[p].pc.BlankDat?
    ensures
      var z := s.procs[p];
      && !z.op.FetchOp? && |a.lists.chains| == NHASH && AtChain(s.files, a, z)
      && z.off in s.files.body && z.rec == s.files.body[z.off] && z.rec.key == KeyOf(z.op)
      && z.off in s.files.ptr && z.ptrval == s.files.ptr[z.off] && z.off <= PTR_MAX && z.ptrval <= PTR_MAX
      && z.ptroff in s.files.ptr && s.files.ptr[z.ptroff] == z.off && Live(s.files.body, a.lists, z.off)
      && z.rec.datoff in s.files.dat && z.rec.datlen == |s.files.dat[z.rec.datoff]| + 1
  {
    hide FilesOk, LocksOk, OwnOk, ContentsOk, AllLinked, Placed, Hash;
    var z := s.procs[p];
    ProcFacts(s, a, p);
    SeenOk(s, a);
    FreePtrTrue(s, a, p);
    ChainFacts(Seen(s.files, a), a.lists, a.own.Keys, ChainOf(z), z.n);
    RecordFacts(s.files, z.off);
    AllRecordFacts(s.files);
  }

  lemma BlankDatPlace(f: Files, a: Abs, z: Proc, op: Op, p: nat)
    requires CallOk(z) && z.pc.BlankDat? && |a.lists.chains| == NHASH && AtChain(f, a, z)
    requires z.off in f.body && z.rec == f.body[z.off] && z.rec.key == KeyOf(z.op) && z.rec.datlen > 0
    requires z.off <= PTR_MAX && z.ptrval <= PTR_MAX
    ensures AccessOf(z) == PutDat(z.rec.datoff, BlankString(z.rec.datlen - 1))
    ensures
      var f', z' := SetDat(f, z.rec.datoff, BlankString(z.rec.datlen - 1)), Resume(z, Empty, op);
      && PlaceOk(f', Begun(a, z, p), z')
      && z' == z.(pc := ReadFreeD, regrow := z.regrow || z.op.StoreOp?, result := z'.result)
      && !Gap(z) && (Gap(z') <==> z.op.StoreOp?)
      && (KeyOf(z.op) in a.m ==> CallStep(CallOf(z), a.m, CallOf(z'), Begun(a, z, p).m))
  {
    hide Hash, PlaceOk, IsCString;
    BlankDatNext(z, op);
    BlankDatCall(a, z, op, p);
    PlaceBegun(SetDat(f, z.rec.datoff, BlankString(z.rec.datlen - 1)), f, a, z, p, Resume(z, Empty, op));
  }

  lemma BlankDatNext(z: Proc, op: Op)
    requires CallOk(z) && z.pc.BlankDat?
    ensures
      var z' := Resume(z, Empty, op);
      && z' == z.(pc := ReadFreeD, regrow := z.regrow || z.op.StoreOp?, result := z'.result)
      && !Gap(z) && (Gap(z') <==> z.op.StoreOp?)
  {
    hide Hash, IsCString, LengthOk;
  }

  lemma BlankDatCall(a: Abs, z: Proc, op: Op, p: nat)
    requires CallOk(z) && z.pc.BlankDat? && |a.lists.chains| == NHASH && z.n < |a.lists.chains[ChainOf(z)]|
    ensures KeyOf(z.op) in a.m ==> CallStep(CallOf(z), a.m, CallOf(Resume(z, Empty, op)), Begun(a, z, p).m)
  {
    hide Hash, IsCString, LengthOk, UnlinkChain, ChainOf;
  }

  lemma PlaceBegun(f': Files, f: Files, a: Abs, z: Proc, p: nat, z': Proc)
    requires |a.lists.chains| == NHASH && AtChain(f, a, z) && f'.body == f.body && f'.ptr == f.ptr
    requires z'.pc.ReadFreeD? && z' == z.(pc := z'.pc, regrow := z'.regrow, result := z'.result)
    requires z.off in f.body && z.rec == f.body[z.off] && z.rec.key == KeyOf(z.op) && z.off <= PTR_MAX && z.ptrval <= PTR_MAX
    ensures PlaceOk(f', Begun(a, z, p), z')
  {
    hide Hash, IsCString, AtFree;
  }

  lemma BegunVptr(s: State, a: Abs, s': State, a': Abs, p: nat)
    requires VptrOk(s, a) && p < |s.procs| == |s'.procs| && s'.procs == s.procs[p := s'.procs[p]]
    requires s'.files.ptr == s.files.ptr && !Unlinking(s.procs[p].pc) && Unlinking(s'.procs[p].pc)
    requires forall r | 0 <= r < |s.procs| :: !Unlinking(s.procs[r].pc)
    requires s'.procs[p].ptroff in s.files.ptr && s'.procs[p].ptrval <= PTR_MAX
    requires a'.vptr == a.vptr[s'.procs[p].ptroff := s'.procs[p].ptrval]
    ensures VptrOk(s', a')
  {
    hide Unlinking;
  }

  lemma BegunLive(body: map<nat, Body>, a: Lists, h: nat, k: nat, key: CString)
    requires h < |a.chains| && k < |a.chains[h]|
    ensures forall o :: Live(body, UnlinkChain(a, h, k, key), o) ==> Live(body, a, o) && body[o].key != key
  {
  }

  /** The key leaves the lists: a store keeps it in the map and marks it, a deletion takes it out. */
  lemma BegunGaps(s: State, a: Abs, s': State, a': Abs, p: nat, key: CString, stores: bool)
    requires ContentsOk(s, a) && p < |s.procs| == |s'.procs| && s'.procs == s.procs[p := s'.procs[p]]
    requires a'.lists.at == a.lists.at - {key} && key !in a.gap && key in a.m
    requires a'.gap == (if stores then a.gap[key := p] else a.gap) && a'.m == if stores then a.m else a.m - {key}
    requires !Gap(s.procs[p]) && (Gap(s'.procs[p]) <==> stores) && KeyOf(s'.procs[p].op) == key
    requires forall k <- a'.lists.at :: DataOf(s'.files, a.lists.at[k]) == DataOf(s.files, a.lists.at[k])
    ensures ContentsOk(s', a')
  {
    hide Gap, DataOf, KeyOf, IsCString;
  }

  lemma BegunContents(s: State, a: Abs, s': State, a': Abs, p: nat, t: CString)
    requires FilesOk(s.files) && LiveOk(s.files, a) && ContentsOk(s, a)
    requires p < |s.procs| == |s'.procs| && s'.procs == s.procs[p := s'.procs[p]]
    requires
      var z := s.procs[p];
      && |a.lists.chains| == NHASH && z.n < |a.lists.chains[ChainOf(z)]| && a' == Begun(a, z, p)
      && z.off in s.files.body && KeyOf(z.op) == s.files.body[z.off].key && Live(s.files.body, a.lists, z.off)
      && s'.files == SetDat(s.files, s.files.body[z.off].datoff, t)
    requires !Gap(s.procs[p]) && (Gap(s'.procs[p]) <==> s.procs[p].op.StoreOp?) && KeyOf(s'.procs[p].op) == KeyOf(s.procs[p].op)
    requires KeyOf(s.procs[p].op) !in a.gap && KeyOf(s.procs[p].op) in a.m
    ensures ContentsOk(s', a')
  {
    hide FilesOk, ContentsOk, Gap, DataOf, Hash, ChainOf, SetDat, IsCString;
    var z := s.procs[p];
    forall k <- a'.lists.at ensures DataOf(s'.files, a.lists.at[k]) == DataOf(s.files, a.lists.at[k]) {
      DataElsewhere(s.files, a.lists.at[k], s.files.body[z.off].datoff, t, z.off);
    }
    BegunGaps(s, a, s', a', p, KeyOf(z.op), z.op.StoreOp?);
  }

  lemma BegunKept(s: State, a: Abs, p: nat, q: nat, t: CString)
    requires Inv(s, a) && p < |s.procs| && q < |s.procs| && p != q && s.procs[p].pc.BlankDat?
    requires !s.procs[p].op.FetchOp? && |a.lists.chains| == NHASH && s.procs[p].n < |a.lists.chains[ChainOf(s.procs[p])]|
    requires s.procs[p].off in s.files.body && s.procs[p].off !in a.own
    requires SetDat(s.files, s.files.body[s.procs[p].off].datoff, t).dend == s.files.dend
    ensures Kept(s.files, a, SetDat(s.files, s.files.body[s.procs[p].off].datoff, t), Begun(a, s.procs[p], p), s.procs[q])
  {
    hide Inv, Hash;
    var z := s.procs[q];
    OthersHands(s, a, q, s.procs[p].off);
    FreeIsMine(s, a, p, q);
    if HoldsChain(z.pc) {
      ChainMine(s, a, p, q);
    }
  }

  /** The state after the write. */
  ghost predicate BlankWritten(s: State, p: nat, s': State)
    requires p < |s.procs|
  {
    var z := s.procs[p];
    && |s'.procs| == |s.procs| && s'.procs == s.procs[p := s'.procs[p]]
    && s'.procs[p] == z.(pc := ReadFreeD, regrow := s'.procs[p].regrow, result := s'.procs[p].result)
    && s'.files.ptr == s.files.ptr && s'.files.body == s.files.body
  }

  lemma BegunLists(s: State, a: Abs, p: nat, s': State)
    requires Inv(s, a) && p < |s.procs| && s.procs[p].pc.BlankDat? && BlankWritten(s, p, s')
    requires |a.lists.chains| == NHASH && s.procs[p].n < |a.lists.chains[ChainOf(s.procs[p])]|
    ensures
      var a' := Begun(a, s.procs[p], p);
      ListsOk(a'.vptr, s'.files.body, a'.lists, a'.own.Keys) && VptrOk(s', a') && OwnOk(s', a')
  {
    hide Inv, FilesOk, VptrOk, OwnOk, ContentsOk, Live, Hash, ListsOk, IsCString, Unlinking;
    var z := s.procs[p];
    BlankDatFacts(s, a, p);
    LiveNotOwned(s, a, z.off);
    InvFiles(s, a);
    InvLists(s, a);
    Unlinks(z, s'.procs[p]);
    FreePtrTrue(s, a, p);
    SeenKeys(s, a);
    UnlinkChainOk(a.vptr, s.files.body, a.lists, a.own.Keys, ChainOf(z), z.n);
    var a' := Begun(a, z, p);
    assert a'.own.Keys == a.own.Keys + {z.off};
    BegunVptr(s, a, s', a', p);
    BegunLive(s.files.body, a.lists, ChainOf(z), z.n, KeyOf(z.op));
    TakesInHand(s, a, s', a', p);
  }

  lemma Unlinks(z: Proc, z': Proc)
    requires z.pc.BlankDat? && z'.pc.ReadFreeD?
    ensures !Unlinking(z.pc) && Unlinking(z'.pc)
  {
  }

  lemma BlankDatStep(s: State, a: Abs, p: nat, op: Op)
    requires Inv(s, a) && p < |s.procs| && Enabled(s, p) && s.procs[p].pc.BlankDat?
    ensures |a.lists.chains| == NHASH && s.procs[p].n < |a.lists.chains[ChainOf(s.procs[p])]|
    ensures
      var a' := Begun(a, s.procs[p], p);
      Inv(Next(s, p, op), a') && ObjectStep(Object(s, a), Object(Next(s, p, op), a'), p)
  {
    hide Inv, FilesOk, VptrOk, OwnOk, ContentsOk, LocksOk, ProcOk, PlaceOk, CallStep, Object, ObjectStep, Kept;
    hide Enabled, AccessOf, Gap, Resume, Live, Hash, ListsOk, CallOk, LiveOk, BlankString, Field, IsCString;
    var z, s' := s.procs[p], Next(s, p, op);
    ProcFacts(s, a, p);
    ProcCall(s.files, a, z);
    BlankDatFacts(s, a, p);
    var a', t := Begun(a, z, p), BlankString(z.rec.datlen - 1);
    BlankDatPlace(s.files, a, z, op, p);
    FoundInMap(s, a, p);
    NotInGap(s, a, p);
    LiveNotOwned(s, a, z.off);
    InvFiles(s, a);
    InvLists(s, a);
    LiveAll(s, a);
    OverwriteDatOk(s.files, z.rec.datoff, t);
    BegunLists(s, a, p, s');
    BegunContents(s, a, s', a', p, t);
    forall q | 0 <= q < |s.procs| && q != p ensures Kept(s.files, a, s'.files, a', s.procs[q]) {
      BegunKept(s, a, p, q, t);
    }
    Assemble(s, a, p, op, a');
  }

  lemma ProcCall(f: Files, a: Abs, z: Proc)
    requires ProcOk(f, a, z)
    ensures CallOk(z)
  {
  }
}
