/** The steps that write, one by one. */
module DbWrites {
  import opened Common
  import opened IndexRecord
  import opened Links
  import opened DbStore
  import opened Database
  import opened DbProcesses
  import opened DbInvariant
  import opened DbFrame
  import opened DbReads

  /** The parts of the invariant put together again after a write. */
  lemma Assemble(s: State, a: Abs, p: nat, op: Op, a': Abs)
    requires Inv(s, a) && p < |s.procs| && Enabled(s, p) && !AccessOf(s.procs[p]).Quit?
    requires
      var s' := Next(s, p, op);
      && FilesOk(s'.files) && VptrOk(s', a') && ListsOk(a'.vptr, s'.files.body, a'.lists, a'.own.Keys)
      && OwnOk(s', a') && ContentsOk(s', a') && PlaceOk(s'.files, a', s'.procs[p])
      && CallStep(CallOf(s.procs[p]), a.m, CallOf(s'.procs[p]), a'.m)
    requires forall q | 0 <= q < |s.procs| && q != p :: Kept(s.files, a, Next(s, p, op).files, a', s.procs[q])
    ensures Inv(Next(s, p, op), a') && ObjectStep(Object(s, a), Object(Next(s, p, op), a'), p)
  {
    hide FilesOk, VptrOk, ListsOk, OwnOk, ContentsOk, PlaceOk, CallOk, CallStep, Object, ObjectStep, Resume, AccessOf, Enabled, ReplyTo, Kept;
    var s', z := Next(s, p, op), s.procs[p];
    LocksKept(s, p, op);
    CallKept(z, ReplyTo(s.files, AccessOf(z)), op);
    forall q | 0 <= q < |s.procs| ensures ProcOk(s'.files, a', s'.procs[q]) {
      if q != p {
        FrameProc(s.files, a, s'.files, a', s.procs[q]);
      }
    }
    ObjectMoves(s, a, s', a', p);
  }

  /** No other process has this record in hand. */
  lemma OthersHands(s: State, a: Abs, q: nat, o: nat)
    requires Inv(s, a) && q < |s.procs| && o in s.files.body
    requires o !in a.own || a.own[o] != q
    ensures Owns(s.procs[q].pc) ==> s.procs[q].off != o && s.procs[q].off in s.files.body
    ensures OwnsDat(s.procs[q].pc) ==> s.procs[q].datoff != s.files.body[o].datoff
    ensures Filled(s.procs[q].pc) ==> s.procs[q].datoff != s.files.body[o].datoff
  {
    hide FilesOk, ListsOk, VptrOk, ContentsOk, LocksOk, CallOk, ChainPlace, FreePlace;
    OwnBodies(s, a);
    ExtentFacts(s.files);
    ProcFacts(s, a, q);
  }

  lemma OwnBodies(s: State, a: Abs)
    requires Inv(s, a)
    ensures a.own.Keys <= s.files.body.Keys
  {
    hide FilesOk, AllLinked, VptrOk, OwnOk, ContentsOk, LocksOk, ProcOk;
  }

  lemma ExtentFacts(f: Files)
    requires FilesOk(f)
    ensures ExtentsOk(f.body, f.dat)
  {
  }

  /** Writing the data of one record is felt only by a process that has that record in hand or on its chain. */
  lemma KeptByDat(s: State, a: Abs, p: nat, q: nat, o: nat, t: CString, a': Abs)
    requires Inv(s, a) && p < |s.procs| && q < |s.procs| && p != q && o in s.files.body
    requires o !in a.own || a.own[o] != q
    requires SetDat(s.files, s.files.body[o].datoff, t).dend == s.files.dend && a'.lists == a.lists
    ensures Kept(s.files, a, SetDat(s.files, s.files.body[o].datoff, t), a', s.procs[q])
  {
    hide Inv, Hash;
    OthersHands(s, a, q, o);
  }

  // ---- db_store() overwriting data of the same length ----

  function ReplacedAbs(a: Abs, z: Proc): Abs
    requires z.op.StoreOp?
  {
    a.(m := a.m[KeyOf(z.op) := z.op.data])
  }

  lemma OverDataFacts(s: State, a: Abs, p: nat, op: Op)
    requires Inv(s, a) && p < |s.procs| && s.procs[p].pc.OverData?
    ensures
      var z, s' := s.procs[p], Next(s, p, op);
      && z.op.StoreOp? && z.off in s.files.body && s.files.body[z.off].datoff in s.files.dat && z.off !in a.own
      && |s.files.dat[s.files.body[z.off].datoff]| == |z.op.data|
      && s'.files == SetDat(s.files, s.files.body[z.off].datoff, z.op.data) && z.rec == s.files.body[z.off]
      && KeyOf(z.op) in a.lists.at && a.lists.at[KeyOf(z.op)] == z.off && KeyOf(z.op) in a.m
      && !Gap(z) && !Gap(s'.procs[p]) && !AccessOf(z).Quit?
      && PlaceOk(s'.files, ReplacedAbs(a, z), s'.procs[p])
      && CallStep(CallOf(z), a.m, CallOf(s'.procs[p]), ReplacedAbs(a, z).m)
  {
    hide FilesOk, LocksOk, ListsOk, VptrOk, OwnOk, ContentsOk, Hash;
    ProcFacts(s, a, p);
    FoundInMap(s, a, p);
    LiveNotOwned(s, a, s.procs[p].off);
  }

  lemma OverDataStep(s: State, a: Abs, p: nat, op: Op) returns (a': Abs)
    requires Inv(s, a) && p < |s.procs| && Enabled(s, p) && s.procs[p].pc.OverData?
    ensures Inv(Next(s, p, op), a') && ObjectStep(Object(s, a), Object(Next(s, p, op), a'), p)
    ensures a'.lists == a.lists
  {
    hide FilesOk, VptrOk, OwnOk, ContentsOk, LocksOk, ListsOk, ProcOk, PlaceOk, CallStep, Object, ObjectStep, Kept, Enabled, AccessOf, Gap;
    OverDataFacts(s, a, p, op);
    var z, s' := s.procs[p], Next(s, p, op);
    a' := ReplacedAbs(a, z);
    OverwriteDatOk(s.files, s.files.body[z.off].datoff, z.op.data);
    forall q | 0 <= q < |s.procs| && q != p ensures Kept(s.files, a, s'.files, a', s.procs[q]) {
      KeptByDat(s, a, p, q, z.off, z.op.data, a');
    }
    VptrSame(s, a, s', a', p);
    OwnSame(s, a, s', a', p);
    LiveAll(s, a);
    OverDataContents(s, a, s', a', p);
    Assemble(s, a, p, op, a');
  }

  lemma LiveNotOwned(s: State, a: Abs, o: nat)
    requires Inv(s, a) && Live(s.files.body, a.lists, o)
    ensures o !in a.own
  {
    hide FilesOk, AllLinked, VptrOk, ContentsOk, LocksOk, ProcOk;
  }

  lemma VptrSame(s: State, a: Abs, s': State, a': Abs, p: nat)
    requires VptrOk(s, a) && p < |s.procs| == |s'.procs| && s'.procs == s.procs[p := s'.procs[p]]
    requires s'.files.ptr == s.files.ptr && a'.vptr == a.vptr
    requires !Unlinking(s.procs[p].pc) && !Unlinking(s'.procs[p].pc)
    ensures VptrOk(s', a')
  {
    hide Unlinking;
    assert forall q | 0 <= q < |s.procs| :: Unlinking(s'.procs[q].pc) == Unlinking(s.procs[q].pc);
  }

  lemma OwnSame(s: State, a: Abs, s': State, a': Abs, p: nat)
    requires OwnOk(s, a) && p < |s.procs| == |s'.procs| && s'.procs == s.procs[p := s'.procs[p]]
    requires s'.files.body == s.files.body && a'.own == a.own && a'.lists == a.lists
    requires Owns(s.procs[p].pc) == Owns(s'.procs[p].pc) && !OwnsDat(s'.procs[p].pc)
    requires Owns(s.procs[p].pc) ==> s'.procs[p].off == s.procs[p].off
    ensures OwnOk(s', a')
  {
    hide Owns, OwnsDat, Live;
  }

  ghost predicate LiveOk(f: Files, a: Abs) {
    forall k <- a.lists.at :: a.lists.at[k] in f.body && f.body[a.lists.at[k]].key == k
  }

  lemma LiveAll(s: State, a: Abs)
    requires Inv(s, a)
    ensures LiveOk(s.files, a)
  {
    hide FilesOk, LocksOk, VptrOk, OwnOk, ContentsOk, ProcOk, AllLinked, Placed;
    LiveKeys(a.vptr, s.files.body, a.lists, a.own.Keys);
  }

  lemma OverDataContents(s: State, a: Abs, s': State, a': Abs, p: nat)
    requires FilesOk(s.files) && LiveOk(s.files, a) && ContentsOk(s, a)
    requires p < |s.procs| == |s'.procs| && s'.procs == s.procs[p := s'.procs[p]]
    requires
      var z := s.procs[p];
      && z.op.StoreOp? && KeyOf(z.op) in a.lists.at && KeyOf(z.op) in a.m && a.lists.at[KeyOf(z.op)] in s.files.body
      && s'.files == SetDat(s.files, s.files.body[a.lists.at[KeyOf(z.op)]].datoff, z.op.data)
      && a' == ReplacedAbs(a, z)
    requires !Gap(s.procs[p]) && !Gap(s'.procs[p])
    ensures ContentsOk(s', a')
  {
    hide FilesOk, Gap, DataOf;
    var z := s.procs[p];
    var o := a.lists.at[KeyOf(z.op)];
    NewData(s.files, o, z.op.data);
    forall k <- a.lists.at | k != KeyOf(z.op) ensures DataOf(s'.files, a.lists.at[k]) == DataOf(s.files, a.lists.at[k]) {
      DataElsewhere(s.files, a.lists.at[k], s.files.body[o].datoff, z.op.data, o);
    }
  }

  lemma NewData(f: Files, o: nat, t: CString)
    requires o in f.body
    ensures DataOf(SetDat(f, f.body[o].datoff, t), o) == t
  {
  }

  /** Writing one data extent leaves the data of other records alone. */
  lemma DataElsewhere(f: Files, x: nat, d: nat, t: CString, o: nat)
    requires FilesOk(f) && x in f.body
    requires (o in f.body && o != x && d == f.body[o].datoff) || d !in f.dat
    ensures DataOf(SetDat(f, d, t), x) == DataOf(f, x)
  {
    ExtentFacts(f);
  }

  lemma ContentsByDat(s: State, a: Abs, s': State, p: nat, d: nat, t: CString, o: nat)
    requires FilesOk(s.files) && LiveOk(s.files, a) && ContentsOk(s, a)
    requires p < |s.procs| == |s'.procs| && s'.procs == s.procs[p := s'.procs[p]] && s'.files == SetDat(s.files, d, t)
    requires (o in s.files.body && d == s.files.body[o].datoff && !Live(s.files.body, a.lists, o)) || d !in s.files.dat
    requires Gap(s'.procs[p]) == Gap(s.procs[p]) && KeyOf(s'.procs[p].op) == KeyOf(s.procs[p].op)
    ensures ContentsOk(s', a)
  {
    hide FilesOk, Gap, DataOf;
    forall k <- a.lists.at ensures DataOf(s'.files, a.lists.at[k]) == DataOf(s.files, a.lists.at[k]) {
      DataElsewhere(s.files, a.lists.at[k], d, t, o);
    }
  }

  /** What a process has in hand is its own and on no chain. */
  lemma HandFacts(s: State, a: Abs, p: nat)
    requires Inv(s, a) && p < |s.procs| && Owns(s.procs[p].pc)
    ensures
      var o := s.procs[p].off;
      o in a.own && a.own[o] == p && o in s.files.body && !Live(s.files.body, a.lists, o) && BASE <= o && o in s.files.ptr
  {
    hide FilesOk, LocksOk, ListsOk, VptrOk, ContentsOk, ProcOk;
    OwnBodies(s, a);
    RecordFacts(s.files, s.procs[p].off);
  }

  // ---- db_store() writing its data into the extent of the free record it has taken ----

  lemma ReuseDatPlace(f: Files, a: Abs, z: Proc, op: Op)
    requires ProcOk(f, a, z) && z.pc.ReuseDat?
    ensures z.op.StoreOp? && z.off in f.body && z.rec == f.body[z.off] && z.rec.datlen == |z.op.data| + 1
    ensures
      var f' := SetDat(f, z.rec.datoff, z.op.data);
      var z' := Resume(z, Empty, op);
      PlaceOk(f', a, z') && z'.off == z.off && z'.op == z.op && Gap(z) == Gap(z')
    ensures AccessOf(z) == PutDat(z.rec.datoff, z.op.data)
    ensures forall m :: CallStep(CallOf(z), m, CallOf(Resume(z, Empty, op)), m)
  {
    hide Hash, AtChain, AtFree, RecordRead;
  }

  lemma ReuseDatFacts(s: State, a: Abs, p: nat, op: Op)
    requires Inv(s, a) && p < |s.procs| && s.procs[p].pc.ReuseDat?
    ensures
      var z, s' := s.procs[p], Next(s, p, op);
      && z.op.StoreOp? && z.off in s.files.body && s.files.body[z.off].datoff in s.files.dat
      && z.off in a.own && a.own[z.off] == p && !Live(s.files.body, a.lists, z.off)
      && |s.files.dat[s.files.body[z.off].datoff]| == |z.op.data|
      && s'.files == SetDat(s.files, s.files.body[z.off].datoff, z.op.data) && s'.procs[p].off == z.off
      && Gap(z) == Gap(s'.procs[p]) && KeyOf(s'.procs[p].op) == KeyOf(z.op) && !AccessOf(z).Quit?
      && PlaceOk(s'.files, a, s'.procs[p])
      && CallStep(CallOf(z), a.m, CallOf(s'.procs[p]), a.m)
  {
    hide Inv, ProcOk, PlaceOk, CallStep, Gap, Resume, AccessOf;
    ProcFacts(s, a, p);
    ReuseDatPlace(s.files, a, s.procs[p], op);
    HandFacts(s, a, p);
    InvFiles(s, a);
    RecordFacts(s.files, s.procs[p].off);
  }

  lemma InvFiles(s: State, a: Abs)
    requires Inv(s, a)
    ensures FilesOk(s.files)
  {
    hide FilesOk, LocksOk, ListsOk, VptrOk, ContentsOk, ProcOk, OwnOk;
  }

  lemma ReuseDatStep(s: State, a: Abs, p: nat, op: Op)
    requires Inv(s, a) && p < |s.procs| && Enabled(s, p) && s.procs[p].pc.ReuseDat?
    ensures Inv(Next(s, p, op), a) && ObjectStep(Object(s, a), Object(Next(s, p, op), a), p)
  {
    hide FilesOk, VptrOk, OwnOk, ContentsOk, LocksOk, ListsOk, ProcOk, PlaceOk, CallStep, Object, ObjectStep, Kept, Enabled, AccessOf, Gap;
    ReuseDatFacts(s, a, p, op);
    var z, s' := s.procs[p], Next(s, p, op);
    OverwriteDatOk(s.files, s.files.body[z.off].datoff, z.op.data);
    LiveAll(s, a);
    forall q | 0 <= q < |s.procs| && q != p ensures Kept(s.files, a, s'.files, a, s.procs[q]) {
      KeptByDat(s, a, p, q, z.off, z.op.data, a);
    }
    VptrSame(s, a, s', a, p);
    OwnSame(s, a, s', a, p);
    ContentsByDat(s, a, s', p, s.files.body[z.off].datoff, z.op.data, z.off);
    Assemble(s, a, p, op, a);
  }

  // ---- db_store() appending data ----

  lemma AppendDatFacts(s: State, a: Abs, p: nat, op: Op)
    requires Inv(s, a) && p < |s.procs| && s.procs[p].pc.AppendDat?
    ensures
      var z, s' := s.procs[p], Next(s, p, op);
      && z.op.StoreOp? && s'.files == SetDat(s.files, s.files.dend, z.op.data)
      && s'.procs[p].pc.UnlockDat? && s'.procs[p].datoff == s.files.dend
      && Gap(z) == Gap(s'.procs[p]) && KeyOf(s'.procs[p].op) == KeyOf(z.op) && !AccessOf(z).Quit?
      && PlaceOk(s'.files, a, s'.procs[p])
      && CallStep(CallOf(z), a.m, CallOf(s'.procs[p]), a.m)
  {
    hide FilesOk, LocksOk, ListsOk, VptrOk, ContentsOk, OwnOk, Hash, Searching, IsCString;
    ProcFacts(s, a, p);
  }

  lemma AppendDatKept(s: State, a: Abs, p: nat, q: nat, t: CString)
    requires Inv(s, a) && p < |s.procs| && q < |s.procs| && p != q && s.procs[p].pc.AppendDat?
    ensures Kept(s.files, a, SetDat(s.files, s.files.dend, t), a, s.procs[q])
    ensures OwnsDat(s.procs[q].pc) ==> s.procs[q].datoff != s.files.dend
  {
    hide FilesOk, LocksOk, ListsOk, VptrOk, ContentsOk, OwnOk, ChainPlace, FreePlace, CallOk, Hash;
    Exclusion(s, p, q);
    ProcFacts(s, a, q);
    AppendDatOk(s.files, t);
  }

  lemma AppendDatOwn(s: State, a: Abs, s': State, p: nat)
    requires OwnOk(s, a) && FilesOk(s.files) && p < |s.procs| == |s'.procs| && s'.procs == s.procs[p := s'.procs[p]]
    requires s'.files.body == s.files.body && s'.procs[p].datoff == s.files.dend
    requires !Owns(s.procs[p].pc) && !Owns(s'.procs[p].pc)
    requires forall q | 0 <= q < |s.procs| && q != p && OwnsDat(s.procs[q].pc) :: s.procs[q].datoff != s.files.dend
    ensures OwnOk(s', a)
  {
    hide FilesOk, Owns, OwnsDat, Live;
    DataEndUnused(s.files);
  }

  lemma DataEndUnused(f: Files)
    requires FilesOk(f)
    ensures forall o <- f.body :: f.body[o].datoff != f.dend
    ensures f.dend !in f.dat
  {
  }

  lemma AppendDatStep(s: State, a: Abs, p: nat, op: Op)
    requires Inv(s, a) && p < |s.procs| && Enabled(s, p) && s.procs[p].pc.AppendDat?
    ensures Inv(Next(s, p, op), a) && ObjectStep(Object(s, a), Object(Next(s, p, op), a), p)
  {
    hide FilesOk, VptrOk, OwnOk, ContentsOk, LocksOk, ListsOk, ProcOk, PlaceOk, CallStep, Object, ObjectStep, Kept, Enabled, AccessOf, Gap;
    AppendDatFacts(s, a, p, op);
    var z, s' := s.procs[p], Next(s, p, op);
    AppendDatOk(s.files, z.op.data);
    DataEndUnused(s.files);
    LiveAll(s, a);
    forall q | 0 <= q < |s.procs| && q != p
      ensures Kept(s.files, a, s'.files, a, s.procs[q])
      ensures OwnsDat(s.procs[q].pc) ==> s.procs[q].datoff != s.files.dend
    {
      AppendDatKept(s, a, p, q, z.op.data);
    }
    VptrSame(s, a, s', a, p);
    AppendDatOwn(s, a, s', p);
    ContentsByDat(s, a, s', p, s.files.dend, z.op.data, 0);
    Assemble(s, a, p, op, a);
  }
}
