/** The steps that write an index record: blanking a deleted one, reusing a free one, appending one. */
module DbRecordWrites {
  import opened Common
  import opened IndexRecord
  import opened Links
  import opened DbStore
  import opened Database
  import opened DbProcesses
  import opened DbInvariant
  import opened DbFrame
  import opened DbReads
  import opened DbWrites

  /** A record in hand, or one that is not there yet, is on no list. */
  lemma NotListed(s: State, a: Abs, o: nat)
    requires Inv(s, a) && (o in a.own || o !in s.files.body)
    ensures |a.lists.chains| == NHASH && o !in a.lists.free
    ensures forall h :: 0 <= h < NHASH ==> o !in a.lists.chains[h]
  {
    hide FilesOk, LocksOk, VptrOk, OwnOk, ContentsOk, ProcOk, AllLinked;
    forall h | 0 <= h < NHASH ensures o !in a.lists.chains[h] {
      assert !OnChain(a.lists, h, o);
    }
  }

  /** Writing a record that is on no list is felt only by a process that has it in hand. */
  lemma KeptByRec(s: State, a: Abs, p: nat, q: nat, o: nat, v: nat, b: Body, a': Abs)
    requires Inv(s, a) && p < |s.procs| && q < |s.procs| && p != q && BASE <= o
    requires (o in a.own && a.own[o] == p) || o !in s.files.body
    requires SetRec(s.files, o, v, b).iend == s.files.iend || HoldsIdx(s.procs[p].pc)
    requires a'.lists == a.lists
    ensures Kept(s.files, a, SetRec(s.files, o, v, b), a', s.procs[q])
  {
    hide FilesOk, VptrOk, ListsOk, ContentsOk, LocksOk, ProcOk, Hash, Size, IdxLen, IsCString, Owns, FreeWalking, HeadLoc;
    Exclusion(s, p, q);
    NotListed(s, a, o);
    OwnBodies(s, a);
    HeadIsRoot(ChainOf(s.procs[q]));
  }

  /** A pointer written where no unlinking process is about to write: the lists see it as the file has it. */
  lemma VptrWrite(s: State, a: Abs, s': State, a': Abs, p: nat, l: nat, v: nat)
    requires VptrOk(s, a) && p < |s.procs| == |s'.procs| && s'.procs == s.procs[p := s'.procs[p]] && v <= PTR_MAX
    requires s'.files.ptr == s.files.ptr[l := v] && a'.vptr == a.vptr[l := v]
    requires Unlinking(s'.procs[p].pc) == Unlinking(s.procs[p].pc)
    requires s'.procs[p].ptroff == s.procs[p].ptroff && s'.procs[p].ptrval == s.procs[p].ptrval
    requires forall r | 0 <= r < |s.procs| && Unlinking(s.procs[r].pc) :: s.procs[r].ptroff != l
    ensures VptrOk(s', a')
  {
    hide Unlinking;
    assert forall r | 0 <= r < |s.procs| :: Unlinking(s'.procs[r].pc) == Unlinking(s.procs[r].pc);
    assert forall r | 0 <= r < |s.procs| :: s'.procs[r].ptroff == s.procs[r].ptroff && s'.procs[r].ptrval == s.procs[r].ptrval;
  }

  lemma UnlinkerField(s: State, a: Abs, r: nat)
    requires Inv(s, a) && r < |s.procs| && Unlinking(s.procs[r].pc)
    ensures
      var z := s.procs[r];
      && |a.lists.chains| == NHASH && z.ptroff in s.files.ptr && z.ptrval <= PTR_MAX && z.ptroff in a.vptr
      && (z.ptroff == HeadOf(z) || z.ptroff in a.lists.chains[ChainOf(z)])
  {
    hide FilesOk, ListsOk, OwnOk, ContentsOk, LocksOk, Hash, FreePlace, HandPlace, TailPlace, CallOk;
    ProcFacts(s, a, r);
  }

  /** No unlinking process is about to write into a record that is on no list. */
  lemma UnlinkersNotAt(s: State, a: Abs, o: nat)
    requires Inv(s, a) && (o in a.own || o !in s.files.body) && BASE <= o
    ensures forall r | 0 <= r < |s.procs| && Unlinking(s.procs[r].pc) :: s.procs[r].ptroff != o
  {
    hide Inv, Hash, Unlinking;
    forall r | 0 <= r < |s.procs| && Unlinking(s.procs[r].pc) ensures s.procs[r].ptroff != o {
      UnlinkerField(s, a, r);
      NotListed(s, a, o);
      HeadIsRoot(ChainOf(s.procs[r]));
    }
  }

  lemma InvLists(s: State, a: Abs)
    requires Inv(s, a)
    ensures ListsOk(a.vptr, s.files.body, a.lists, a.own.Keys) && VptrOk(s, a) && OwnOk(s, a) && ContentsOk(s, a)
  {
    hide FilesOk, LocksOk, ListsOk, VptrOk, ContentsOk, ProcOk, OwnOk;
  }

  /** The record in hand is rewritten in place. */
  lemma RewriteOwn(s: State, a: Abs, s': State, a': Abs, p: nat, b: Body)
    requires OwnOk(s, a) && p < |s.procs| == |s'.procs| && s'.procs == s.procs[p := s'.procs[p]]
    requires Owns(s.procs[p].pc) && Owns(s'.procs[p].pc) && s'.procs[p].off == s.procs[p].off
    requires !OwnsDat(s.procs[p].pc) && !OwnsDat(s'.procs[p].pc)
    requires
      var o := s.procs[p].off;
      && o in s.files.body && s'.files.body == s.files.body[o := b] && b.datoff == s.files.body[o].datoff
      && !Live(s'.files.body, a.lists, o)
    requires a'.own == a.own && a'.lists == a.lists
    ensures OwnOk(s', a')
  {
    hide Owns, OwnsDat;
  }

  lemma SameRecord(f: Files, f': Files, x: nat, o: nat, b: Body)
    requires f'.body == f.body[o := b] && f'.dat == f.dat && x != o
    ensures DataOf(f', x) == DataOf(f, x)
  {
  }

  lemma ContentsByRec(s: State, a: Abs, s': State, a': Abs, p: nat, o: nat, b: Body)
    requires LiveOk(s.files, a) && ContentsOk(s, a)
    requires p < |s.procs| == |s'.procs| && s'.procs == s.procs[p := s'.procs[p]]
    requires s'.files.body == s.files.body[o := b] && s'.files.dat == s.files.dat && !Live(s.files.body, a.lists, o)
    requires a'.lists == a.lists && a'.gap == a.gap && a'.m == a.m
    requires Gap(s'.procs[p]) == Gap(s.procs[p]) && KeyOf(s'.procs[p].op) == KeyOf(s.procs[p].op)
    ensures ContentsOk(s', a')
  {
    hide Gap, DataOf;
    forall k <- a.lists.at ensures DataOf(s'.files, a.lists.at[k]) == DataOf(s.files, a.lists.at[k]) {
      SameRecord(s.files, s'.files, a.lists.at[k], o, b);
    }
  }

  // ---- _db_dodelete() blanking the index record ----

  lemma BlankIdxPlace(f: Files, a: Abs, z: Proc, op: Op, a': Abs)
    requires ProcOk(f, a, z) && z.pc.BlankIdx? && a'.lists == a.lists && BASE <= z.off
    ensures z.off in f.body && z.rec == f.body[z.off] && AccessOf(z) == PutRec(z.off, z.freeptr, Blanked(z.rec))
    ensures FREE_OFF in f.ptr && z.freeptr == f.ptr[FREE_OFF]
    ensures
      var f', z' := SetRec(f, z.off, z.freeptr, Blanked(z.rec)), Resume(z, Empty, op);
      PlaceOk(f', a', z') && z' == z.(pc := SetFree) && Gap(z) == Gap(z')
    ensures forall m :: CallStep(CallOf(z), m, CallOf(Resume(z, Empty, op)), m)
  {
    hide Hash, AtChain, AtFree, RecordRead, PlaceOk, Blanked, IsCString;
    HeadIsRoot(ChainOf(z));
    BlankIdxKnown(f, a, z);
    BlankIdxNext(z, op);
    BlankedKey(z.rec);
    PlaceBlanked(f, a, z, a', Blanked(z.rec));
  }

  lemma BlankedKey(b: Body)
    ensures AllBlank(Blanked(b).key)
  {
  }

  lemma BlankIdxKnown(f: Files, a: Abs, z: Proc)
    requires PlaceOk(f, a, z) && z.pc.BlankIdx?
    ensures ChainPlace(f, a, z) && z.off in f.body && z.off <= PTR_MAX && f.body[z.off] == z.rec
    ensures FREE_OFF in f.ptr && z.freeptr == f.ptr[FREE_OFF]
  {
    hide Hash, AtChain, AtFree, RecordRead, IsCString, ChainPlace;
  }

  lemma BlankIdxNext(z: Proc, op: Op)
    requires CallOk(z) && z.pc.BlankIdx?
    ensures Resume(z, Empty, op) == z.(pc := SetFree) && Gap(z) == Gap(z.(pc := SetFree))
    ensures forall m :: CallStep(CallOf(z), m, CallOf(Resume(z, Empty, op)), m)
  {
    hide Hash, IsCString, LengthOk;
  }

  lemma PlaceBlanked(f: Files, a: Abs, z: Proc, a': Abs, b: Body)
    requires ChainPlace(f, a, z) && z.pc.BlankIdx? && a'.lists == a.lists && z.off <= PTR_MAX && AllBlank(b.key)
    requires FREE_OFF in f.ptr && z.freeptr == f.ptr[FREE_OFF] && z.off != FREE_OFF
    ensures PlaceOk(SetRec(f, z.off, z.freeptr, b), a', z.(pc := SetFree))
  {
    hide Hash, AtChain, AtFree, RecordRead, AllBlank, IsCString;
  }

  /** Blanking the key keeps the record well formed and its length as it was. */
  lemma BlankedOk(f: Files, o: nat)
    requires FilesOk(f) && o in f.body
    ensures BodyOk(Blanked(f.body[o])) && Size(Blanked(f.body[o])) == Size(f.body[o])
    ensures AllBlank(Blanked(f.body[o]).key)
  {
    RecordFacts(f, o);
  }

  function BlankedAbs(a: Abs, z: Proc): Abs {
    a.(vptr := a.vptr[z.off := z.freeptr])
  }

  lemma BlankIdxStep(s: State, a: Abs, p: nat, op: Op)
    requires Inv(s, a) && p < |s.procs| && Enabled(s, p) && s.procs[p].pc.BlankIdx?
    ensures
      var a' := BlankedAbs(a, s.procs[p]);
      Inv(Next(s, p, op), a') && ObjectStep(Object(s, a), Object(Next(s, p, op), a'), p)
  {
    hide Inv, FilesOk, VptrOk, OwnOk, ContentsOk, LocksOk, ListsOk, ProcOk, PlaceOk, CallStep, Object, ObjectStep, Kept;
    hide Enabled, AccessOf, Gap, Resume, Live, Blanked;
    var z, s', a' := s.procs[p], Next(s, p, op), BlankedAbs(a, s.procs[p]);
    ProcFacts(s, a, p);
    HandFacts(s, a, p);
    BlankIdxPlace(s.files, a, z, op, a');
    InvFiles(s, a);
    InvLists(s, a);
    AllRecordFacts(s.files);
    BlankedOk(s.files, z.off);
    BlankedFields(z.rec);
    RewriteOk(s.files, z.off, z.freeptr, Blanked(z.rec));
    RewriteOwnOk(a.vptr, s.files.body, a.lists, a.own.Keys, z.off, z.freeptr, Blanked(z.rec));
    assert a.own.Keys + {z.off} == a.own.Keys;
    UnlinkersNotAt(s, a, z.off);
    VptrWrite(s, a, s', a', p, z.off, z.freeptr);
    RewriteOwn(s, a, s', a', p, Blanked(z.rec));
    LiveAll(s, a);
    ContentsByRec(s, a, s', a', p, z.off, Blanked(z.rec));
    forall q | 0 <= q < |s.procs| && q != p ensures Kept(s.files, a, s'.files, a', s.procs[q]) {
      KeptByRec(s, a, p, q, z.off, z.freeptr, Blanked(z.rec), a');
    }
    Assemble(s, a, p, op, a');
  }

  lemma BlankedFields(b: Body)
    ensures Blanked(b).datoff == b.datoff && Blanked(b).datlen == b.datlen
  {
  }

  // ---- db_store() writing the index record of a reused one ----

  lemma ReuseIdxPlace(f: Files, a: Abs, z: Proc, op: Op, a': Abs)
    requires ProcOk(f, a, z) && z.pc.ReuseIdx? && a'.lists == a.lists && BASE <= z.off
    ensures z.op.StoreOp? && z.off in f.body && z.off <= PTR_MAX
    ensures AccessOf(z) == PutRec(z.off, z.chainptr, NewRec(z)) && HeadOf(z) in f.ptr && z.chainptr == f.ptr[HeadOf(z)]
    ensures NewRec(z).datoff == f.body[z.off].datoff && NewRec(z).datlen == f.body[z.off].datlen
    ensures |NewRec(z).key| == |f.body[z.off].key|
    ensures
      var f', z' := SetRec(f, z.off, z.chainptr, NewRec(z)), Resume(z, Empty, op);
      PlaceOk(f', a', z') && z' == z.(pc := LinkHead) && Gap(z) == Gap(z')
    ensures forall m :: CallStep(CallOf(z), m, CallOf(Resume(z, Empty, op)), m)
  {
    hide Hash, AtChain, AtFree, RecordRead;
    HeadIsRoot(ChainOf(z));
  }

  function WriteRec(a: Abs, z: Proc): Abs {
    a.(vptr := a.vptr[z.off := z.chainptr])
  }

  /** A record of the same sizes prints at the same length. */
  lemma SameSize(b: Body, c: Body)
    requires BodyOk(b) && |c.key| == |b.key| && c.datoff == b.datoff && c.datlen == b.datlen
    ensures BodyOk(c) && Size(c) == Size(b)
  {
  }

  lemma ReuseIdxStep(s: State, a: Abs, p: nat, op: Op)
    requires Inv(s, a) && p < |s.procs| && Enabled(s, p) && s.procs[p].pc.ReuseIdx?
    ensures
      var a' := WriteRec(a, s.procs[p]);
      Inv(Next(s, p, op), a') && ObjectStep(Object(s, a), Object(Next(s, p, op), a'), p)
  {
    hide Inv, FilesOk, VptrOk, OwnOk, ContentsOk, LocksOk, ListsOk, ProcOk, PlaceOk, CallStep, Object, ObjectStep, Kept;
    hide Enabled, AccessOf, Gap, Resume, Live, NewRec, BodyOk;
    var z, s', a' := s.procs[p], Next(s, p, op), WriteRec(a, s.procs[p]);
    ProcFacts(s, a, p);
    HandFacts(s, a, p);
    ReuseIdxPlace(s.files, a, z, op, a');
    var b := NewRec(z);
    InvFiles(s, a);
    InvLists(s, a);
    AllRecordFacts(s.files);
    RecordFacts(s.files, z.off);
    SameSize(s.files.body[z.off], b);
    RewriteOk(s.files, z.off, z.chainptr, b);
    RewriteOwnOk(a.vptr, s.files.body, a.lists, a.own.Keys, z.off, z.chainptr, b);
    assert a.own.Keys + {z.off} == a.own.Keys;
    UnlinkersNotAt(s, a, z.off);
    VptrWrite(s, a, s', a', p, z.off, z.chainptr);
    RewriteOwn(s, a, s', a', p, b);
    LiveAll(s, a);
    ContentsByRec(s, a, s', a', p, z.off, b);
    forall q | 0 <= q < |s.procs| && q != p ensures Kept(s.files, a, s'.files, a', s.procs[q]) {
      KeptByRec(s, a, p, q, z.off, z.chainptr, b, a');
    }
    Assemble(s, a, p, op, a');
  }

  // ---- db_store() appending an index record ----

  lemma AppendIdxPlace(f: Files, a: Abs, z: Proc, op: Op, a': Abs)
    requires ProcOk(f, a, z) && z.pc.AppendIdx? && a'.lists == a.lists && BASE <= z.off
    ensures z.op.StoreOp? && BodyOk(NewRec(z)) && z.off == f.iend
    ensures AccessOf(z) == PutRec(z.off, z.chainptr, NewRec(z)) && HeadOf(z) in f.ptr && z.chainptr == f.ptr[HeadOf(z)]
    ensures NewRec(z).datoff in f.dat && NewRec(z).datlen == |f.dat[NewRec(z).datoff]| + 1
    ensures
      var f', z' := SetRec(f, z.off, z.chainptr, NewRec(z)), Resume(z, Empty, op);
      PlaceOk(f', a', z') && z' == z.(pc := UnlockIdx) && Gap(z) == Gap(z')
    ensures forall m :: CallStep(CallOf(z), m, CallOf(Resume(z, Empty, op)), m)
  {
    hide Hash, AtChain, AtFree, RecordRead, LengthOk, Fits, IsCString, Resume, CallStep, Gap;
    HeadIsRoot(ChainOf(z));
    AppendIdxNext(z, op);
  }

  lemma AppendIdxNext(z: Proc, op: Op)
    requires CallOk(z) && z.pc.AppendIdx?
    ensures Resume(z, Empty, op) == z.(pc := UnlockIdx) && Gap(z) == Gap(z.(pc := UnlockIdx))
    ensures forall m :: CallStep(CallOf(z), m, CallOf(Resume(z, Empty, op)), m)
  {
    hide Hash, IsCString, LengthOk;
  }

  function AddRec(a: Abs, z: Proc, p: nat): Abs {
    a.(vptr := a.vptr[z.off := z.chainptr], own := a.own[z.off := p])
  }

  lemma AppendIdxOwn(s: State, a: Abs, s': State, a': Abs, p: nat, b: Body)
    requires OwnOk(s, a) && p < |s.procs| == |s'.procs| && s'.procs == s.procs[p := s'.procs[p]]
    requires !Owns(s.procs[p].pc) && Owns(s'.procs[p].pc) && s'.procs[p].off == s.procs[p].off
    requires OwnsDat(s.procs[p].pc) && !OwnsDat(s'.procs[p].pc)
    requires
      var o := s.procs[p].off;
      && o !in s.files.body && o !in a.own && s'.files.body == s.files.body[o := b] && b.datoff == s.procs[p].datoff
      && !Live(s'.files.body, a.lists, o)
    requires a'.own == a.own[s.procs[p].off := p] && a'.lists == a.lists
    ensures OwnOk(s', a')
  {
    hide Owns, OwnsDat, IsCString;
  }

  lemma EndFacts(s: State, a: Abs, p: nat)
    requires Inv(s, a) && p < |s.procs| && s.procs[p].pc.AppendIdx?
    ensures s.procs[p].off == s.files.iend && s.files.iend !in s.files.body && BASE <= s.files.iend && s.files.iend !in a.own
    ensures !Live(s.files.body, a.lists, s.files.iend)
    ensures forall o <- s.files.body :: s.files.body[o].datoff != s.procs[p].datoff
  {
    hide FilesOk, VptrOk, ListsOk, ContentsOk, LocksOk, ChainPlace, FreePlace, HandPlace, CallOk;
    ProcFacts(s, a, p);
    InvFiles(s, a);
    Database.AppendPlace(s.files);
    OwnBodies(s, a);
  }

  lemma AppendIdxStep(s: State, a: Abs, p: nat, op: Op)
    requires Inv(s, a) && p < |s.procs| && Enabled(s, p) && s.procs[p].pc.AppendIdx?
    ensures
      var a' := AddRec(a, s.procs[p], p);
      Inv(Next(s, p, op), a') && ObjectStep(Object(s, a), Object(Next(s, p, op), a'), p)
  {
    hide Inv, FilesOk, VptrOk, OwnOk, ContentsOk, LocksOk, ListsOk, ProcOk, PlaceOk, CallStep, Object, ObjectStep, Kept;
    hide Enabled, AccessOf, Gap, Resume, Live, NewRec, BodyOk;
    var z, s', a' := s.procs[p], Next(s, p, op), AddRec(a, s.procs[p], p);
    ProcFacts(s, a, p);
    EndFacts(s, a, p);
    AppendIdxPlace(s.files, a, z, op, a');
    var b := NewRec(z);
    NewRecDat(z);
    InvFiles(s, a);
    InvLists(s, a);
    AllRecordFacts(s.files);
    AppendRecOk(s.files, z.chainptr, b);
    RewriteOwnOk(a.vptr, s.files.body, a.lists, a.own.Keys, z.off, z.chainptr, b);
    assert a'.own.Keys == a.own.Keys + {z.off};
    UnlinkersNotAt(s, a, z.off);
    VptrWrite(s, a, s', a', p, z.off, z.chainptr);
    AppendIdxOwn(s, a, s', a', p, b);
    LiveAll(s, a);
    ContentsByRec(s, a, s', a', p, z.off, b);
    forall q | 0 <= q < |s.procs| && q != p ensures Kept(s.files, a, s'.files, a', s.procs[q]) {
      KeptByRec(s, a, p, q, z.off, z.chainptr, b, a');
    }
    Assemble(s, a, p, op, a');
  }

  lemma NewRecDat(z: Proc)
    requires z.op.StoreOp?
    ensures NewRec(z).datoff == z.datoff && NewRec(z).key == KeyOf(z.op)
  {
  }
}
