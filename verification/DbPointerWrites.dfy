/** The steps that write a chain pointer. */
module DbPointerWrites {
  import opened Common
  import opened IndexRecord
  import opened Links
  import opened DbStore
  import opened Database
  import opened DbProcesses
  import opened DbInvariant
  import opened DbFrame
  import opened DbReads
  import opened DbWrites
  import opened DbRecordWrites

  /** The lists a process relies on are the same. */
  ghost predicate ListsKept(a: Abs, a': Abs, z: Proc) {
    && (HoldsChain(z.pc) && |a.lists.chains| == NHASH ==>
          && |a'.lists.chains| == NHASH && a'.lists.chains[ChainOf(z)] == a.lists.chains[ChainOf(z)])
    && (HoldsChain(z.pc) && KeyOf(z.op) !in a.lists.at ==> KeyOf(z.op) !in a'.lists.at)
    && (HoldsFree(z.pc) ==> a'.lists.free == a.lists.free)
  }

  /** The field at l is none a process relies on. */
  ghost predicate FieldFree(a: Abs, z: Proc, l: nat) {
    && (HoldsChain(z.pc) ==> l != HeadOf(z) && (|a.lists.chains| == NHASH ==> l !in a.lists.chains[ChainOf(z)]))
    && (HoldsFree(z.pc) ==> l != FREE_OFF && l !in a.lists.free)
    && (Owns(z.pc) ==> l != z.off)
  }

  lemma KeptByPtr(f: Files, a: Abs, z: Proc, l: nat, v: nat, a': Abs)
    requires ListsKept(a, a', z) && FieldFree(a, z, l)
    ensures Kept(f, a, SetPtr(f, l, v), a', z)
  {
    hide Hash, HoldsChain, HoldsFree, Owns, OwnsDat, HoldsDat, HoldsIdx, Filled;
  }

  /** A writer's chain is nobody else's. */
  lemma ChainMine(s: State, a: Abs, p: nat, q: nat)
    requires Inv(s, a) && p < |s.procs| && q < |s.procs| && p != q
    requires HoldsChain(s.procs[p].pc) && !s.procs[p].op.FetchOp? && HoldsChain(s.procs[q].pc)
    ensures ChainOf(s.procs[p]) != ChainOf(s.procs[q])
  {
    hide FilesOk, VptrOk, OwnOk, ContentsOk, ListsOk, LocksOk, ProcOk, Hash;
    Exclusion(s, p, q);
  }

  lemma InvLocks(s: State, a: Abs)
    requires Inv(s, a)
    ensures LocksOk(s)
  {
    hide FilesOk, LocksOk, ListsOk, VptrOk, ContentsOk, ProcOk, OwnOk;
  }

  /** Records of a list are past the hash table, and none is in hand. */
  lemma ListedFacts(s: State, a: Abs)
    requires Inv(s, a)
    ensures |a.lists.chains| == NHASH
    ensures forall h, o | 0 <= h < NHASH && OnChain(a.lists, h, o) ::
      BASE <= o && o !in a.own && o !in a.lists.free && o in s.files.body && Hash(s.files.body[o].key) == h
    ensures forall o <- a.lists.free :: BASE <= o && o !in a.own && o in s.files.body
  {
    hide LocksOk, VptrOk, OwnOk, ContentsOk, ProcOk, AllLinked, Hash, FilesOk;
    InvFiles(s, a);
    AllRecordFacts(s.files);
  }

  lemma OwnFacts(s: State, a: Abs, q: nat)
    requires Inv(s, a) && q < |s.procs| && Owns(s.procs[q].pc)
    ensures s.procs[q].off in a.own && BASE <= s.procs[q].off
  {
    hide Inv;
    HandFacts(s, a, q);
  }

  /** The free-list pointer belongs to whoever holds the free list. */
  lemma FreeFieldFree(s: State, a: Abs, p: nat, q: nat, l: nat)
    requires Inv(s, a) && p < |s.procs| && q < |s.procs| && p != q && HoldsFree(s.procs[p].pc)
    requires l == FREE_OFF || l in a.lists.free
    ensures FieldFree(a, s.procs[q], l)
  {
    hide Inv, HoldsFree, HoldsChain, Owns, Hash;
    InvLocks(s, a);
    Exclusion(s, p, q);
    ListedFacts(s, a);
    HeadIsRoot(ChainOf(s.procs[q]));
    var z := s.procs[q];
    assert OnChain(a.lists, ChainOf(z), l) <==> l in a.lists.chains[ChainOf(z)];
    if Owns(z.pc) {
      OwnFacts(s, a, q);
    }
  }

  /** The fields of a chain belong to the process that writes it. */
  lemma ChainFieldFree(s: State, a: Abs, p: nat, q: nat, l: nat)
    requires Inv(s, a) && p < |s.procs| && q < |s.procs| && p != q
    requires HoldsChain(s.procs[p].pc) && !s.procs[p].op.FetchOp? && |a.lists.chains| == NHASH
    requires l == HeadOf(s.procs[p]) || l in a.lists.chains[ChainOf(s.procs[p])]
    ensures FieldFree(a, s.procs[q], l)
  {
    hide Inv, HoldsFree, HoldsChain, Owns, Hash;
    ListedFacts(s, a);
    var x, z := s.procs[p], s.procs[q];
    HeadIsRoot(ChainOf(x));
    HeadIsRoot(ChainOf(z));
    assert OnChain(a.lists, ChainOf(x), l) <==> l in a.lists.chains[ChainOf(x)];
    assert OnChain(a.lists, ChainOf(z), l) <==> l in a.lists.chains[ChainOf(z)];
    if HoldsChain(z.pc) {
      ChainMine(s, a, p, q);
      HeadsDiffer(ChainOf(x), ChainOf(z));
    }
    if Owns(z.pc) {
      OwnFacts(s, a, q);
    }
  }

  // ---- _db_dodelete() writing the free-list pointer ----

  function PushedFree(a: Abs, o: nat): Abs {
    a.(vptr := a.vptr[FREE_OFF := o], lists := a.lists.(free := [o] + a.lists.free), own := a.own - {o})
  }

  lemma SetFreePlace(f: Files, a: Abs, z: Proc, op: Op)
    requires ProcOk(f, a, z) && z.pc.SetFree?
    ensures z.off in f.body && z.off <= PTR_MAX && AllBlank(f.body[z.off].key) && AccessOf(z) == PutPtr(FREE_OFF, z.off)
    ensures FREE_OFF in f.ptr && z.off in f.ptr && f.ptr[z.off] == f.ptr[FREE_OFF]
    ensures
      var f', z' := SetPtr(f, FREE_OFF, z.off), Resume(z, Empty, op);
      PlaceOk(f', PushedFree(a, z.off), z') && z' == z.(pc := UnlinkRec) && Gap(z) == Gap(z')
    ensures forall m :: CallStep(CallOf(z), m, CallOf(Resume(z, Empty, op)), m)
  {
    hide Hash, AtChain, AtFree, RecordRead;
  }

  /** An unlinking process is about to write on its chain, not the free-list pointer. */
  lemma UnlinkerApart(s: State, a: Abs, r: nat)
    requires Inv(s, a) && r < |s.procs| && Unlinking(s.procs[r].pc)
    ensures s.procs[r].ptroff != FREE_OFF
    ensures Owns(s.procs[r].pc) ==> s.procs[r].ptroff != s.procs[r].off
  {
    hide Inv, Hash, Unlinking, Owns;
    UnlinkerField(s, a, r);
    ListedFacts(s, a);
    var z := s.procs[r];
    HeadIsRoot(ChainOf(z));
    assert OnChain(a.lists, ChainOf(z), z.ptroff) <==> z.ptroff in a.lists.chains[ChainOf(z)];
    if Owns(z.pc) {
      OwnFacts(s, a, r);
    }
  }

  /** What the list sees at a place no unlinking process is about to write. */
  lemma SeenTrue(s: State, a: Abs, l: nat)
    requires VptrOk(s, a) && l in s.files.ptr
    requires forall r | 0 <= r < |s.procs| && Unlinking(s.procs[r].pc) :: s.procs[r].ptroff != l
    ensures l in a.vptr && a.vptr[l] == s.files.ptr[l]
  {
    hide Unlinking;
    if r: nat :| r < |s.procs| && Unlinking(s.procs[r].pc) {
      assert s.procs[r].ptroff != l;
    }
  }

  /** A record leaves the hands of p. */
  lemma HandsOver(s: State, a: Abs, s': State, a': Abs, p: nat)
    requires OwnOk(s, a) && p < |s.procs| == |s'.procs| && s'.procs == s.procs[p := s'.procs[p]]
    requires Owns(s.procs[p].pc) && !Owns(s'.procs[p].pc) && !OwnsDat(s'.procs[p].pc)
    requires s'.files.body == s.files.body && a'.own == a.own - {s.procs[p].off}
    requires forall o | o != s.procs[p].off :: Live(s.files.body, a'.lists, o) ==> Live(s.files.body, a.lists, o)
    ensures OwnOk(s', a')
  {
    hide Owns, OwnsDat, Live;
  }

  /** A record comes into the hands of p. */
  lemma TakesInHand(s: State, a: Abs, s': State, a': Abs, p: nat)
    requires OwnOk(s, a) && p < |s.procs| == |s'.procs| && s'.procs == s.procs[p := s'.procs[p]]
    requires !Owns(s.procs[p].pc) && Owns(s'.procs[p].pc) && !OwnsDat(s'.procs[p].pc)
    requires s'.files.body == s.files.body && s'.procs[p].off !in a.own && a'.own == a.own[s'.procs[p].off := p]
    requires !Live(s.files.body, a'.lists, s'.procs[p].off)
    requires forall o :: Live(s.files.body, a'.lists, o) ==> Live(s.files.body, a.lists, o)
    ensures OwnOk(s', a')
  {
    hide Owns, OwnsDat, Live;
  }

  /** A pointer write, with the map and the live records as they were. */
  lemma ContentsByPtr(s: State, a: Abs, s': State, a': Abs, p: nat)
    requires ContentsOk(s, a) && p < |s.procs| == |s'.procs| && s'.procs == s.procs[p := s'.procs[p]]
    requires s'.files.body == s.files.body && s'.files.dat == s.files.dat
    requires a'.lists.at == a.lists.at && a'.gap == a.gap && a'.m == a.m
    requires Gap(s'.procs[p]) == Gap(s.procs[p]) && KeyOf(s'.procs[p].op) == KeyOf(s.procs[p].op)
    ensures ContentsOk(s', a')
  {
    hide Gap, DataOf;
    forall k <- a.lists.at ensures DataOf(s'.files, a.lists.at[k]) == DataOf(s.files, a.lists.at[k]) {
      SameData(s.files, s'.files, a.lists.at[k]);
    }
  }

  lemma SameData(f: Files, f': Files, x: nat)
    requires f'.body == f.body && f'.dat == f.dat
    ensures DataOf(f', x) == DataOf(f, x)
  {
  }

  lemma SetFreeStep(s: State, a: Abs, p: nat, op: Op)
    requires Inv(s, a) && p < |s.procs| && Enabled(s, p) && s.procs[p].pc.SetFree?
    ensures
      var a' := PushedFree(a, s.procs[p].off);
      Inv(Next(s, p, op), a') && ObjectStep(Object(s, a), Object(Next(s, p, op), a'), p)
  {
    hide Inv, FilesOk, VptrOk, OwnOk, ContentsOk, LocksOk, ListsOk, ProcOk, PlaceOk, CallStep, Object, ObjectStep, Kept;
    hide Enabled, AccessOf, Gap, Resume, Live, FieldFree;
    var z, s', a' := s.procs[p], Next(s, p, op), PushedFree(a, s.procs[p].off);
    ProcFacts(s, a, p);
    HandFacts(s, a, p);
    SetFreePlace(s.files, a, z, op);
    InvFiles(s, a);
    InvLists(s, a);
    AllRecordFacts(s.files);
    SetPtrOk(s.files, FREE_OFF, z.off);
    forall r | 0 <= r < |s.procs| && Unlinking(s.procs[r].pc) ensures s.procs[r].ptroff != FREE_OFF {
      UnlinkerApart(s, a, r);
    }
    UnlinkersNotAt(s, a, z.off);
    SeenTrue(s, a, FREE_OFF);
    SeenTrue(s, a, z.off);
    VptrWrite(s, a, s', a', p, FREE_OFF, z.off);
    SeenKeys(s, a);
    PushFreeOk(a.vptr, s.files.body, a.lists, a.own.Keys, z.off);
    assert a'.own.Keys == a.own.Keys - {z.off};
    SameLive(s.files.body, a.lists, a'.lists);
    HandsOver(s, a, s', a', p);
    ContentsByPtr(s, a, s', a', p);
    forall q | 0 <= q < |s.procs| && q != p ensures Kept(s.files, a, s'.files, a', s.procs[q]) {
      FreeFieldFree(s, a, p, q, FREE_OFF);
      FreeIsMine(s, a, p, q);
      KeptByPtr(s.files, a, s.procs[q], FREE_OFF, z.off, a');
    }
    Assemble(s, a, p, op, a');
  }

  lemma SeenKeys(s: State, a: Abs)
    requires Inv(s, a)
    ensures a.vptr.Keys == s.files.ptr.Keys
    ensures forall o <- s.files.body :: BASE <= o && o in a.vptr
  {
    hide LocksOk, ListsOk, OwnOk, ContentsOk, ProcOk, FilesOk;
    InvFiles(s, a);
    AllRecordFacts(s.files);
  }

  lemma SameLive(body: map<nat, Body>, a: Lists, b: Lists)
    requires a.at == b.at
    ensures forall o :: Live(body, a, o) <==> Live(body, b, o)
  {
  }

  lemma FreeIsMine(s: State, a: Abs, p: nat, q: nat)
    requires Inv(s, a) && p < |s.procs| && q < |s.procs| && p != q && HoldsFree(s.procs[p].pc)
    ensures !HoldsFree(s.procs[q].pc)
  {
    hide Inv, HoldsFree, HoldsChain, HoldsDat, HoldsIdx;
    InvLocks(s, a);
    Exclusion(s, p, q);
  }

  // ---- _db_dodelete() writing the pointer that led to the record ----

  lemma UnlinkRecPlace(f: Files, a: Abs, z: Proc, op: Op)
    requires ProcOk(f, a, z) && z.pc.UnlinkRec?
    ensures AccessOf(z) == PutPtr(z.ptroff, z.ptrval) && !z.op.FetchOp?
    ensures
      var f', z' := SetPtr(f, z.ptroff, z.ptrval), Resume(z, Empty, op);
      PlaceOk(f', a, z') && z' == z.(pc := UnlockFreeD) && Gap(z) == Gap(z')
    ensures forall m :: CallStep(CallOf(z), m, CallOf(Resume(z, Empty, op)), m)
  {
    hide Hash, AtChain, AtFree, RecordRead;
  }

  lemma UnlinkDone(s: State, a: Abs, s': State, p: nat)
    requires VptrOk(s, a) && p < |s.procs| == |s'.procs| && s'.procs == s.procs[p := s'.procs[p]]
    requires Unlinking(s.procs[p].pc) && !Unlinking(s'.procs[p].pc)
    requires forall r | 0 <= r < |s.procs| && r != p :: !Unlinking(s.procs[r].pc)
    requires s'.files.ptr == s.files.ptr[s.procs[p].ptroff := s.procs[p].ptrval]
    ensures VptrOk(s', a)
  {
    hide Unlinking;
  }

  lemma OwnUntouched(s: State, a: Abs, s': State, p: nat)
    requires OwnOk(s, a) && p < |s.procs| == |s'.procs| && s'.procs == s.procs[p := s'.procs[p]]
    requires s'.files.body == s.files.body
    requires !Owns(s.procs[p].pc) && !Owns(s'.procs[p].pc) && !OwnsDat(s'.procs[p].pc)
    ensures OwnOk(s', a)
  {
    hide Owns, OwnsDat, Live;
  }

  /** Unlinking goes on under the free-list lock, one process at a time. */
  lemma OneUnlinker(s: State, a: Abs, p: nat)
    requires Inv(s, a) && p < |s.procs| && HoldsFree(s.procs[p].pc)
    ensures forall r | 0 <= r < |s.procs| && r != p :: !Unlinking(s.procs[r].pc)
  {
    hide Inv;
    forall r | 0 <= r < |s.procs| && r != p ensures !Unlinking(s.procs[r].pc) {
      FreeIsMine(s, a, p, r);
    }
  }

  lemma UnlinkRecStep(s: State, a: Abs, p: nat, op: Op)
    requires Inv(s, a) && p < |s.procs| && Enabled(s, p) && s.procs[p].pc.UnlinkRec?
    ensures Inv(Next(s, p, op), a) && ObjectStep(Object(s, a), Object(Next(s, p, op), a), p)
  {
    hide Inv, FilesOk, VptrOk, OwnOk, ContentsOk, LocksOk, ListsOk, ProcOk, PlaceOk, CallStep, Object, ObjectStep, Kept, IndexTiles;
    hide Enabled, AccessOf, Gap, Resume, Live, FieldFree, Hash;
    var z, s' := s.procs[p], Next(s, p, op);
    ProcFacts(s, a, p);
    UnlinkerField(s, a, p);
    UnlinkRecPlace(s.files, a, z, op);
    InvFiles(s, a);
    InvLists(s, a);
    OneUnlinker(s, a, p);
    SetPtrOk(s.files, z.ptroff, z.ptrval);
    UnlinkDone(s, a, s', p);
    OwnUntouched(s, a, s', p);
    ContentsByPtr(s, a, s', a, p);
    forall q | 0 <= q < |s.procs| && q != p ensures Kept(s.files, a, s'.files, a, s.procs[q]) {
      ChainFieldFree(s, a, p, q, z.ptroff);
      KeptByPtr(s.files, a, s.procs[q], z.ptroff, z.ptrval, a);
    }
    Assemble(s, a, p, op, a);
  }

  // ---- _db_findfree() taking a record off the free list ----

  function PoppedFree(a: Abs, z: Proc, p: nat): Abs {
    if z.n < |a.lists.free| then
      a.(vptr := a.vptr[z.ptroff := z.ptrval], lists := a.lists.(free := Without(a.lists.free, z.n)), own := a.own[z.off := p])
    else a
  }

  lemma PopFreePlace(f: Files, a: Abs, z: Proc, op: Op, p: nat)
    requires ProcOk(f, a, z) && z.pc.PopFree? && HeadOf(z) != z.ptroff
    ensures z.n < |a.lists.free| && a.lists.free[z.n] == z.off && z.ptroff == Field(FREE_OFF, a.lists.free, z.n)
    ensures z.off in f.ptr && z.ptrval == f.ptr[z.off]
    ensures AccessOf(z) == PutPtr(z.ptroff, z.ptrval)
    ensures
      var f', z' := SetPtr(f, z.ptroff, z.ptrval), Resume(z, Empty, op);
      PlaceOk(f', PoppedFree(a, z, p), z') && z' == z.(pc := UnlockFreeHit) && Gap(z) == Gap(z')
    ensures forall m :: CallStep(CallOf(z), m, CallOf(Resume(z, Empty, op)), m)
  {
    hide Hash, AtChain;
  }

  lemma FreeFieldKnown(s: State, a: Abs, k: nat)
    requires Inv(s, a) && k < |a.lists.free|
    ensures
      var l := Field(FREE_OFF, a.lists.free, k);
      && l in s.files.ptr && (l == FREE_OFF || l in a.lists.free)
      && forall h :: 0 <= h < NHASH ==> HeadLoc(h) != l
  {
    hide LocksOk, ListsOk, OwnOk, ContentsOk, ProcOk, FilesOk;
    SeenOk(s, a);
    FreeFacts(Seen(s.files, a), a.lists, a.own.Keys, k);
    ListedFacts(s, a);
    assert k > 0 ==> a.lists.free[k - 1] in a.lists.free;
    forall h | 0 <= h < NHASH ensures HeadLoc(h) != Field(FREE_OFF, a.lists.free, k) {
      HeadIsRoot(h);
    }
  }

  lemma PopFreeStep(s: State, a: Abs, p: nat, op: Op)
    requires Inv(s, a) && p < |s.procs| && Enabled(s, p) && s.procs[p].pc.PopFree?
    ensures
      var a' := PoppedFree(a, s.procs[p], p);
      Inv(Next(s, p, op), a') && ObjectStep(Object(s, a), Object(Next(s, p, op), a'), p)
  {
    hide Inv, FilesOk, VptrOk, OwnOk, ContentsOk, LocksOk, ListsOk, ProcOk, PlaceOk, CallStep, Object, ObjectStep, Kept;
    hide Enabled, AccessOf, Gap, Resume, Live, FieldFree, Hash;
    var z, s', a' := s.procs[p], Next(s, p, op), PoppedFree(a, s.procs[p], p);
    ProcFacts(s, a, p);
    AtFreeOf(s.files, a, z);
    FreeFieldKnown(s, a, z.n);
    PopFreePlace(s.files, a, z, op, p);
    InvFiles(s, a);
    InvLists(s, a);
    AllRecordFacts(s.files);
    FreePtrTrue(s, a, p);
    SeenKeys(s, a);
    SetPtrOk(s.files, z.ptroff, z.ptrval);
    VptrWrite(s, a, s', a', p, z.ptroff, z.ptrval);
    PopFreeOk(a.vptr, s.files.body, a.lists, a.own.Keys, z.n);
    assert a'.own.Keys == a.own.Keys + {z.off};
    SameLive(s.files.body, a.lists, a'.lists);
    TakesInHand(s, a, s', a', p);
    ContentsByPtr(s, a, s', a', p);
    forall q | 0 <= q < |s.procs| && q != p ensures Kept(s.files, a, s'.files, a', s.procs[q]) {
      FreeFieldFree(s, a, p, q, z.ptroff);
      FreeIsMine(s, a, p, q);
      KeptByPtr(s.files, a, s.procs[q], z.ptroff, z.ptrval, a');
    }
    Assemble(s, a, p, op, a');
  }

  lemma AtFreeOf(f: Files, a: Abs, z: Proc)
    requires ProcOk(f, a, z) && z.pc.PopFree?
    ensures AtFree(f, a, z)
  {
    hide CallOk, ChainPlace, HandPlace, TailPlace;
  }

  // ---- db_store() putting its record on the front of the chain ----

  function Linked'(a: Abs, z: Proc): Abs
    requires z.op.StoreOp? && |a.lists.chains| == NHASH
  {
    a.(vptr := a.vptr[HeadOf(z) := z.off], lists := PushChain(a.lists, z.off, KeyOf(z.op)), own := a.own - {z.off},
       gap := a.gap - {KeyOf(z.op)}, m := a.m[KeyOf(z.op) := z.op.data])
  }

  lemma LinkHeadPlace(f: Files, a: Abs, z: Proc, op: Op)
    requires ProcOk(f, a, z) && z.pc.LinkHead? && z.off <= PTR_MAX && |a.lists.chains| == NHASH
    ensures z.op.StoreOp? && AccessOf(z) == PutPtr(HeadOf(z), z.off) && KeyOf(z.op) !in a.lists.at
    ensures z.off in f.body && z.off in f.ptr && HeadOf(z) in f.ptr && f.ptr[z.off] == f.ptr[HeadOf(z)]
    ensures f.body[z.off].key == KeyOf(z.op) && f.body[z.off].datoff in f.dat && f.dat[f.body[z.off].datoff] == z.op.data
    ensures
      var f', z' := SetPtr(f, HeadOf(z), z.off), Resume(z, Empty, op);
      PlaceOk(f', Linked'(a, z), z') && z' == z.(pc := UnlockChain, result := Some(Code(0)))
    ensures z.result.None? && FlagOk(z.op.flag)
    ensures Gap(z) <==> z.regrow
    ensures z.regrow ==> z.op.flag != DB_INSERT
    ensures !z.regrow ==> z.op.flag != DB_REPLACE
  {
    hide Hash, AtChain, AtFree, RecordRead, IsCString, AllBlank, PlaceOk, Resume;
    LinkHeadKnown(f, a, z);
    LinkHeadNext(z, op);
    PlaceOnChain(SetPtr(f, HeadOf(z), z.off), Linked'(a, z), Resume(z, Empty, op));
  }

  lemma LinkHeadKnown(f: Files, a: Abs, z: Proc)
    requires PlaceOk(f, a, z) && z.pc.LinkHead?
    ensures z.op.StoreOp? && KeyOf(z.op) !in a.lists.at
    ensures z.off in f.body && z.off in f.ptr && HeadOf(z) in f.ptr && f.ptr[z.off] == f.ptr[HeadOf(z)]
    ensures f.body[z.off].key == KeyOf(z.op) && f.body[z.off].datoff in f.dat && f.dat[f.body[z.off].datoff] == z.op.data
  {
    hide Hash, AtChain, AtFree, RecordRead, IsCString, LengthOk;
  }

  lemma LinkHeadNext(z: Proc, op: Op)
    requires CallOk(z) && z.pc.LinkHead?
    ensures Resume(z, Empty, op) == z.(pc := UnlockChain, result := Some(Code(0)))
  {
    hide Hash, IsCString, LengthOk;
  }

  lemma LinkCall(s: State, a: Abs, p: nat, op: Op)
    requires p < |s.procs| && s.procs[p].pc.LinkHead? && s.procs[p].op.StoreOp? && |a.lists.chains| == NHASH
    requires
      var z := s.procs[p];
      && z.result.None? && FlagOk(z.op.flag) && (Gap(z) <==> z.regrow)
      && (z.regrow ==> z.op.flag != DB_INSERT) && (!z.regrow ==> z.op.flag != DB_REPLACE)
      && KeyOf(z.op) !in a.lists.at && (if Gap(z) then KeyOf(z.op) in a.m else KeyOf(z.op) !in a.m)
    ensures
      var z := s.procs[p];
      CallStep(CallOf(z), a.m, CallOf(z.(pc := UnlockChain, result := Some(Code(0)))), Linked'(a, z).m)
  {
    hide Gap, PushChain, HeadOf;
  }

  lemma LinkGap(s: State, a: Abs, p: nat)
    requires Inv(s, a) && p < |s.procs| && s.procs[p].pc.LinkHead? && KeyOf(s.procs[p].op) !in a.lists.at
    ensures
      var z, k := s.procs[p], KeyOf(s.procs[p].op);
      if Gap(z) then k in a.m && k in a.gap && a.gap[k] == p else k !in a.m && k !in a.gap
  {
    hide FilesOk, VptrOk, ListsOk, OwnOk, LocksOk, ProcOk, Gap;
    if !Gap(s.procs[p]) {
      NotInGap(s, a, p);
    }
  }

  lemma LinkContents(s: State, a: Abs, s': State, a': Abs, p: nat)
    requires LiveOk(s.files, a) && ContentsOk(s, a) && |a.lists.chains| == NHASH
    requires p < |s.procs| == |s'.procs| && s'.procs == s.procs[p := s'.procs[p]]
    requires s'.files.body == s.files.body && s'.files.dat == s.files.dat
    requires !Gap(s'.procs[p])
    requires
      var z := s.procs[p];
      && z.op.StoreOp? && a' == Linked'(a, z) && DataOf(s.files, z.off) == z.op.data
      && (if Gap(z) then KeyOf(z.op) in a.gap && a.gap[KeyOf(z.op)] == p else KeyOf(z.op) !in a.gap)
    ensures ContentsOk(s', a')
  {
    hide Gap, DataOf, Hash, IsCString, KeyOf;
    forall o ensures DataOf(s'.files, o) == DataOf(s.files, o) {
      SameData(s.files, s'.files, o);
    }
  }

  lemma LinkKept(s: State, a: Abs, p: nat, q: nat)
    requires Inv(s, a) && p < |s.procs| && q < |s.procs| && p != q && s.procs[p].pc.LinkHead? && s.procs[p].op.StoreOp?
    requires |a.lists.chains| == NHASH
    ensures Kept(s.files, a, SetPtr(s.files, HeadOf(s.procs[p]), s.procs[p].off), Linked'(a, s.procs[p]), s.procs[q])
  {
    hide Inv, Kept, Hash, FieldFree;
    ChainFieldFree(s, a, p, q, HeadOf(s.procs[p]));
    if HoldsChain(s.procs[q].pc) {
      ChainMine(s, a, p, q);
    }
    KeptByPtr(s.files, a, s.procs[q], HeadOf(s.procs[p]), s.procs[p].off, Linked'(a, s.procs[p]));
  }

  /** The state after the write. */
  ghost predicate LinkWritten(s: State, p: nat, s': State)
    requires p < |s.procs|
  {
    var z := s.procs[p];
    && |s'.procs| == |s.procs| && s'.procs == s.procs[p := z.(pc := UnlockChain, result := Some(Code(0)))]
    && s'.files == SetPtr(s.files, HeadOf(z), z.off)
  }

  lemma NotAtHead(s: State, a: Abs, p: nat)
    requires Inv(s, a) && p < |s.procs| && s.procs[p].pc.LinkHead? && s.procs[p].op.StoreOp? && |a.lists.chains| == NHASH
    ensures forall r | 0 <= r < |s.procs| && Unlinking(s.procs[r].pc) :: s.procs[r].ptroff != HeadOf(s.procs[p])
  {
    hide Inv, Hash, IsCString, Unlinking, HeadOf;
    var z := s.procs[p];
    assert HoldsChain(z.pc) && !Unlinking(z.pc) by {
      AtLinkHead(z);
    }
    forall r | 0 <= r < |s.procs| && Unlinking(s.procs[r].pc) ensures s.procs[r].ptroff != HeadOf(z) {
      UnlinkerElsewhere(s, a, p, r, HeadOf(z));
    }
  }

  lemma AtLinkHead(z: Proc)
    requires z.pc.LinkHead? || z.pc.UnlockChain?
    ensures HoldsChain(z.pc) && !Unlinking(z.pc)
  {
  }

  lemma LinkVptr(s: State, a: Abs, p: nat, s': State)
    requires Inv(s, a) && p < |s.procs| && s.procs[p].pc.LinkHead? && s.procs[p].off <= PTR_MAX && s.procs[p].op.StoreOp?
    requires |a.lists.chains| == NHASH && LinkWritten(s, p, s')
    ensures VptrOk(s', Linked'(a, s.procs[p]))
  {
    hide Inv, FilesOk, VptrOk, ListsOk, OwnOk, ContentsOk, Hash, IsCString, Unlinking, HeadOf, KeyOf;
    var z := s.procs[p];
    InvLists(s, a);
    NotAtHead(s, a, p);
    AtLinkHead(z);
    AtLinkHead(s'.procs[p]);
    VptrWrite(s, a, s', Linked'(a, z), p, HeadOf(z), z.off);
  }

  lemma LinkLists(s: State, a: Abs, p: nat, s': State)
    requires Inv(s, a) && p < |s.procs| && s.procs[p].pc.LinkHead? && s.procs[p].op.StoreOp?
    requires |a.lists.chains| == NHASH && LinkWritten(s, p, s')
    requires
      var z := s.procs[p];
      && KeyOf(z.op) !in a.lists.at && z.off in s.files.body && s.files.body[z.off].key == KeyOf(z.op)
      && z.off in s.files.ptr && HeadOf(z) in s.files.ptr && s.files.ptr[z.off] == s.files.ptr[HeadOf(z)] && z.off in a.own
    ensures
      var a' := Linked'(a, s.procs[p]);
      ListsOk(a'.vptr, s'.files.body, a'.lists, a'.own.Keys) && OwnOk(s', a')
  {
    hide Inv, FilesOk, ListsOk, VptrOk, ContentsOk, OwnOk, Hash, Live, IsCString, FieldFree, Unlinking;
    var z, a' := s.procs[p], Linked'(a, s.procs[p]);
    InvFiles(s, a);
    InvLists(s, a);
    AllRecordFacts(s.files);
    UnlinkersNotAt(s, a, z.off);
    NotAtHead(s, a, p);
    SeenTrue(s, a, HeadOf(z));
    SeenTrue(s, a, z.off);
    SeenKeys(s, a);
    PushChainOk(a.vptr, s.files.body, a.lists, a.own.Keys, z.off);
    assert a'.own.Keys == a.own.Keys - {z.off};
    LiveAfterPush(s.files.body, a.lists, z.off, KeyOf(z.op));
    HandsOver(s, a, s', a', p);
  }

  lemma LinkHeadStep(s: State, a: Abs, p: nat, op: Op)
    requires Inv(s, a) && p < |s.procs| && Enabled(s, p) && s.procs[p].pc.LinkHead? && s.procs[p].off <= PTR_MAX
    ensures s.procs[p].op.StoreOp? && |a.lists.chains| == NHASH
    ensures
      var a' := Linked'(a, s.procs[p]);
      Inv(Next(s, p, op), a') && ObjectStep(Object(s, a), Object(Next(s, p, op), a'), p)
  {
    hide Inv, FilesOk, VptrOk, OwnOk, ContentsOk, LocksOk, ProcOk, PlaceOk, CallStep, Object, ObjectStep, Kept;
    hide Enabled, AccessOf, Gap, Resume, Live, FieldFree, Hash, AllLinked, Placed, IsCString;
    var z, s' := s.procs[p], Next(s, p, op);
    ProcFacts(s, a, p);
    HandFacts(s, a, p);
    InvFiles(s, a);
    InvLists(s, a);
    LinkHeadPlace(s.files, a, z, op);
    var a' := Linked'(a, z);
    LinkGap(s, a, p);
    LinkCall(s, a, p, op);
    AllRecordFacts(s.files);
    SetPtrOk(s.files, HeadOf(z), z.off);
    LinkVptr(s, a, p, s');
    LinkLists(s, a, p, s');
    LiveAll(s, a);
    DataFound(s.files, z.off, z.op.data);
    NotGap(s'.procs[p]);
    LinkContents(s, a, s', a', p);
    forall q | 0 <= q < |s.procs| && q != p ensures Kept(s.files, a, s'.files, a', s.procs[q]) {
      LinkKept(s, a, p, q);
    }
    Assemble(s, a, p, op, a');
  }

  lemma NotGap(z: Proc)
    ensures z.pc.UnlockChain? ==> !Gap(z)
  {
  }

  lemma DataFound(f: Files, o: nat, t: CString)
    requires o in f.body && f.body[o].datoff in f.dat && f.dat[f.body[o].datoff] == t
    ensures DataOf(f, o) == t
  {
  }

  lemma LiveAfterPush(body: map<nat, Body>, a: Lists, o: nat, key: CString)
    requires |a.chains| == NHASH && key !in a.at
    ensures forall x | x != o :: Live(body, PushChain(a, o, key), x) ==> Live(body, a, x)
  {
  }
}
