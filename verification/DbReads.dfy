/** The steps that write nothing: they read, lock, unlock, and settle the calls that leave the database as it is. */
module DbReads {
  import opened Common
  import opened IndexRecord
  import opened Links
  import opened DbStore
  import opened Database
  import opened DbProcesses
  import opened DbInvariant
  import opened DbFrame

  /** The files with the pointer fields as the lists see them. */
  function Seen(f: Files, a: Abs): Files {
    f.(ptr := a.vptr)
  }

  lemma SeenOk(s: State, a: Abs)
    requires Inv(s, a)
    ensures FilesOk(Seen(s.files, a))
    ensures ListsOk(Seen(s.files, a).ptr, Seen(s.files, a).body, a.lists, a.own.Keys)
  {
    hide BodiesOk, IndexTiles, DataTiles, ExtentsOk, ListsOk, LocksOk, OwnOk, ContentsOk, ProcOk;
  }

  lemma ProcFacts(s: State, a: Abs, p: nat)
    requires Inv(s, a) && p < |s.procs|
    ensures ProcOk(s.files, a, s.procs[p])
  {
    hide FilesOk, LocksOk, VptrOk, ListsOk, OwnOk, ContentsOk, ProcOk;
  }

  /** Where an unlinking process writes is on its own chain, out of reach of every other process. */
  lemma UnlinkerElsewhere(s: State, a: Abs, p: nat, r: nat, l: nat)
    requires Inv(s, a) && p < |s.procs| && r < |s.procs| && p != r
    requires HoldsChain(s.procs[p].pc) && Unlinking(s.procs[r].pc)
    requires |a.lists.chains| == NHASH
    requires l == HeadOf(s.procs[p]) || l in a.lists.chains[ChainOf(s.procs[p])]
    ensures s.procs[r].ptroff != l
  {
    hide FilesOk, VptrOk, ListsOk, OwnOk, ContentsOk, LocksOk, Hash, FreePlace, HandPlace, TailPlace;
    var x, z := s.procs[p], s.procs[r];
    Exclusion(s, p, r);
    SeenOk(s, a);
    var c := a.lists.chains[ChainOf(z)];
    assert z.n <= |c| && z.ptroff == Field(HeadOf(z), c, z.n);
    ChainsApart(Seen(s.files, a), a.lists, a.own.Keys, ChainOf(x), ChainOf(z), l, z.n);
  }

  lemma ChainsApart(f: Files, a: Lists, own: set<nat>, g: nat, h: nat, l: nat, k: nat)
    requires FilesOk(f) && ListsOk(f.ptr, f.body, a, own) && g < NHASH && h < NHASH && g != h
    requires (l == HeadLoc(g) || l in a.chains[g]) && k <= |a.chains[h]|
    ensures l != Field(HeadLoc(h), a.chains[h], k)
  {
    hide FilesOk, IsRoot, Linked, Hash;
    AllRecordFacts(f);
    HeadsDiffer(g, h);
    HeadIsRoot(g);
    HeadIsRoot(h);
    assert l in a.chains[g] ==> OnChain(a, g, l);
    if k > 0 {
      assert OnChain(a, h, a.chains[h][k - 1]);
    }
  }

  /** A process reads the true pointers of its chain ... */
  lemma ChainPtrTrue(s: State, a: Abs, p: nat, l: nat)
    requires Inv(s, a) && p < |s.procs| && HoldsChain(s.procs[p].pc) && !Unlinking(s.procs[p].pc)
    requires |a.lists.chains| == NHASH
    requires l == HeadOf(s.procs[p]) || l in a.lists.chains[ChainOf(s.procs[p])]
    ensures l in s.files.ptr ==> l in a.vptr && s.files.ptr[l] == a.vptr[l]
    ensures l in a.vptr ==> l in s.files.ptr
  {
    hide FilesOk, ListsOk, OwnOk, ContentsOk, LocksOk, Hash, ProcOk;
    if r: nat :| r < |s.procs| && Unlinking(s.procs[r].pc) {
      UnlinkerElsewhere(s, a, p, r, l);
    }
  }

  /** ... and, while it holds the free list, the true pointers everywhere. */
  lemma FreePtrTrue(s: State, a: Abs, p: nat)
    requires Inv(s, a) && p < |s.procs| && HoldsFree(s.procs[p].pc) && !Unlinking(s.procs[p].pc)
    ensures a.vptr == s.files.ptr
    ensures forall r :: 0 <= r < |s.procs| ==> !Unlinking(s.procs[r].pc)
  {
    hide FilesOk, ListsOk, OwnOk, ContentsOk, LocksOk, Hash, ProcOk;
    forall r | 0 <= r < |s.procs| ensures !Unlinking(s.procs[r].pc) {
      if r != p {
        Exclusion(s, p, r);
      }
    }
  }

  /** No other store is halfway through replacing the key of a process that holds its chain. */
  lemma NotInGap(s: State, a: Abs, p: nat)
    requires Inv(s, a) && p < |s.procs| && HoldsChain(s.procs[p].pc) && !Gap(s.procs[p])
    ensures KeyOf(s.procs[p].op) !in a.gap
  {
    hide FilesOk, ListsOk, OwnOk, VptrOk, LocksOk, Hash, PlaceOk, ResultPlace, Searching, IsCString;
    var k := KeyOf(s.procs[p].op);
    if k in a.gap {
      var q := a.gap[k];
      ProcFacts(s, a, q);
      Exclusion(s, p, q);
    }
  }

  /** What is known of the process after a step that writes nothing, and what its call looks like then. */
  ghost predicate Fine(s: State, a: Abs, p: nat, op: Op)
    requires p < |s.procs|
  {
    var z := s.procs[p];
    var z' := Resume(z, ReplyTo(s.files, AccessOf(z)), op);
    PlaceOk(s.files, a, z') && CallStep(CallOf(z), a.m, CallOf(z'), a.m)
  }

  /** The end of a chain: the key is in no record of it, and not in the map. */
  lemma MissFacts(s: State, a: Abs, p: nat, n: nat)
    requires Inv(s, a) && p < |s.procs| && HoldsChain(s.procs[p].pc) && !Gap(s.procs[p])
    requires |a.lists.chains| == NHASH
    requires
      var z, c := s.procs[p], a.lists.chains[ChainOf(s.procs[p])];
      n == |c| && forall j :: 0 <= j < n ==> c[j] in s.files.body && s.files.body[c[j]].key != KeyOf(z.op)
    ensures KeyOf(s.procs[p].op) !in a.lists.at && KeyOf(s.procs[p].op) !in a.m
    ensures a.m - {KeyOf(s.procs[p].op)} == a.m
  {
    hide FilesOk, OwnOk, VptrOk, LocksOk, Hash, ProcOk, AllLinked, Placed;
    NotInGap(s, a, p);
    SeenOk(s, a);
    var k := KeyOf(s.procs[p].op);
    if k in a.lists.at {
      KeyOnChain(Seen(s.files, a), a.lists, a.own.Keys, k);
    }
  }

  lemma HeadNext(z: Proc, n: nat, op: Op)
    requires z.pc.ReadHead? && CallOk(z)
    ensures
      var z' := Resume(z, Num(n), op);
      if n != 0 then z' == z.(pc := ReadHdr, ptroff := HeadOf(z), off := n, n := 0)
      else z'.pc == AfterMiss(z.op) && z'.op == z.op
    ensures forall m: map<CString, CString> | n != 0 || (m - {KeyOf(z.op)} == m && KeyOf(z.op) !in m) :: CallStep(CallOf(z), m, CallOf(Resume(z, Num(n), op)), m)
  {
    hide Hash, LengthOk, IsCString, HeadLoc;
  }

  lemma PlaceMissed(f: Files, a: Abs, z: Proc)
    requires z.pc.ReadChainPtr? || z.pc.UnlockChain?
    requires KeyOf(z.op) !in a.lists.at
    ensures PlaceOk(f, a, z)
  {
    hide AtChain, AtFree, RecordRead, Hash, LengthOk, IsCString;
  }

  lemma ReadHeadFine(s: State, a: Abs, p: nat, op: Op)
    requires Inv(s, a) && p < |s.procs| && s.procs[p].pc.ReadHead?
    ensures Fine(s, a, p, op)
  {
    hide FilesOk, OwnOk, ContentsOk, VptrOk, LocksOk, Hash, AllLinked, Placed, LengthOk, PlaceOk, CallOk, CallStep, Resume, IsCString;
    var z := s.procs[p];
    ProcFacts(s, a, p);
    SeenOk(s, a);
    ChainFacts(Seen(s.files, a), a.lists, a.own.Keys, ChainOf(z), 0);
    ChainPtrTrue(s, a, p, HeadOf(z));
    var n := s.files.ptr[HeadOf(z)];
    HeadNext(z, n, op);
    var z' := Resume(z, Num(n), op);
    if n == 0 {
      NoGapYet(z);
      MissFacts(s, a, p, 0);
      PlaceMissed(s.files, a, z');
    } else {
      PlaceOnChain(s.files, a, z');
    }
  }

  lemma NoGapYet(z: Proc)
    requires z.pc.ReadHead?
    ensures !Gap(z) && HoldsChain(z.pc)
  {
  }

  lemma HdrNext(z: Proc, n: nat, len: nat, op: Op)
    requires z.pc.ReadHdr? && CallOk(z)
    ensures Resume(z, Header(n, len), op) == z.(pc := ReadBody, ptrval := n, len := len)
    ensures forall m :: CallStep(CallOf(z), m, CallOf(Resume(z, Header(n, len), op)), m)
  {
    hide Hash, LengthOk, IsCString;
  }

  lemma PlaceAtBody(f: Files, a: Abs, z: Proc)
    requires z.pc.ReadBody? && AtChain(f, a, z)
    requires z.off in f.ptr && z.ptrval == f.ptr[z.off] && z.off in f.body && z.len == IdxLen(f.body[z.off])
    ensures PlaceOk(f, a, z)
  {
    hide AtChain, AtFree, RecordRead, Hash, LengthOk, IsCString, IdxLen;
  }

  lemma ReadHdrFine(s: State, a: Abs, p: nat, op: Op)
    requires Inv(s, a) && p < |s.procs| && s.procs[p].pc.ReadHdr?
    ensures Fine(s, a, p, op)
  {
    hide FilesOk, OwnOk, ContentsOk, VptrOk, LocksOk, Hash, AllLinked, Placed, LengthOk, CallOk, CallStep, Resume, IsCString, IdxLen;
    var z := s.procs[p];
    ProcFacts(s, a, p);
    SeenOk(s, a);
    var c := a.lists.chains[ChainOf(z)];
    ChainFacts(Seen(s.files, a), a.lists, a.own.Keys, ChainOf(z), z.n);
    ChainFacts(Seen(s.files, a), a.lists, a.own.Keys, ChainOf(z), z.n + 1);
    assert z.off in c;
    ChainPtrTrue(s, a, p, z.off);
    HdrNext(z, s.files.ptr[z.off], IdxLen(s.files.body[z.off]), op);
    hide PlaceOk;
    PlaceAtBody(s.files, a, z.(pc := ReadBody, ptrval := s.files.ptr[z.off], len := IdxLen(s.files.body[z.off])));
  }

  /** What a process reads of a record of its chain. */
  lemma ReadBodyFacts(s: State, a: Abs, p: nat)
    requires Inv(s, a) && p < |s.procs| && s.procs[p].pc.ReadBody?
    ensures |a.lists.chains| == NHASH
    ensures
      var z, c := s.procs[p], a.lists.chains[ChainOf(s.procs[p])];
      && CallOk(z) && AtChain(s.files, a, z) && z.off in s.files.body && z.off in s.files.ptr && z.ptrval == s.files.ptr[z.off]
      && z.ptrval == Target(c, z.n + 1) && (z.n + 1 < |c| ==> c[z.n + 1] != 0) && z.len == IdxLen(s.files.body[z.off])
  {
    hide FilesOk, OwnOk, ContentsOk, VptrOk, LocksOk, Hash, AllLinked, Placed, CallOk;
    var z := s.procs[p];
    ProcFacts(s, a, p);
    SeenOk(s, a);
    var c := a.lists.chains[ChainOf(z)];
    ChainFacts(Seen(s.files, a), a.lists, a.own.Keys, ChainOf(z), z.n);
    ChainFacts(Seen(s.files, a), a.lists, a.own.Keys, ChainOf(z), z.n + 1);
    assert z.off in c;
    ChainPtrTrue(s, a, p, z.off);
  }

  lemma ReadBodyFine(s: State, a: Abs, p: nat, op: Op)
    requires Inv(s, a) && p < |s.procs| && s.procs[p].pc.ReadBody?
    ensures Fine(s, a, p, op)
  {
    hide Inv, Hash, Fine, AtChain;
    ReadBodyFacts(s, a, p);
    var z := s.procs[p];
    if s.files.body[z.off].key == KeyOf(z.op) {
      FoundInMap(s, a, p);
      HitFine(s, a, p, op);
    } else if z.ptrval == 0 {
      PassedAll(s, a, p);
      MissFacts(s, a, p, z.n + 1);
      MissFine(s, a, p, op);
    } else {
      PassFine(s, a, p, op);
    }
  }

  lemma PassedAll(s: State, a: Abs, p: nat)
    requires p < |s.procs| && AtChain(s.files, a, s.procs[p]) && s.procs[p].off in s.files.body
    requires s.files.body[s.procs[p].off].key != KeyOf(s.procs[p].op)
    requires Target(a.lists.chains[ChainOf(s.procs[p])], s.procs[p].n + 1) == 0
    requires
      var z, c := s.procs[p], a.lists.chains[ChainOf(s.procs[p])];
      z.n + 1 < |c| ==> c[z.n + 1] != 0
    ensures
      var z, c := s.procs[p], a.lists.chains[ChainOf(s.procs[p])];
      z.n + 1 == |c| && forall j :: 0 <= j < z.n + 1 ==> c[j] in s.files.body && s.files.body[c[j]].key != KeyOf(z.op)
  {
    hide Hash;
  }

  lemma HitFine(s: State, a: Abs, p: nat, op: Op)
    requires p < |s.procs| && s.procs[p].pc.ReadBody? && CallOk(s.procs[p]) && AtChain(s.files, a, s.procs[p])
    requires
      var z := s.procs[p];
      && z.off in s.files.body && z.len == IdxLen(s.files.body[z.off]) && z.off in s.files.ptr && z.ptrval == s.files.ptr[z.off]
      && s.files.body[z.off].key == KeyOf(z.op) && KeyOf(z.op) in a.m
    ensures Fine(s, a, p, op)
  {
    hide Hash, LengthOk, Field, AfterMiss;
  }

  lemma MissFine(s: State, a: Abs, p: nat, op: Op)
    requires p < |s.procs| && s.procs[p].pc.ReadBody? && CallOk(s.procs[p]) && AtChain(s.files, a, s.procs[p])
    requires
      var z := s.procs[p];
      && z.off in s.files.body && z.len == IdxLen(s.files.body[z.off]) && s.files.body[z.off].key != KeyOf(z.op) && z.ptrval == 0
      && KeyOf(z.op) !in a.m && KeyOf(z.op) !in a.lists.at && a.m - {KeyOf(z.op)} == a.m
    ensures Fine(s, a, p, op)
  {
    hide Hash, LengthOk;
  }

  /** A process that goes on to the next record of its chain, or cannot go on. */
  lemma PlaceOnChain(f: Files, a: Abs, z: Proc)
    requires z.pc.UnlockChain? || ((z.pc.ReadHdr? || z.pc.Broken?) && AtChain(f, a, z))
    requires z.pc.Broken? ==> z.off in f.body && !KeyOk(f.body[z.off].key)
    ensures PlaceOk(f, a, z)
  {
    hide AtChain, AtFree, RecordRead, Hash, LengthOk, IsCString;
  }

  lemma PassNext(z: Proc, r: Reply, op: Op)
    requires z.pc.ReadBody? && CallOk(z) && z.ptrval != 0 && (r.Empty? || (r.Record? && r.b.key != KeyOf(z.op)))
    ensures
      Resume(z, r, op) ==
        if r.Empty? then z.(pc := Broken) else z.(pc := ReadHdr, rec := r.b, ptroff := z.off, off := z.ptrval, n := z.n + 1)
    ensures forall m :: CallStep(CallOf(z), m, CallOf(Resume(z, r, op)), m)
  {
    hide Hash, LengthOk, IsCString;
  }

  lemma PassFine(s: State, a: Abs, p: nat, op: Op)
    requires p < |s.procs| && s.procs[p].pc.ReadBody? && CallOk(s.procs[p]) && AtChain(s.files, a, s.procs[p])
    requires
      var z, c := s.procs[p], a.lists.chains[ChainOf(s.procs[p])];
      && z.off in s.files.body && z.len == IdxLen(s.files.body[z.off]) && s.files.body[z.off].key != KeyOf(z.op) && z.ptrval != 0
      && z.ptrval == Target(c, z.n + 1)
    ensures Fine(s, a, p, op)
  {
    hide Hash, LengthOk, CallOk, CallStep, PlaceOk, Resume, IsCString, KeyOk, IdxLen;
    var z := s.procs[p];
    var r := ReplyTo(s.files, AccessOf(z));
    assert r.Empty? <==> !KeyOk(s.files.body[z.off].key);
    PassNext(z, r, op);
    PlaceOnChain(s.files, a, Resume(z, r, op));
  }

  /** The record of a key that a process has found on its chain is the one the map has. */
  lemma FoundInMap(s: State, a: Abs, p: nat)
    requires Inv(s, a) && p < |s.procs| && HoldsChain(s.procs[p].pc) && !Gap(s.procs[p])
    requires AtChain(s.files, a, s.procs[p]) && s.procs[p].off in s.files.body
    requires s.files.body[s.procs[p].off].key == KeyOf(s.procs[p].op)
    ensures
      var z := s.procs[p];
      && KeyOf(z.op) in a.m && KeyOf(z.op) in a.lists.at && a.lists.at[KeyOf(z.op)] == z.off
      && a.m[KeyOf(z.op)] == DataOf(s.files, z.off)
      && s.files.body[z.off].datoff in s.files.dat
      && s.files.body[z.off].datlen == |s.files.dat[s.files.body[z.off].datoff]| + 1
  {
    hide FilesOk, OwnOk, VptrOk, LocksOk, Hash, ProcOk, AllLinked, Placed;
    NotInGap(s, a, p);
    SeenOk(s, a);
    ChainFacts(Seen(s.files, a), a.lists, a.own.Keys, ChainOf(s.procs[p]), s.procs[p].n);
    RecordFacts(s.files, s.procs[p].off);
  }

  lemma ReadDataFine(s: State, a: Abs, p: nat, op: Op)
    requires Inv(s, a) && p < |s.procs| && s.procs[p].pc.ReadData?
    ensures Fine(s, a, p, op)
  {
    hide FilesOk, OwnOk, ContentsOk, VptrOk, LocksOk, Hash, AllLinked, Placed, LengthOk;
    ProcFacts(s, a, p);
    FoundInMap(s, a, p);
  }

  lemma ReadChainPtrFine(s: State, a: Abs, p: nat, op: Op)
    requires Inv(s, a) && p < |s.procs| && (s.procs[p].pc.ReadChainPtr? || s.procs[p].pc.RereadChainPtr?)
    ensures Fine(s, a, p, op)
  {
    hide FilesOk, OwnOk, ContentsOk, VptrOk, LocksOk, Hash, AllLinked, Placed, LengthOk, PointersOk;
    ProcFacts(s, a, p);
    RootFacts(s.files, ChainOf(s.procs[p]));
  }

  lemma ReadFreeFine(s: State, a: Abs, p: nat, op: Op)
    requires Inv(s, a) && p < |s.procs| && s.procs[p].pc.ReadFree?
    ensures Fine(s, a, p, op)
  {
    hide FilesOk, OwnOk, ContentsOk, VptrOk, LocksOk, Hash, AllLinked, Placed, LengthOk;
    ProcFacts(s, a, p);
    SeenOk(s, a);
    FreePtrTrue(s, a, p);
    FreeFacts(Seen(s.files, a), a.lists, a.own.Keys, 0);
  }

  lemma FreeHdrFine(s: State, a: Abs, p: nat, op: Op)
    requires Inv(s, a) && p < |s.procs| && s.procs[p].pc.FreeHdr?
    ensures Fine(s, a, p, op)
  {
    hide Inv, Hash, LengthOk, AllBlank;
    FreeRead(s, a, p);
  }

  lemma FreeBodyFine(s: State, a: Abs, p: nat, op: Op)
    requires Inv(s, a) && p < |s.procs| && s.procs[p].pc.FreeBody?
    ensures Fine(s, a, p, op)
  {
    hide Inv, Hash, LengthOk, AllBlank;
    FreeRead(s, a, p);
  }

  /** What a process reads of a record of the free list, which can always be read. */
  lemma FreeRead(s: State, a: Abs, p: nat)
    requires Inv(s, a) && p < |s.procs| && (s.procs[p].pc.FreeHdr? || s.procs[p].pc.FreeBody?)
    ensures ProcOk(s.files, a, s.procs[p])
    ensures
      var z, free := s.procs[p], a.lists.free;
      && z.n < |free| && z.off == free[z.n] && z.off in s.files.body && z.off in s.files.ptr && KeyOk(s.files.body[z.off].key)
      && s.files.ptr[z.off] == Target(free, z.n + 1) && (z.n + 1 < |free| ==> free[z.n + 1] != 0) && z.off <= PTR_MAX
  {
    hide FilesOk, OwnOk, ContentsOk, VptrOk, LocksOk, Hash, AllLinked, Placed, LengthOk, ChainPlace, HandPlace, TailPlace, CallOk;
    var z := s.procs[p];
    ProcFacts(s, a, p);
    SeenOk(s, a);
    FreePtrTrue(s, a, p);
    AllRecordFacts(s.files);
    FreeFacts(Seen(s.files, a), a.lists, a.own.Keys, z.n);
    FreeFacts(Seen(s.files, a), a.lists, a.own.Keys, z.n + 1);
  }

  lemma ReadFreeDFine(s: State, a: Abs, p: nat, op: Op)
    requires Inv(s, a) && p < |s.procs| && s.procs[p].pc.ReadFreeD?
    ensures Fine(s, a, p, op)
  {
    hide FilesOk, OwnOk, ContentsOk, VptrOk, LocksOk, Hash, AllLinked, Placed, LengthOk;
    ProcFacts(s, a, p);
    RootFacts(s.files, 0);
  }

  /** The places whose step only moves control, takes or gives back a lock, or asks where a file ends. */
  predicate Plain(pc: Pc) {
    pc.Idle? || pc.Begin? || pc.LockChain? || pc.LockFree? || pc.UnlockFreeHit? || pc.UnlockFreeMiss? || pc.LockDat? || pc.SeekDat?
    || pc.UnlockDat? || pc.LockIdx? || pc.SeekIdx? || pc.UnlockIdx? || pc.LockFreeD? || pc.UnlockFreeD? || pc.UnlockChain? || pc.Returning? || pc.Broken? || Ended(pc)
  }

  lemma PlainFine(s: State, a: Abs, p: nat, op: Op)
    requires Inv(s, a) && p < |s.procs| && Plain(s.procs[p].pc) && !AccessOf(s.procs[p]).Quit?
    ensures Fine(s, a, p, op)
  {
    hide FilesOk, OwnOk, ContentsOk, VptrOk, LocksOk, ListsOk;
    ProcFacts(s, a, p);
    PlainPlace(s.files, a, s.procs[p], op);
    PlainCall(a.m, s.procs[p], ReplyTo(s.files, AccessOf(s.procs[p])), op);
  }

  lemma PlainPlace(f: Files, a: Abs, z: Proc, op: Op)
    requires ProcOk(f, a, z) && Plain(z.pc) && !AccessOf(z).Quit?
    ensures PlaceOk(f, a, Resume(z, ReplyTo(f, AccessOf(z)), op))
  {
    hide ProcOk, ChainPlace, FreePlace, HandPlace, TailPlace, Resume;
    PlainChain(f, a, z, op);
    PlainFree(f, a, z, op);
    PlainHand(f, a, z, op);
    PlainTail(f, a, z, op);
  }

  /** A plain step brings a process no nearer to its key than it was. */
  lemma PlainClasses(z: Proc, r: Reply)
    requires Plain(z.pc)
    ensures
      var pc := NextPc(z, r);
      && !Walking(pc) && !Unlinking(pc) && !pc.OverData? && !pc.ReadBody? && !pc.Broken? && !pc.LockFreeD?
      && (Found(pc) ==> Found(z.pc) && !z.pc.Idle?) && (Absent(pc) ==> Absent(z.pc) && !z.pc.Idle?)
      && (HasHead(pc) ==> HasHead(z.pc) && !z.pc.Idle?) && (z.pc.SeekIdx? ==> !Found(pc))
  {
    hide Hash, DataLengthOk;
  }

  /** Nothing but the place of a data or index append is noted in a plain step. */
  lemma PlainNoted(z: Proc, r: Reply)
    requires Plain(z.pc)
    ensures var y := Noted(z, r); y == z.(off := y.off, datoff := y.datoff) && (!z.pc.SeekIdx? ==> y.off == z.off)
  {
    hide NextPc;
  }

  lemma PlainChain(f: Files, a: Abs, z: Proc, op: Op)
    requires ProcOk(f, a, z) && Plain(z.pc) && !AccessOf(z).Quit?
    ensures ChainPlace(f, a, Resume(z, ReplyTo(f, AccessOf(z)), op))
  {
    hide Hash, AccessOf, NextPc, Noted, Settled, FreePlace, HandPlace, TailPlace, CallOk, ReplyTo;
    hide HasHead, Absent, Found, Walking, Unlinking, Plain;
    var r := ReplyTo(f, AccessOf(z));
    PlainClasses(z, r);
    PlainNoted(z, r);
  }

  lemma PlainFree(f: Files, a: Abs, z: Proc, op: Op)
    requires ProcOk(f, a, z) && Plain(z.pc) && !AccessOf(z).Quit?
    ensures FreePlace(f, a, Resume(z, ReplyTo(f, AccessOf(z)), op))
  {
    hide Hash, LengthOk, Settled, ChainPlace, HandPlace, TailPlace, ResultPlace, Appending, AccessOf, Blanked, NewRec, KeyOf, Noted, HeadLoc, KeyOk;
  }

  lemma PlainHand(f: Files, a: Abs, z: Proc, op: Op)
    requires ProcOk(f, a, z) && Plain(z.pc) && !AccessOf(z).Quit?
    ensures HandPlace(f, Resume(z, ReplyTo(f, AccessOf(z)), op))
  {
    hide Hash, LengthOk, Settled, ChainPlace, FreePlace, ResultPlace, AccessOf, KeyOk, ReplyTo, Appending, Searching, IsCString, Fits, ChainOf;
  }

  lemma PlainTail(f: Files, a: Abs, z: Proc, op: Op)
    requires ProcOk(f, a, z) && Plain(z.pc) && !AccessOf(z).Quit?
    ensures TailPlace(f, Resume(z, ReplyTo(f, AccessOf(z)), op))
  {
    hide Hash, LengthOk, Settled, ChainPlace, FreePlace, ResultPlace, Appending, KeyOk, IdxLen, IsCString, HeadOf, Fits, DataLengthOk, ChainOf;
  }

  lemma PlainCall(m: map<CString, CString>, z: Proc, r: Reply, op: Op)
    requires CallOk(z) && Plain(z.pc) && !AccessOf(z).Quit?
    ensures CallStep(CallOf(z), m, CallOf(Resume(z, r, op)), m)
  {
    hide Hash, LengthOk, Noted;
    NotedCall(z, r);
  }

  predicate Writes(pc: Pc) {
    pc.OverData? || pc.PopFree? || pc.ReuseDat? || pc.ReuseIdx? || pc.AppendDat? || pc.AppendIdx? || pc.LinkHead?
    || pc.BlankDat? || pc.BlankIdx? || pc.SetFree? || pc.UnlinkRec?
  }

  /** What a process has in hand, and where it is in replacing a record, is the same at both ends of a step. */
  ghost predicate SameHands(z: Proc, z': Proc) {
    && Unlinking(z'.pc) == Unlinking(z.pc)
    && (Unlinking(z.pc) ==> z'.ptroff == z.ptroff && z'.ptrval == z.ptrval)
    && Owns(z'.pc) == Owns(z.pc) && (Owns(z.pc) ==> z'.off == z.off)
    && OwnsDat(z'.pc) == OwnsDat(z.pc) && (OwnsDat(z.pc) ==> z'.datoff == z.datoff)
    && Gap(z') == Gap(z) && (Gap(z) ==> KeyOf(z'.op) == KeyOf(z.op))
  }

  lemma QuietClasses(z: Proc, r: Reply)
    requires FlagPlace(z) && !Writes(z.pc)
    ensures
      var pc := NextPc(z, r);
      && Unlinking(pc) == Unlinking(z.pc) && Owns(pc) == Owns(z.pc) && OwnsDat(pc) == OwnsDat(z.pc)
      && (z.regrow && !z.pc.Idle? ==> Absent(pc) == Absent(z.pc))
      && (z.pc.Idle? ==> !Absent(pc))
  {
    hide Hash, DataLengthOk;
  }

  lemma QuietNoted(z: Proc, r: Reply)
    ensures
      var y := Noted(z, r);
      && y.op == z.op && y.regrow == z.regrow
      && (Unlinking(z.pc) ==> y.ptroff == z.ptroff && y.ptrval == z.ptrval)
      && (Owns(z.pc) ==> y.off == z.off) && (OwnsDat(z.pc) ==> y.datoff == z.datoff)
  {
    hide NextPc, HeadOf;
  }

  lemma QuietHands(z: Proc, r: Reply, op: Op)
    requires FlagPlace(z) && !Writes(z.pc)
    ensures SameHands(z, Resume(z, r, op))
  {
    hide NextPc, Noted, Unlinking, Owns, OwnsDat, Writes, Absent, Settled;
    assert z.pc.Idle? ==> !Absent(z.pc) by {
      IdleClasses(z.pc);
    }
    IdleClasses(z.pc);
    QuietClasses(z, r);
    QuietNoted(z, r);
  }

  lemma IdleClasses(pc: Pc)
    ensures pc.Idle? ==> !Absent(pc) && !Writes(pc)
    ensures pc.BlankDat? ==> Writes(pc)
  {
  }

  /** With the files as they were, and hands as they were, the state as a whole is as good as before. */
  ghost predicate OneMoved(s: State, s': State, p: nat) {
    && p < |s.procs| == |s'.procs| && s'.procs == s.procs[p := s'.procs[p]] && s'.files == s.files
    && SameHands(s.procs[p], s'.procs[p])
  }

  lemma HandsKeepVptr(s: State, a: Abs, s': State, p: nat)
    requires VptrOk(s, a) && OneMoved(s, s', p)
    ensures VptrOk(s', a)
  {
    hide Unlinking, Owns, OwnsDat, Gap;
    assert forall q | 0 <= q < |s.procs| :: Unlinking(s'.procs[q].pc) == Unlinking(s.procs[q].pc);
  }

  lemma HandsKeepOwn(s: State, a: Abs, s': State, p: nat)
    requires OwnOk(s, a) && OneMoved(s, s', p)
    ensures OwnOk(s', a)
  {
    hide Unlinking, Owns, OwnsDat, Gap, Live;
  }

  lemma HandsKeepContents(s: State, a: Abs, s': State, p: nat)
    requires ContentsOk(s, a) && OneMoved(s, s', p)
    ensures ContentsOk(s', a)
  {
    hide Unlinking, Owns, OwnsDat, Gap;
  }

  lemma HandsKeepInv(s: State, a: Abs, s': State, p: nat)
    requires Inv(s, a) && OneMoved(s, s', p) && LocksOk(s') && ProcOk(s.files, a, s'.procs[p])
    ensures Inv(s', a)
  {
    hide FilesOk, ListsOk, LocksOk, ProcOk, VptrOk, OwnOk, ContentsOk, SameHands;
    HandsKeepVptr(s, a, s', p);
    HandsKeepOwn(s, a, s', p);
    HandsKeepContents(s, a, s', p);
  }

  /** One process's call moved as CallStep says, the others stayed. */
  lemma ObjectMoves(s: State, a: Abs, s': State, a': Abs, p: nat)
    requires p < |s.procs| == |s'.procs| && s'.procs == s.procs[p := s'.procs[p]]
    requires CallStep(CallOf(s.procs[p]), a.m, CallOf(s'.procs[p]), a'.m)
    ensures ObjectStep(Object(s, a), Object(s', a'), p)
  {
    hide CallStep, CallOf;
  }

  lemma QuietFine(s: State, a: Abs, p: nat, op: Op)
    requires Inv(s, a) && p < |s.procs| && !Writes(s.procs[p].pc) && !AccessOf(s.procs[p]).Quit?
    ensures Fine(s, a, p, op)
  {
    hide Inv, Fine;
    var pc := s.procs[p].pc;
    if Plain(pc) {
      PlainFine(s, a, p, op);
    } else if pc.ReadHead? {
      ReadHeadFine(s, a, p, op);
    } else if pc.ReadHdr? {
      ReadHdrFine(s, a, p, op);
    } else if pc.ReadBody? {
      ReadBodyFine(s, a, p, op);
    } else if pc.ReadData? {
      ReadDataFine(s, a, p, op);
    } else if pc.ReadChainPtr? || pc.RereadChainPtr? {
      ReadChainPtrFine(s, a, p, op);
    } else if pc.ReadFree? {
      ReadFreeFine(s, a, p, op);
    } else if pc.FreeHdr? {
      FreeHdrFine(s, a, p, op);
    } else if pc.FreeBody? {
      FreeBodyFine(s, a, p, op);
    } else {
      ReadFreeDFine(s, a, p, op);
    }
  }

  /** A step that writes nothing keeps the invariant and moves the map object by at most one call. */
  lemma QuietStep(s: State, a: Abs, p: nat, op: Op)
    requires Inv(s, a) && p < |s.procs| && Enabled(s, p)
    requires !Writes(s.procs[p].pc) && !AccessOf(s.procs[p]).Quit?
    ensures Inv(Next(s, p, op), a) && ObjectStep(Object(s, a), Object(Next(s, p, op), a), p)
  {
    var s', z := Next(s, p, op), s.procs[p];
    NoWrite(z);
    QuietFine(s, a, p, op);
    hide FilesOk, VptrOk, ListsOk, OwnOk, ContentsOk, PlaceOk, CallOk, CallStep, Object, ObjectStep, Resume, AccessOf, Enabled, ReplyTo;
    ProcFacts(s, a, p);
    LocksKept(s, p, op);
    CallKept(z, ReplyTo(s.files, AccessOf(z)), op);
    assert FlagPlace(z) by {
      CallFlag(z);
    }
    QuietHands(z, ReplyTo(s.files, AccessOf(z)), op);
    HandsKeepInv(s, a, s', p);
    ObjectMoves(s, a, s', a, p);
  }

  lemma CallFlag(z: Proc)
    requires CallOk(z)
    ensures FlagPlace(z) && KindOk(z)
  {
  }

  lemma NoWrite(z: Proc)
    requires !Writes(z.pc)
    ensures var a := AccessOf(z); !a.PutPtr? && !a.PutRec? && !a.PutDat?
  {
  }
}
