/** Locks exclude, and what a process relies on is out of reach of the others. */
module DbFrame {
  import opened Common
  import opened IndexRecord
  import opened Links
  import opened DbStore
  import opened Database
  import opened DbProcesses
  import opened DbInvariant

  lemma Conflict(s: State, p: nat, q: nat, g: Region, m: Mode, m': Mode)
    requires LocksOk(s) && p < |s.procs| && q < |s.procs| && p != q
    ensures Holds(s.procs[p], g, m) && Holds(s.procs[q], g, m') ==> m == Reading && m' == Reading
  {
    var k, l := Lock(p, g, m), Lock(q, g, m');
    assert k in s.locks <==> Holds(s.procs[p], g, m);
    assert l in s.locks <==> Holds(s.procs[q], g, m');
  }

  /** Two processes never write the same chain, the free list, or the end of a file at the same time. */
  lemma Exclusion(s: State, p: nat, q: nat)
    requires LocksOk(s) && p < |s.procs| && q < |s.procs| && p != q
    ensures
      var x, y := s.procs[p], s.procs[q];
      && (HoldsChain(x.pc) && HoldsChain(y.pc) && ChainOf(x) == ChainOf(y) ==> x.op.FetchOp? && y.op.FetchOp?)
      && !(HoldsFree(x.pc) && HoldsFree(y.pc))
      && !(HoldsDat(x.pc) && HoldsDat(y.pc))
      && !(HoldsIdx(x.pc) && HoldsIdx(y.pc))
  {
    hide Hash, HoldsChain, HoldsFree, HoldsDat, HoldsIdx;
    var x, y := s.procs[p], s.procs[q];
    Conflict(s, p, q, Chain(ChainOf(x)), ModeOf(x.op), ModeOf(y.op));
    Conflict(s, p, q, FreeList, Writing, Writing);
    Conflict(s, p, q, DataFile, Writing, Writing);
    Conflict(s, p, q, IndexTail, Writing, Writing);
  }

  /** How a step changes one kind of lock: gained, given back, or as before. */
  predicate Moves(before: bool, after: bool, gains: bool, drops: bool) {
    after <==> gains || (before && !drops)
  }

  lemma ChainLockOfStep(z: Proc, r: Reply, op: Op)
    requires !AccessOf(z).Quit?
    ensures
      var z', a := Resume(z, r, op), AccessOf(z);
      && Moves(HoldsChain(z.pc), HoldsChain(z'.pc), a.Acquire? && a.region.Chain?, a.Release? && a.region.Chain?)
      && (HoldsChain(z'.pc) || HoldsChain(z.pc) ==> z'.op == z.op)
  {
    hide Hash, LengthOk, BlankString, Blanked, HeadOf, ChainOf, NewRec, KeyOf, DataLengthOk, Settled, Noted;
  }

  lemma FreeLockOfStep(z: Proc, r: Reply, op: Op)
    requires !AccessOf(z).Quit?
    ensures
      var z', a := Resume(z, r, op), AccessOf(z);
      Moves(HoldsFree(z.pc), HoldsFree(z'.pc), a.Acquire? && a.region == FreeList, a.Release? && a.region == FreeList)
  {
    hide Hash, LengthOk, BlankString, Blanked, HeadOf, ChainOf, NewRec, KeyOf, DataLengthOk, Settled, Noted;
  }

  lemma EndLocksOfStep(z: Proc, r: Reply, op: Op)
    requires !AccessOf(z).Quit?
    ensures
      var z', a := Resume(z, r, op), AccessOf(z);
      && Moves(HoldsDat(z.pc), HoldsDat(z'.pc), a.Acquire? && a.region == DataFile, a.Release? && a.region == DataFile)
      && Moves(HoldsIdx(z.pc), HoldsIdx(z'.pc), a.Acquire? && a.region == IndexTail, a.Release? && a.region == IndexTail)
  {
    hide Hash, LengthOk, BlankString, Blanked, HeadOf, ChainOf, NewRec, KeyOf, DataLengthOk, Settled, Noted;
  }

  /** A process asks for and gives back the chain of its own key, and always in the same mode. */
  lemma OwnRegion(z: Proc)
    ensures
      match AccessOf(z)
      case Acquire(Chain(h), m) => h == ChainOf(z) && m == ModeOf(z.op)
      case Acquire(_, m) => m == Writing
      case Release(Chain(h)) => h == ChainOf(z)
      case _ => true
  {
    hide Hash;
  }

  lemma LocksOfStep(z: Proc, r: Reply, op: Op, g: Region, m: Mode)
    requires !AccessOf(z).Quit?
    ensures
      var z' := Resume(z, r, op);
      Holds(z', g, m) <==>
        match AccessOf(z)
        case Acquire(g', m') => (g == g' && m == m') || Holds(z, g, m)
        case Release(g') => g != g' && Holds(z, g, m)
        case _ => Holds(z, g, m)
  {
    hide Hash, HoldsChain, HoldsFree, HoldsDat, HoldsIdx, AccessOf, Resume;
    ChainLockOfStep(z, r, op);
    FreeLockOfStep(z, r, op);
    EndLocksOfStep(z, r, op);
    OwnRegion(z);
  }

  /** Locks stay exclusive and stay with the places that hold them. */
  lemma LocksKept(s: State, p: nat, op: Op)
    requires LocksOk(s) && p < |s.procs| && Enabled(s, p) && !AccessOf(s.procs[p]).Quit?
    ensures LocksOk(Next(s, p, op))
  {
    hide Holds, AccessOf, Resume, Hash;
    var s', z := Next(s, p, op), s.procs[p];
    var r := ReplyTo(s.files, AccessOf(z));
    forall l ensures l in s'.locks <==> l.pid < |s'.procs| && Holds(s'.procs[l.pid], l.region, l.mode) {
      assert l in s.locks <==> l.pid < |s.procs| && Holds(s.procs[l.pid], l.region, l.mode);
      if l.pid == p {
        LocksOfStep(z, r, op, l.region, l.mode);
        assert l.mode == Reading || l.mode == Writing;
        assert l == Lock(p, l.region, l.mode);
      }
    }
  }

  /** A store has written its data under the record it has in hand. */
  predicate Filled(pc: Pc) {
    pc.ReuseIdx? || pc.UnlockIdx? || pc.LinkHead?
  }

  /** The part of the state that a process at this place relies on is the same in both states. */
  ghost predicate Kept(f: Files, a: Abs, f': Files, a': Abs, z: Proc) {
    && (HoldsChain(z.pc) ==> ChainKept(f, a, f', a', z))
    && (HoldsFree(z.pc) ==> FreeKept(f, a, f', a'))
    && (Owns(z.pc) ==> RecKept(f, f', z.off))
    && (OwnsDat(z.pc) || Filled(z.pc) ==> DatKept(f, f', z.datoff))
    && (HoldsDat(z.pc) ==> f'.dend == f.dend)
    && (HoldsIdx(z.pc) ==> f'.iend == f.iend)
  }

  predicate RecKept(f: Files, f': Files, o: nat) {
    && (o in f.body ==> o in f'.body && f'.body[o] == f.body[o])
    && PtrKept(f, f', o)
  }

  predicate PtrKept(f: Files, f': Files, l: nat) {
    l in f.ptr ==> l in f'.ptr && f'.ptr[l] == f.ptr[l]
  }

  predicate DatKept(f: Files, f': Files, d: nat) {
    d in f.dat ==> d in f'.dat && f'.dat[d] == f.dat[d]
  }

  ghost predicate ChainKept(f: Files, a: Abs, f': Files, a': Abs, z: Proc) {
    && (|a.lists.chains| == NHASH ==>
          && |a'.lists.chains| == NHASH
          && a'.lists.chains[ChainOf(z)] == a.lists.chains[ChainOf(z)]
          && (forall o <- a.lists.chains[ChainOf(z)] :: RecKept(f, f', o)))
    && PtrKept(f, f', HeadOf(z))
    && (KeyOf(z.op) !in a.lists.at ==> KeyOf(z.op) !in a'.lists.at)
  }

  ghost predicate FreeKept(f: Files, a: Abs, f': Files, a': Abs) {
    && a'.lists.free == a.lists.free
    && PtrKept(f, f', FREE_OFF)
    && (forall o <- a.lists.free :: RecKept(f, f', o))
  }

  /** Nothing a process relies on has changed, so everything known about it stays known. */
  lemma FrameProc(f: Files, a: Abs, f': Files, a': Abs, z: Proc)
    requires ProcOk(f, a, z) && Kept(f, a, f', a', z)
    ensures ProcOk(f', a', z)
  {
    hide CallOk, ChainPlace, FreePlace, HandPlace, TailPlace, Kept;
    FrameChain(f, a, f', a', z);
    FrameFree(f, a, f', a', z);
    FrameHand(f, a, f', a', z);
  }

  lemma FrameChain(f: Files, a: Abs, f': Files, a': Abs, z: Proc)
    requires ChainPlace(f, a, z) && Kept(f, a, f', a', z)
    ensures ChainPlace(f', a', z)
  {
    hide Hash, LengthOk, IsCString, KeyOf, NoneFits, AtFree;
    if Walking(z.pc) || Found(z.pc) || z.pc.Broken? {
      var c := a.lists.chains[ChainOf(z)];
      forall j | 0 <= j <= z.n ensures RecKept(f, f', c[j]) {
        assert c[j] in c;
      }
    }
  }

  lemma FrameFree(f: Files, a: Abs, f': Files, a': Abs, z: Proc)
    requires FreePlace(f, a, z) && Kept(f, a, f', a', z)
    ensures FreePlace(f', a', z)
  {
    hide Hash, LengthOk, IsCString, KeyOf, NoneFits, AtChain, ChainKept;
    if FreeWalking(z.pc) {
      assert z.off in a.lists.free;
      assert RecKept(f, f', z.off);
      NoneFitsKept(f, f', z.op, a.lists.free[..z.n]);
    }
    if z.pc.UnlockFreeMiss? {
      NoneFitsKept(f, f', z.op, a.lists.free);
    }
  }

  lemma FrameHand(f: Files, a: Abs, f': Files, a': Abs, z: Proc)
    requires HandPlace(f, z) && TailPlace(f, z) && Kept(f, a, f', a', z)
    ensures HandPlace(f', z) && TailPlace(f', z)
  {
    hide Hash, LengthOk, IsCString, KeyOf, ChainKept, FreeKept;
  }

  lemma NoneFitsKept(f: Files, f': Files, op: Op, s: seq<nat>)
    requires NoneFits(f, op, s) && forall o <- s :: RecKept(f, f', o)
    ensures NoneFits(f', op, s)
  {
    hide Fits;
  }

  lemma NotedCall(z: Proc, r: Reply)
    ensures Noted(z, r).op == z.op
  {
    hide NextPc, HeadOf;
  }

  /** Up to the point where the walk of the chain has decided what to do. */
  predicate BeforeWrites(pc: Pc) {
    pc.Idle? || pc.Begin? || pc.LockChain? || pc.ReadHead? || pc.ReadHdr? || pc.ReadBody? || pc.ReadData? || pc.OverData?
    || pc.UnlockChain? || pc.Returning? || pc.Broken? || Ended(pc)
  }

  lemma KindKept(z: Proc, r: Reply, op: Op)
    requires KindOk(z)
    ensures KindOk(Resume(z, r, op))
  {
    hide KindOk, Resume, BeforeWrites;
    if BeforeWrites(z.pc) {
      KindKeptEarly(z, r, op);
    } else {
      KindKeptLate(z, r, op);
    }
  }

  lemma KindKeptEarly(z: Proc, r: Reply, op: Op)
    requires KindOk(z) && BeforeWrites(z.pc)
    ensures KindOk(Resume(z, r, op))
  {
    hide Hash, LengthOk, BlankString, Blanked, HeadOf, ChainOf, NewRec, KeyOf, DataLengthOk, Noted, Settled, AccessOf, IsCString;
    NotedCall(z, r);
  }

  lemma KindKeptLate(z: Proc, r: Reply, op: Op)
    requires KindOk(z) && !BeforeWrites(z.pc)
    ensures KindOk(Resume(z, r, op))
  {
    hide Hash, LengthOk, BlankString, Blanked, HeadOf, ChainOf, NewRec, KeyOf, DataLengthOk, Noted, Settled, AccessOf, IsCString;
    NotedCall(z, r);
  }

  lemma FlagPlaceKept(z: Proc, r: Reply, op: Op)
    requires KindOk(z) && FlagPlace(z) && !AccessOf(z).Quit?
    ensures FlagPlace(Resume(z, r, op))
  {
    hide KindOk, Resume, FlagAllows, RegrowPlace, AccessOf;
    FlagKept(z, r, op);
    RegrowKept(z, r, op);
  }

  lemma FlagKept(z: Proc, r: Reply, op: Op)
    requires KindOk(z) && FlagPlace(z)
    ensures FlagAllows(Resume(z, r, op))
  {
    hide KindOk, FlagPlace, FlagAllows, Resume, BeforeWrites;
    if BeforeWrites(z.pc) {
      FlagKeptEarly(z, r, op);
    } else {
      FlagKeptLate(z, r, op);
    }
  }

  lemma FlagKeptEarly(z: Proc, r: Reply, op: Op)
    requires KindOk(z) && FlagPlace(z) && BeforeWrites(z.pc)
    ensures FlagAllows(Resume(z, r, op))
  {
    hide Hash, LengthOk, BlankString, Blanked, HeadOf, ChainOf, NewRec, KeyOf, DataLengthOk, Noted, Settled, AccessOf, IsCString;
    NotedCall(z, r);
  }

  lemma FlagKeptLate(z: Proc, r: Reply, op: Op)
    requires KindOk(z) && FlagPlace(z) && !BeforeWrites(z.pc)
    ensures FlagAllows(Resume(z, r, op))
  {
    hide Hash, LengthOk, BlankString, Blanked, HeadOf, ChainOf, NewRec, KeyOf, DataLengthOk, Noted, Settled, AccessOf, IsCString;
    NotedCall(z, r);
  }

  lemma RegrowKept(z: Proc, r: Reply, op: Op)
    requires KindOk(z) && FlagPlace(z)
    ensures RegrowPlace(Resume(z, r, op))
  {
    hide Hash, LengthOk, BlankString, Blanked, HeadOf, ChainOf, NewRec, KeyOf, DataLengthOk, Noted, Settled, AccessOf, FlagOk, IsCString;
    NotedCall(z, r);
  }

  lemma ResultPlaceKept(z: Proc, r: Reply, op: Op)
    requires KindOk(z) && ResultPlace(z) && !AccessOf(z).Quit?
    ensures ResultPlace(Resume(z, r, op))
  {
    hide Hash, LengthOk, BlankString, Blanked, HeadOf, ChainOf, NewRec, KeyOf, DataLengthOk, Noted;
    NotedCall(z, r);
  }

  /** The call and the place keep agreeing, whatever a step reads. */
  lemma CallKept(z: Proc, r: Reply, op: Op)
    requires CallOk(z) && !AccessOf(z).Quit?
    ensures CallOk(Resume(z, r, op))
  {
    hide KindOk, FlagPlace, ResultPlace, Resume, AccessOf;
    KindKept(z, r, op);
    FlagPlaceKept(z, r, op);
    ResultPlaceKept(z, r, op);
  }
}
