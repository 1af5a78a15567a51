/** Every step of every database process keeps the invariant and moves the map by at most one call. */
module DbTheorem {
  import opened Common
  import opened IndexRecord
  import opened Links
  import opened DbStore
  import opened DbBytes
  import opened Database
  import opened DbProcesses
  import opened DbInvariant
  import opened DbFrame
  import opened DbReads
  import opened DbWrites
  import opened DbRecordWrites
  import opened DbPointerWrites
  import opened DbDeletion

  /** What a store that gives up leaves: the map without its key if it had deleted the old record, the map as it was if not. */
  function Abandoned(a: Abs, z: Proc): Abs {
    if z.regrow then a.(gap := a.gap - {KeyOf(z.op)}, m := a.m - {KeyOf(z.op)}) else a
  }

  lemma QuitPlace(z: Proc)
    requires AccessOf(z).Quit? && CallOk(z)
    ensures z.pc.LockIdx? || (z.pc.LinkHead? && z.off > PTR_MAX)
    ensures z.op.StoreOp? && z.result.None? && HoldsChain(z.pc) && !HoldsFree(z.pc) && !HoldsDat(z.pc) && !HoldsIdx(z.pc)
    ensures Owns(Quits(z).pc) == Owns(z.pc) && !Unlinking(z.pc) && (Gap(z) <==> z.regrow) && Ended(Quits(z).pc) && !Gap(Quits(z)) && !HoldsChain(Quits(z).pc)
  {
  }

  function QuitState(s: State, p: nat): State
    requires p < |s.procs|
  {
    State(s.files, Unlocked(s.locks, p), s.procs[p := Quits(s.procs[p])])
  }

  lemma QuitLocks(s: State, p: nat)
    requires LocksOk(s) && p < |s.procs| && Ended(Quits(s.procs[p]).pc)
    ensures LocksOk(QuitState(s, p))
  {
  }

  lemma QuitProc(f: Files, a: Abs, z: Proc)
    requires ProcOk(f, a, z) && AccessOf(z).Quit?
    ensures ProcOk(f, Abandoned(a, z), Quits(z))
  {
    QuitPlace(z);
  }

  lemma QuitOther(f: Files, a: Abs, z: Proc, q: Proc)
    requires ProcOk(f, a, q)
    ensures ProcOk(f, Abandoned(a, z), q)
  {
  }

  lemma QuitContents(s: State, a: Abs, p: nat)
    requires ContentsOk(s, a) && p < |s.procs| && !Gap(Quits(s.procs[p])) && (Gap(s.procs[p]) <==> s.procs[p].regrow)
    ensures ContentsOk(QuitState(s, p), Abandoned(a, s.procs[p]))
    ensures s.procs[p].regrow ==> KeyOf(s.procs[p].op) in a.m
  {
    hide Gap, DataOf, Unlocked, Quits;
  }

  lemma QuitOwn(s: State, a: Abs, p: nat)
    requires OwnOk(s, a) && p < |s.procs| && Owns(Quits(s.procs[p]).pc) == Owns(s.procs[p].pc) && Ended(Quits(s.procs[p]).pc)
    ensures OwnOk(QuitState(s, p), Abandoned(a, s.procs[p]))
  {
    hide Unlocked, Live;
  }

  lemma QuitVptr(s: State, a: Abs, p: nat)
    requires VptrOk(s, a) && p < |s.procs| && !Unlinking(s.procs[p].pc) && Ended(Quits(s.procs[p]).pc)
    ensures VptrOk(QuitState(s, p), Abandoned(a, s.procs[p]))
  {
    hide Unlocked, Unlinking;
    var s' := QuitState(s, p);
    assert !Unlinking(s'.procs[p].pc) by {
      EndedFar(s'.procs[p].pc);
    }
    assert forall q :: 0 <= q < |s.procs| && q != p ==> s'.procs[q] == s.procs[q];
  }

  lemma EndedFar(pc: Pc)
    requires Ended(pc)
    ensures !Unlinking(pc)
  {
  }

  lemma QuitCall(a: Abs, z: Proc)
    requires AccessOf(z).Quit? && CallOk(z) && (z.regrow ==> KeyOf(z.op) in a.m)
    ensures CallStep(CallOf(z), a.m, CallOf(Quits(z)), Abandoned(a, z).m)
  {
    QuitPlace(z);
  }

  /** A limit ends the process between its writes: its locks go, and what it had written stays. */
  lemma QuitStep(s: State, a: Abs, p: nat, op: Op)
    requires Inv(s, a) && p < |s.procs| && AccessOf(s.procs[p]).Quit?
    ensures Next(s, p, op) == QuitState(s, p)
    ensures Inv(Next(s, p, op), Abandoned(a, s.procs[p]))
    ensures ObjectStep(Object(s, a), Object(Next(s, p, op), Abandoned(a, s.procs[p])), p)
  {
    hide FilesOk, ListsOk, LocksOk, VptrOk, OwnOk, ContentsOk, CallOk, PlaceOk, CallStep, CallOf, Object, ObjectStep, AccessOf, Gap, Owns, HoldsChain, Quits;
    var z := s.procs[p];
    QuitPlace(z);
    QuitLocks(s, p);
    QuitVptr(s, a, p);
    QuitContents(s, a, p);
    QuitOwn(s, a, p);
    QuitProc(s.files, a, z);
    var s', a' := QuitState(s, p), Abandoned(a, z);
    forall q | 0 <= q < |s'.procs| ensures ProcOk(s'.files, a', s'.procs[q]) {
      if q != p {
        QuitOther(s.files, a, z, s.procs[q]);
      }
    }
    QuitCall(a, z);
    ObjectMoves(s, a, s', a', p);
  }

  /** Nobody else relies on the lists a step changes. */
  ghost predicate OthersKept(s: State, a: Abs, p: nat, a': Abs) {
    forall q | 0 <= q < |s.procs| && q != p :: ListsKept(a, a', s.procs[q])
  }

  lemma ListsSame(s: State, a: Abs, p: nat, a': Abs)
    requires a'.lists == a.lists
    ensures OthersKept(s, a, p, a')
  {
    hide HoldsChain, HoldsFree, Hash;
  }

  lemma FreeMoved(s: State, a: Abs, p: nat, a': Abs)
    requires Inv(s, a) && p < |s.procs| && (s.procs[p].pc.SetFree? || s.procs[p].pc.PopFree?)
    requires a'.lists.chains == a.lists.chains && a'.lists.at == a.lists.at
    ensures OthersKept(s, a, p, a')
  {
    hide Inv, HoldsChain, Hash;
    forall q | 0 <= q < |s.procs| && q != p ensures ListsKept(a, a', s.procs[q]) {
      FreeIsMine(s, a, p, q);
    }
  }

  lemma ChainMoved(s: State, a: Abs, p: nat, a': Abs)
    requires Inv(s, a) && p < |s.procs| && (s.procs[p].pc.BlankDat? || s.procs[p].pc.LinkHead?) && !s.procs[p].op.FetchOp?
    requires |a'.lists.chains| == |a.lists.chains| && a'.lists.free == a.lists.free
    requires forall h | 0 <= h < |a.lists.chains| && h != ChainOf(s.procs[p]) :: a'.lists.chains[h] == a.lists.chains[h]
    requires forall k <- a'.lists.at :: k in a.lists.at || k == KeyOf(s.procs[p].op)
    ensures OthersKept(s, a, p, a')
  {
    hide Inv, HoldsFree, Hash;
    forall q | 0 <= q < |s.procs| && q != p ensures ListsKept(a, a', s.procs[q]) {
      if HoldsChain(s.procs[q].pc) {
        ChainMine(s, a, p, q);
      }
    }
  }

  lemma BegunMoves(s: State, a: Abs, p: nat)
    requires Inv(s, a) && p < |s.procs| && s.procs[p].pc.BlankDat?
    requires |a.lists.chains| == NHASH && s.procs[p].n < |a.lists.chains[ChainOf(s.procs[p])]|
    ensures OthersKept(s, a, p, Begun(a, s.procs[p], p))
  {
    hide Inv, OthersKept, Hash;
    BlankDatFacts(s, a, p);
    ChainMoved(s, a, p, Begun(a, s.procs[p], p));
  }

  lemma LinkedMoves(s: State, a: Abs, p: nat)
    requires Inv(s, a) && p < |s.procs| && s.procs[p].pc.LinkHead? && s.procs[p].op.StoreOp? && |a.lists.chains| == NHASH
    ensures OthersKept(s, a, p, Linked'(a, s.procs[p]))
  {
    hide Inv, OthersKept, Hash;
    ChainMoved(s, a, p, Linked'(a, s.procs[p]));
  }

  /** Whatever step a process takes, the invariant holds afterwards and the map object has moved by at most one call. */
  lemma StepKeeps(s: State, a: Abs, p: nat, op: Op) returns (a': Abs)
    requires Inv(s, a) && p < |s.procs| && Enabled(s, p)
    ensures Inv(Next(s, p, op), a') && ObjectStep(Object(s, a), Object(Next(s, p, op), a'), p)
    ensures OthersKept(s, a, p, a')
    ensures !Writes(s.procs[p].pc) && !AccessOf(s.procs[p]).Quit? ==> a' == a
  {
    hide Inv, ObjectStep, Object, Next, Enabled, AccessOf, OthersKept, Hash;
    var z := s.procs[p];
    a' := a;
    ListsSame(s, a, p, a);
    if AccessOf(z).Quit? {
      QuitStep(s, a, p, op);
      a' := Abandoned(a, z);
      ListsSame(s, a, p, a');
    } else if !Writes(z.pc) {
      QuietStep(s, a, p, op);
    } else if z.pc.OverData? {
      a' := OverDataStep(s, a, p, op);
      ListsSame(s, a, p, a');
    } else if z.pc.ReuseDat? {
      ReuseDatStep(s, a, p, op);
    } else if z.pc.AppendDat? {
      AppendDatStep(s, a, p, op);
    } else if z.pc.BlankIdx? {
      BlankIdxStep(s, a, p, op);
      a' := BlankedAbs(a, z);
      ListsSame(s, a, p, a');
    } else if z.pc.ReuseIdx? {
      ReuseIdxStep(s, a, p, op);
      a' := WriteRec(a, z);
      ListsSame(s, a, p, a');
    } else if z.pc.AppendIdx? {
      AppendIdxStep(s, a, p, op);
      a' := AddRec(a, z, p);
      ListsSame(s, a, p, a');
    } else if z.pc.SetFree? {
      SetFreeStep(s, a, p, op);
      a' := PushedFree(a, z.off);
      FreeMoved(s, a, p, a');
    } else if z.pc.UnlinkRec? {
      UnlinkRecStep(s, a, p, op);
    } else if z.pc.PopFree? {
      PopFreeStep(s, a, p, op);
      a' := PoppedFree(a, z, p);
      FreeMoved(s, a, p, a');
    } else if z.pc.BlankDat? {
      BlankDatStep(s, a, p, op);
      a' := Begun(a, z, p);
      BegunMoves(s, a, p);
    } else {
      LinkFits(z);
      LinkHeadStep(s, a, p, op);
      a' := Linked'(a, z);
      LinkedMoves(s, a, p);
    }
  }

  lemma LinkFits(z: Proc)
    requires z.pc.LinkHead? && !AccessOf(z).Quit?
    ensures z.off <= PTR_MAX
  {
  }

  function FirstAbs(): Abs {
    Abs(EmptyLists(), EmptyFiles().ptr, map[], map[], map[])
  }

  lemma InitialOk(s: State)
    requires Initial(s)
    ensures Inv(s, FirstAbs())
  {
    hide FilesOk, ListsOk, EmptyFiles, EmptyLists, IndexTiles, ExtentsOk, DataTiles;
    EmptyListsOk();
    EmptyNoKeys();
    var a := FirstAbs();
    AllRecordFacts(s.files);
    assert a.own.Keys == {};
    forall p | 0 <= p < |s.procs| ensures ProcOk(s.files, a, s.procs[p]) {
      IdleOk(s.files, a, s.procs[p]);
    }
  }

  lemma EmptyNoKeys()
    ensures EmptyLists().at == map[] && EmptyFiles().body == map[]
  {
  }

  lemma IdleOk(f: Files, a: Abs, z: Proc)
    requires z.pc.Idle?
    ensures ProcOk(f, a, z)
  {
    hide Hash, AtChain, AtFree, RecordRead;
  }
}
