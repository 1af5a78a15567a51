/** The value of the semaphore itself, member [0]: what it starts at, what changes it, who waits for it; and the last close. */
module SemValue {
  import opened Common
  import opened SemSet
  import opened SemProof
  import opened SemTheorem

  /** What a step adds to the semaphore with this identifier: the amount of a sem_op(). */
  function Amount(s: State, p: nat, ch: Choice, id: nat): int
    requires p < |s.procs|
  {
    if !ch.exits && s.procs[p].pc == Using(id) && Live(s, id) then ch.n else 0
  }

  function Amounts(s: State, moves: seq<Move>, id: nat): int
    decreases |moves|
  {
    if moves == [] || moves[0].p >= |s.procs| then 0
    else Amount(s, moves[0].p, moves[0].ch, id) + Amounts(Next(s, moves[0].p, moves[0].ch), moves[1..], id)
  }

  /** The process ends with operations of its own to be undone, or between the two halves of an initialisation. */
  predicate Leaves(s: State, p: nat, ch: Choice)
    requires p < |s.procs|
  {
    Next(s, p, ch) == Exit(s, p) && ((|s.procs[p].adj| > 0 && s.procs[p].adj[0] != 0) || s.procs[p].pc.CreateSet1?)
  }

  ghost predicate NobodyLeaves(s: State, moves: seq<Move>)
    decreases |moves|
  {
    moves == [] || (moves[0].p < |s.procs| && !Leaves(s, moves[0].p, moves[0].ch) && NobodyLeaves(Next(s, moves[0].p, moves[0].ch), moves[1..]))
  }

  /** The first half of the initialisation is done. */
  ghost predicate Begun(s: State, id: nat) {
    Live(s, id) && (Ready(s) || exists q :: 0 <= q < |s.procs| && s.procs[q].pc == CreateSet1(id))
  }

  /** The first half of an initialisation gives the semaphore the value sem_create() was called with. */
  lemma SetsInitval(s: State, p: nat, ch: Choice)
    requires Inv(s) && p < |s.procs| && s.procs[p].pc.CreateSet0? && !ch.exits && 0 <= s.procs[p].pc.initval <= SEMVMX
    ensures
      var id := s.procs[p].pc.id;
      var t := Next(s, p, ch);
      Val(t, 0) == s.procs[p].pc.initval && Begun(t, id) && p < |t.procs| && t.procs[p].pc == CreateSet1(id)
  {
    hide Inv;
    Inside(s, p);
    InsideLocked(s.procs[p].pc);
    var t := Next(s, p, ch);
    assert t.procs[p].pc == CreateSet1(s.procs[p].pc.id);
    assert Val(t, 0) == s.procs[p].pc.initval;
  }

  lemma InsideLocked(pc: Pc)
    ensures pc.CreateSet0? || pc.CreateSet1? ==> Locked(pc)
  {
  }

  /** Nobody begins an initialisation that has been begun. */
  lemma OnlyOnce(s: State, p: nat, id: nat)
    requires Inv(s) && p < |s.procs| && Begun(s, id)
    ensures !s.procs[p].pc.CreateSet0?
  {
    hide Inv, Locked, Holders;
    if s.procs[p].pc.CreateSet0? {
      Inside(s, p);
      InsideLocked(s.procs[p].pc);
      Alone(s, p);
      assert !Ready(s);
      var q :| 0 <= q < |s.procs| && s.procs[q].pc == CreateSet1(id);
      InsideLocked(s.procs[q].pc);
      assert false;
    }
  }

  lemma ExitValue(s: State, p: nat)
    requires Inv(s) && p < |s.procs| && s.cur.Some? && s.procs[p].adj[0] == 0 && |s.procs[p].adj| == 3
    ensures Val(Exit(s, p), 0) == Val(s, 0) && Exit(s, p).cur.Some? && Exit(s, p).cur.value.ready == s.cur.value.ready
    ensures Exit(s, p).cur.value.id == s.cur.value.id
  {
    hide Inv;
    Inside(s, p);
  }

  /** A semop() adds to the semaphore what it says. */
  lemma OpValue(s: State, p: nat, ch: Choice, id: nat)
    requires Inv(s) && p < |s.procs| && Enabled(s, p, ch) && !ch.exits && Ops(s.procs[p].pc, ch.n).Some?
    requires Live(s, id) && s.procs[p].pc.id == id
    ensures Val(Next(s, p, ch), 0) == Val(s, 0) + Amount(s, p, ch, id)
    ensures Live(Next(s, p, ch), id) && Next(s, p, ch).cur.value.ready == s.cur.value.ready
  {
    hide Inv, SemOp, Sum, Exit;
    Inside(s, p);
    OpSums(0, ch.n);
    SemOpAdds(Values(s.cur.value.val, s.procs[p].adj), Ops(s.procs[p].pc, ch.n).value);
  }

  /** Each step adds its amount to the semaphore and nothing else. */
  lemma StepValue(s: State, p: nat, ch: Choice, id: nat)
    requires Inv(s) && p < |s.procs| && Enabled(s, p, ch) && Begun(s, id) && !Leaves(s, p, ch) && Live(Next(s, p, ch), id)
    ensures Val(Next(s, p, ch), 0) == Val(s, 0) + Amount(s, p, ch, id)
  {
    hide Inv, Exit, Try, Begun, Enabled;
    var pc := s.procs[p].pc;
    OnlyOnce(s, p, id);
    Inside(s, p);
    BegunLive(s, id);
    if Next(s, p, ch) == Exit(s, p) {
      ExitValue(s, p);
      NoAmount(s, p, ch, id);
    } else if Ops(pc, ch.n).Some? && Live(s, pc.id) {
      OpValue(s, p, ch, id);
    }
  }

  lemma BegunLive(s: State, id: nat)
    requires Begun(s, id)
    ensures Live(s, id)
  {
  }

  /** A step of sem_op() is not an exit: it leaves the process where it is. */
  lemma NoAmount(s: State, p: nat, ch: Choice, id: nat)
    requires p < |s.procs| && Next(s, p, ch) == Exit(s, p) && Enabled(s, p, ch)
    ensures Amount(s, p, ch, id) == 0
  {
    if Amount(s, p, ch, id) != 0 {
      UsingStays(s, p, ch, id);
      assert false;
    }
  }

  lemma UsingStays(s: State, p: nat, ch: Choice, id: nat)
    requires p < |s.procs| && Enabled(s, p, ch) && Amount(s, p, ch, id) != 0
    ensures p < |Next(s, p, ch).procs| && Next(s, p, ch).procs[p].pc == Using(id)
  {
    hide Exit, SemOp;
  }

  lemma StepBegun(s: State, p: nat, ch: Choice, id: nat)
    requires Inv(s) && p < |s.procs| && Enabled(s, p, ch) && Begun(s, id) && !Leaves(s, p, ch) && Live(Next(s, p, ch), id)
    ensures Begun(Next(s, p, ch), id)
  {
    hide Inv, Locked, SemOp, Undone;
    OnlyOnce(s, p, id);
    Inside(s, p);
    if !Ready(s) {
      var q :| 0 <= q < |s.procs| && s.procs[q].pc == CreateSet1(id);
      if q != p {
        assert Next(s, p, ch).procs[q].pc == CreateSet1(id);
      }
    }
  }

  /** A set that is gone does not come back: identifiers are not used again. */
  lemma {:induction false} StaysGone(s: State, moves: seq<Move>, s': State, id: nat)
    requires Leads(s, moves, s') && !Live(s, id) && id < s.next
    ensures !Live(s', id)
    decreases |moves|
  {
    hide Next, Enabled;
    if moves != [] {
      GoneStep(s, moves[0].p, moves[0].ch, id);
      StaysGone(Next(s, moves[0].p, moves[0].ch), moves[1..], s', id);
    }
  }

  lemma GoneStep(s: State, p: nat, ch: Choice, id: nat)
    requires p < |s.procs| && !Live(s, id) && id < s.next
    ensures !Live(Next(s, p, ch), id) && id < Next(s, p, ch).next
  {
    hide SemOp, Undone;
  }

  lemma IdUsed(s: State, id: nat)
    requires Inv(s) && Live(s, id)
    ensures id < s.next
  {
  }

  lemma StepNext(s: State, p: nat, ch: Choice)
    requires p < |s.procs|
    ensures s.next <= Next(s, p, ch).next
  {
    hide SemOp, Undone;
  }

  lemma {:induction false} ValueFrom(s: State, moves: seq<Move>, s': State, id: nat)
    requires Inv(s) && Leads(s, moves, s') && NoSlip(s, moves) && NobodyLeaves(s, moves) && Begun(s, id) && Live(s', id)
    ensures Val(s', 0) == Val(s, 0) + Amounts(s, moves, id)
    decreases |moves|
  {
    hide Inv, Next, Enabled, Slips, Leaves, Begun, Amount, Live;
    if moves != [] {
      var p, ch := moves[0].p, moves[0].ch;
      StepKeeps(s, p, ch);
      BegunLive(s, id);
      IdUsed(s, id);
      StepNext(s, p, ch);
      if !Live(Next(s, p, ch), id) {
        StaysGone(Next(s, p, ch), moves[1..], s', id);
      }
      StepValue(s, p, ch, id);
      StepBegun(s, p, ch, id);
      ValueFrom(Next(s, p, ch), moves[1..], s', id);
    }
  }

  /**
   The semaphore over a whole run: from the step in which somebody initialises it, as long as the set lives and nobody
   leaves with operations to be undone, it is the initial value plus the amounts of the operations done on it.
   */
  lemma SemaphoreValue(s0: State, before: seq<Move>, s: State, p: nat, ch: Choice, moves: seq<Move>, s': State)
    requires Initial(s0) && |s0.procs| <= BIGCOUNT && Leads(s0, before, s) && NoSlip(s0, before)
    requires p < |s.procs| && s.procs[p].pc.CreateSet0? && !ch.exits && 0 <= s.procs[p].pc.initval <= SEMVMX
    requires Leads(Next(s, p, ch), moves, s') && NoSlip(Next(s, p, ch), moves) && NobodyLeaves(Next(s, p, ch), moves)
    requires Live(s', s.procs[p].pc.id)
    ensures Val(s', 0) == s.procs[p].pc.initval + Amounts(Next(s, p, ch), moves, s.procs[p].pc.id)
  {
    hide Inv, Initial, Leads, NoSlip, NobodyLeaves, Next, Amounts;
    InitialOk(s0);
    InvThroughout(s0, before, s);
    SetsInitval(s, p, ch);
    CanSet(s, p, ch);
    StepKeeps(s, p, ch);
    ValueFrom(Next(s, p, ch), moves, s', s.procs[p].pc.id);
  }

  lemma CanSet(s: State, p: nat, ch: Choice)
    requires p < |s.procs| && s.procs[p].pc.CreateSet0?
    ensures Enabled(s, p, ch) && !Slips(s, p, ch)
  {
  }

  /** A sem_op() waits exactly as long as the semaphore would go below 0 (or, which is an error, above its maximum). */
  lemma WaitsExactly(s: State, p: nat, ch: Choice)
    requires Inv(s) && p < |s.procs| && s.procs[p].pc.Using? && !ch.exits && ch.n != 0
    ensures Enabled(s, p, ch) <==> 0 <= Val(s, 0) + ch.n <= SEMVMX
    ensures ch.n < 0 ==> (Enabled(s, p, ch) <==> Val(s, 0) >= -ch.n)
  {
    hide Inv;
    Inside(s, p);
    InUse(s.procs[p].pc);
    var ops := OpOp(ch.n);
    assert ops[0] == SemBuf(0, ch.n) && ops[1..] == [];
    assert Live(s, s.procs[p].pc.id);
    var v := Values(s.cur.value.val, s.procs[p].adj);
    assert Ops(s.procs[p].pc, ch.n) == Some(ops) && Try(s, p, ops) == SemOp(v, ops);
    assert 0 <= v.val[0] + ch.n <= SEMVMX ==> SemOp(Values(v.val[0 := v.val[0] + ch.n], v.adj[0 := v.adj[0] - ch.n]), ops[1..]).Some?;
  }

  lemma InUse(pc: Pc)
    ensures pc.Using? ==> Holding(pc)
  {
  }

  /** A close removes the set exactly when nobody else holds it; otherwise it gives back the lock. */
  lemma LastRemoves(s: State, p: nat, ch: Choice)
    requires Inv(s) && p < |s.procs| && s.procs[p].pc.CloseGetVal? && !ch.exits
    ensures
      var id := s.procs[p].pc.id;
      Next(s, p, ch).procs[p].pc == if Holders(s) == {} then CloseRemove(id) else CloseUnlock(id)
  {
    hide Inv, Holders;
    Inside(s, p);
    CloserLocked(s.procs[p].pc);
    HoldersFew(s);
  }

  lemma CloserLocked(pc: Pc)
    ensures pc.CloseGetVal? ==> Locked(pc)
  {
  }

  lemma HoldersFew(s: State)
    ensures |Holders(s)| == 0 <==> Holders(s) == {}
  {
  }

  /** A call fails only for a bad initial value, or when the set was removed between the two system calls of sem_open(). */
  lemma FailsOnlyIf(s: State, p: nat, ch: Choice)
    requires Inv(s) && p < |s.procs| && Enabled(s, p, ch) && !ch.exits && !s.procs[p].pc.Idle?
    requires Next(s, p, ch).procs[p].pc.Idle?
    ensures
      var pc := s.procs[p].pc;
      || (pc.CreateSet0? && !(0 <= pc.initval <= SEMVMX))
      || (pc.OpenOp? && !Live(s, pc.id))
      || (pc.OpenGet? && s.cur.None?)
      || pc.CloseRemove? || pc.CloseUnlock?
  {
    hide Inv, SemOp, Undone, Holders;
    Inside(s, p);
  }

  /** sem_create() begins again when the set is removed before it has the lock. */
  lemma CreateTriesAgain(s: State, p: nat, ch: Choice)
    requires p < |s.procs| && s.procs[p].pc.CreateLock? && !ch.exits && !Live(s, s.procs[p].pc.id)
    ensures Enabled(s, p, ch) && Next(s, p, ch) == s.(procs := s.procs[p := s.procs[p].(pc := CreateGet(s.procs[p].pc.initval))])
  {
  }
}
