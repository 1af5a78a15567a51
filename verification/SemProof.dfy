/** What holds in every state of the counted semaphore. */
module SemProof {
  import opened Common
  import opened SemSet

  /** In sem_create() or sem_close() with the lock. */
  predicate Locked(pc: Pc) {
    pc.CreateGetVal? || pc.CreateSet0? || pc.CreateSet1? || pc.CreateEnd? || pc.CloseGetVal? || pc.CloseRemove? || pc.CloseUnlock?
  }

  /** Between a successful sem_create() or sem_open() and the semop() of sem_close(). */
  predicate Holding(pc: Pc) {
    pc.Using? || pc.CloseLock?
  }

  function One(b: bool): int {
    if b then 1 else 0
  }

  ghost function Holders(s: State): set<nat> {
    set p: nat | p < |s.procs| && Holding(s.procs[p].pc)
  }

  /** Member [1] counts down from BIGCOUNT, one for each holder. */
  ghost predicate Counted(s: State) {
    Ready(s) && Val(s, 1) == BIGCOUNT - |Holders(s)|
  }

  /** Nobody has initialised the set yet. */
  ghost predicate Raw(s: State) {
    !Ready(s) && Val(s, 1) == 0 && Holders(s) == {}
  }

  predicate Ready(s: State) {
    s.cur.Some? && s.cur.value.ready
  }

  ghost predicate SetOk(s: State) {
    s.cur.Some? ==> |s.cur.value.val| == 3 && s.cur.value.id < s.next && 0 <= Val(s, 0) <= SEMVMX
  }

  /** Whoever is inside or holds the semaphore has the set that exists. */
  ghost predicate IdsOk(s: State) {
    forall p | 0 <= p < |s.procs| && (Locked(s.procs[p].pc) || Holding(s.procs[p].pc)) :: Live(s, s.procs[p].pc.id)
  }

  ghost predicate AdjOk(s: State) {
    forall p | 0 <= p < |s.procs| ::
      && |s.procs[p].adj| == 3
      && s.procs[p].adj[1] == One(Holding(s.procs[p].pc)) && s.procs[p].adj[2] == -One(Locked(s.procs[p].pc))
  }

  ghost predicate LockOk(s: State) {
    && (forall p, q | 0 <= p < |s.procs| && 0 <= q < |s.procs| && Locked(s.procs[p].pc) && Locked(s.procs[q].pc) :: p == q)
    && (s.cur.Some? ==> Val(s, 2) == 0 || Val(s, 2) == 1)
    && (s.cur.Some? && Val(s, 2) == 1 ==> exists p :: 0 <= p < |s.procs| && Locked(s.procs[p].pc))
    && (forall p | 0 <= p < |s.procs| && Locked(s.procs[p].pc) :: Val(s, 2) == 1)
  }

  /** What a process inside knows of member [1]. */
  ghost predicate Knows(s: State, pc: Pc) {
    && (pc.CreateSet0? || pc.CreateSet1? ==> Raw(s))
    && (pc.CreateEnd? || pc.CloseGetVal? ==> Counted(s))
    && (pc.CloseRemove? ==> Counted(s) && Holders(s) == {})
  }

  ghost predicate Inv(s: State) {
    && |s.procs| <= BIGCOUNT
    && SetOk(s) && IdsOk(s) && AdjOk(s) && LockOk(s)
    && (s.cur.Some? ==> Counted(s) || Raw(s))
    && forall p | 0 <= p < |s.procs| :: Knows(s, s.procs[p].pc)
  }

  // ---- the set of holders ----

  ghost function Below(n: nat): set<nat> {
    if n == 0 then {} else Below(n - 1) + {n - 1}
  }

  lemma {:induction false} BelowFacts(n: nat)
    ensures |Below(n)| == n && forall q: nat :: q in Below(n) <==> q < n
  {
    if n > 0 {
      BelowFacts(n - 1);
    }
  }

  lemma FewHolders(s: State, p: nat)
    requires p < |s.procs|
    ensures |Holders(s)| <= |s.procs| - One(!Holding(s.procs[p].pc))
  {
    BelowFacts(|s.procs|);
    Subset(Holders(s), Below(|s.procs|) - if Holding(s.procs[p].pc) then {} else {p});
  }

  lemma {:induction false} Subset(a: set<nat>, b: set<nat>)
    requires a <= b
    ensures |a| <= |b|
    decreases a
  {
    if a != {} {
      var x :| x in a;
      Subset(a - {x}, b - {x});
    }
  }

  lemma HoldersMove(s: State, s': State, p: nat)
    requires p < |s.procs| == |s'.procs| && forall q | 0 <= q < |s.procs| && q != p :: s'.procs[q].pc == s.procs[q].pc
    ensures |Holders(s')| == |Holders(s)| + One(Holding(s'.procs[p].pc)) - One(Holding(s.procs[p].pc))
    ensures Holding(s'.procs[p].pc) == Holding(s.procs[p].pc) ==> Holders(s') == Holders(s)
    ensures !Holding(s'.procs[p].pc) ==> Holders(s') <= Holders(s)
  {
    var h, h' := Holders(s), Holders(s');
    OthersHold(s, s', p);
    hide Holding, Holders;
    WithOrWithout(h, h - {p}, p);
    WithOrWithout(h', h - {p}, p);
  }

  lemma WithOrWithout(h: set<nat>, rest: set<nat>, p: nat)
    requires rest == h - {p}
    ensures |h| == |rest| + One(p in h)
    ensures h == rest + if p in h then {p} else {}
  {
    if p in h {
      assert h == rest + {p};
    } else {
      assert h == rest;
    }
  }

  lemma OthersHold(s: State, s': State, p: nat)
    requires p < |s.procs| == |s'.procs| && forall q | 0 <= q < |s.procs| && q != p :: s'.procs[q].pc == s.procs[q].pc
    ensures Holders(s') - {p} == Holders(s) - {p}
    ensures (p in Holders(s) <==> Holding(s.procs[p].pc)) && (p in Holders(s') <==> Holding(s'.procs[p].pc))
  {
    hide Holding;
  }

  // ---- one step ----

  /** Process p's step leaves everyone else where they are, with the adjustments that matter here. */
  ghost predicate OthersStay(s: State, s': State, p: nat) {
    && p < |s.procs| == |s'.procs| && s.cur.Some? && s'.cur.Some? && s'.cur.value.id == s.cur.value.id && s'.next == s.next
    && |s'.cur.value.val| == 3
    && (forall q | 0 <= q < |s.procs| && q != p ::
          && s'.procs[q].pc == s.procs[q].pc
          && |s'.procs[q].adj| == 3 && |s.procs[q].adj| == 3
          && s'.procs[q].adj[1] == s.procs[q].adj[1] && s'.procs[q].adj[2] == s.procs[q].adj[2])
  }

  /** How the step of p moves the lock and the count together with its place. */
  ghost predicate Moves(s: State, s': State, p: nat) {
    && OthersStay(s, s', p) && |s'.procs[p].adj| == 3
    && var pc, pc' := s.procs[p].pc, s'.procs[p].pc;
    && s'.procs[p].adj[1] == One(Holding(pc')) && s'.procs[p].adj[2] == -One(Locked(pc'))
    && Val(s', 2) == Val(s, 2) + One(Locked(pc')) - One(Locked(pc))
    && (Locked(pc') && !Locked(pc) ==> Val(s, 2) == 0)
    && (Locked(pc') || Holding(pc') ==> Live(s, pc'.id))
    && 0 <= Val(s', 0) <= SEMVMX
  }

  /** Member [1] goes with the holders, or the set is initialised under the lock. */
  ghost predicate CountMoves(s: State, s': State, p: nat)
    requires p < |s.procs| && p < |s'.procs|
  {
    var h, h' := Holding(s.procs[p].pc), Holding(s'.procs[p].pc);
    || (Val(s', 1) == Val(s, 1) + One(h) - One(h') && Ready(s') == Ready(s) && (h' && !h ==> Counted(s)))
    || (Locked(s.procs[p].pc) && h == h' && Raw(s) && Ready(s') && Val(s', 1) == BIGCOUNT)
  }

  lemma LockMoves(s: State, s': State, p: nat)
    requires SetOk(s) && IdsOk(s) && AdjOk(s) && LockOk(s) && Moves(s, s', p)
    ensures SetOk(s') && IdsOk(s') && AdjOk(s') && LockOk(s')
  {
    hide Locked, Holding;
    if Val(s', 2) == 1 && !Locked(s'.procs[p].pc) {
      var q :| 0 <= q < |s.procs| && Locked(s.procs[q].pc);
      assert Locked(s'.procs[q].pc);
    }
    if Locked(s'.procs[p].pc) {
      assert Locked(s'.procs[p].pc) && 0 <= p < |s'.procs|;
    }
  }

  lemma CountKept(s: State, s': State, p: nat)
    requires s.cur.Some? && (Counted(s) || Raw(s)) && OthersStay(s, s', p) && CountMoves(s, s', p)
    ensures Counted(s') || Raw(s')
    ensures Counted(s) ==> Counted(s') || Locked(s.procs[p].pc)
    ensures Raw(s) && Holding(s'.procs[p].pc) == Holding(s.procs[p].pc) ==> Raw(s') || Locked(s.procs[p].pc)
    ensures Counted(s) && Val(s', 1) == Val(s, 1) + One(Holding(s.procs[p].pc)) - One(Holding(s'.procs[p].pc)) ==> Counted(s')
  {
    hide Locked, Holding;
    HoldersMove(s, s', p);
    if Raw(s) && Holding(s.procs[p].pc) {
      HolderIn(s, p);
    }
  }

  /** What a process inside knows survives another's step. */
  lemma KnowsKept(s: State, s': State, p: nat, q: nat)
    requires OthersStay(s, s', p) && CountMoves(s, s', p) && q < |s.procs| && q != p && (Counted(s) || Raw(s))
    requires Locked(s.procs[q].pc) ==> !Locked(s.procs[p].pc)
    requires Knows(s, s.procs[q].pc)
    requires s.procs[q].pc.CloseRemove? ==> !(Holding(s'.procs[p].pc) && !Holding(s.procs[p].pc))
    ensures Knows(s', s'.procs[q].pc)
  {
    hide Counted;
    CountKept(s, s', p);
    HoldersMove(s, s', p);
    hide Holding, Holders;
    if Raw(s) && Counted(s) {
      RawIsNotCounted(s);
    }
    if Raw(s) && Holding(s.procs[p].pc) {
      HolderIn(s, p);
    }
  }

  lemma RawIsNotCounted(s: State)
    requires Raw(s)
    ensures !Counted(s)
  {
  }

  lemma HolderIn(s: State, p: nat)
    requires p < |s.procs| && Holding(s.procs[p].pc)
    ensures p in Holders(s)
  {
  }

  lemma Together(s: State, s': State, p: nat)
    requires Inv(s) && Moves(s, s', p) && CountMoves(s, s', p)
    requires Knows(s', s'.procs[p].pc)
    requires Holding(s'.procs[p].pc) && !Holding(s.procs[p].pc) ==>
               forall q | 0 <= q < |s.procs| && q != p :: !s.procs[q].pc.CloseRemove?
    ensures Inv(s')
  {
    hide Counted, Raw, Knows, CountMoves, SetOk, IdsOk, AdjOk, Locked, Holding;
    LockMoves(s, s', p);
    CountKept(s, s', p);
    forall q | 0 <= q < |s'.procs| ensures Knows(s', s'.procs[q].pc) {
      if q != p {
        KnowsKept(s, s', p, q);
      }
    }
  }

  // ---- the steps ----

  /** A state with nobody inside and no holder, and a set not yet initialised if any. */
  lemma NobodyIn(s: State)
    requires |s.procs| <= BIGCOUNT && SetOk(s) && (s.cur.Some? ==> !Ready(s) && Val(s, 1) == 0 && Val(s, 2) == 0)
    requires forall q | 0 <= q < |s.procs| ::
               && !Locked(s.procs[q].pc) && !Holding(s.procs[q].pc)
               && |s.procs[q].adj| == 3 && s.procs[q].adj[1] == 0 && s.procs[q].adj[2] == 0
    ensures Inv(s)
  {
    assert Holders(s) == {};
  }

  lemma NoSet(s: State)
    requires Inv(s) && s.cur.None?
    ensures forall q | 0 <= q < |s.procs| ::
              && !Locked(s.procs[q].pc) && !Holding(s.procs[q].pc)
              && |s.procs[q].adj| == 3 && s.procs[q].adj[1] == 0 && s.procs[q].adj[2] == 0
  {
  }

  lemma Inside(s: State, p: nat)
    requires Inv(s) && p < |s.procs|
    ensures |s.procs[p].adj| == 3 && s.procs[p].adj[1] == One(Holding(s.procs[p].pc)) && s.procs[p].adj[2] == -One(Locked(s.procs[p].pc))
    ensures Locked(s.procs[p].pc) || Holding(s.procs[p].pc) ==> Live(s, s.procs[p].pc.id)
    ensures Locked(s.procs[p].pc) ==> Val(s, 2) == 1
    ensures s.cur.Some? ==> |s.cur.value.val| == 3 && 0 <= Val(s, 0) <= SEMVMX && 0 <= Val(s, 1) <= BIGCOUNT && 0 <= Val(s, 2) <= 1
    ensures s.cur.Some? && Holding(s.procs[p].pc) ==> Counted(s) && Val(s, 1) < BIGCOUNT
    ensures Knows(s, s.procs[p].pc)
    ensures forall q | 0 <= q < |s.procs| :: |s.procs[q].adj| == 3
  {
    FewHolders(s, p);
    if Holding(s.procs[p].pc) {
      HolderIn(s, p);
    }
  }

  lemma ExitStep(s: State, p: nat)
    requires Inv(s) && p < |s.procs|
    ensures Inv(Exit(s, p))
  {
    hide Inv, Counted, Raw;
    var s' := Exit(s, p);
    Inside(s, p);
    if s.cur.Some? {
      Together(s, s', p);
    } else {
      NoSet(s);
      InvSizes(s);
      NobodyIn(s');
    }
  }

  lemma InvSizes(s: State)
    requires Inv(s)
    ensures |s.procs| <= BIGCOUNT && SetOk(s)
  {
  }

  lemma GotoStep(s: State, p: nat, pc: Pc)
    requires Inv(s) && p < |s.procs| && Locked(pc) == Locked(s.procs[p].pc) && Holding(pc) == Holding(s.procs[p].pc)
    requires Locked(pc) || Holding(pc) ==> pc.id == s.procs[p].pc.id
    requires Knows(s, pc)
    ensures Inv(Goto(s, p, pc))
  {
    hide Inv, Counted, Raw, Locked, Holding, Knows;
    var s' := Goto(s, p, pc);
    Inside(s, p);
    if s.cur.Some? {
      HoldersMove(s, s', p);
      KnowsSame(s, s', pc);
      Together(s, s', p);
    } else {
      NoSet(s);
      InvSizes(s);
      NobodyIn(s');
    }
  }

  lemma KnowsSame(s: State, s': State, pc: Pc)
    requires Knows(s, pc) && s'.cur == s.cur && Holders(s') == Holders(s)
    ensures Knows(s', pc)
  {
  }

  /** A semop() that is done moves the members as the process moves. */
  lemma SemOpStep(s: State, p: nat, ops: seq<SemBuf>, pc: Pc)
    requires Inv(s) && p < |s.procs| && s.cur.Some? && Try(s, p, ops).Some?
    requires Sum(ops, 1) == One(Holding(s.procs[p].pc)) - One(Holding(pc))
    requires Sum(ops, 2) == One(Locked(pc)) - One(Locked(s.procs[p].pc))
    requires Locked(pc) && !Locked(s.procs[p].pc) ==> Val(s, 2) == 0
    requires Locked(pc) || Holding(pc) ==> Live(s, pc.id)
    requires Holding(pc) && !Holding(s.procs[p].pc) ==> Counted(s)
    requires Holding(pc) && !Holding(s.procs[p].pc) ==> forall q | 0 <= q < |s.procs| && q != p :: !s.procs[q].pc.CloseRemove?
    requires pc.CloseGetVal? ==> Counted(s)
    requires !pc.CreateSet0? && !pc.CreateSet1? && !pc.CreateEnd? && !pc.CloseRemove?
    ensures
      var v := Try(s, p, ops).value;
      Inv(State(Some(s.cur.value.(val := v.val)), s.next, s.procs[p := Proc(pc, v.adj)]))
  {
    hide Inv, Raw, Locked, Holding, SemOp, Sum;
    var v := Try(s, p, ops).value;
    var s' := State(Some(s.cur.value.(val := v.val)), s.next, s.procs[p := Proc(pc, v.adj)]);
    Inside(s, p);
    SemOpAdds(Values(s.cur.value.val, s.procs[p].adj), ops);
    HoldersMove(s, s', p);
    Together(s, s', p);
  }

  lemma SumCons(op: SemBuf, ops: seq<SemBuf>, i: nat)
    ensures Sum([op] + ops, i) == (if op.num == i then op.amount else 0) + Sum(ops, i)
  {
    assert ([op] + ops)[1..] == ops;
  }

  lemma OpSums(i: nat, n: int)
    ensures Sum(OpLock(), i) == One(i == 2)
    ensures Sum(OpEndCreate(), i) == -One(i == 1) - One(i == 2)
    ensures Sum(OpOpen(), i) == -One(i == 1)
    ensures Sum(OpClose(), i) == One(i == 2) + One(i == 1)
    ensures Sum(OpUnlock(), i) == -One(i == 2)
    ensures Sum(OpOp(n), i) == if i == 0 then n else 0
  {
    assert OpLock() == [SemBuf(2, 0)] + [SemBuf(2, 1)] && OpEndCreate() == [SemBuf(1, -1)] + [SemBuf(2, -1)];
    assert OpClose() == [SemBuf(2, 0)] + [SemBuf(2, 1), SemBuf(1, 1)];
    assert [SemBuf(2, 1), SemBuf(1, 1)] == [SemBuf(2, 1)] + [SemBuf(1, 1)];
    SumCons(SemBuf(2, 0), [SemBuf(2, 1)], i);
    SumCons(SemBuf(1, -1), [SemBuf(2, -1)], i);
    SumCons(SemBuf(2, 0), [SemBuf(2, 1), SemBuf(1, 1)], i);
    SumCons(SemBuf(2, 1), [SemBuf(1, 1)], i);
  }

  /** The lock is taken only when it is free, and the count goes down only when it is above 0. */
  lemma OpGuards(v: Values)
    requires |v.val| == |v.adj| == 3
    ensures SemOp(v, OpLock()).Some? ==> v.val[2] == 0
    ensures SemOp(v, OpClose()).Some? ==> v.val[2] == 0
    ensures SemOp(v, OpOpen()).Some? ==> v.val[1] > 0
  {
  }

  lemma Alone(s: State, p: nat)
    requires Inv(s) && p < |s.procs| && Locked(s.procs[p].pc)
    ensures forall q | 0 <= q < |s.procs| && q != p :: !Locked(s.procs[q].pc)
  {
    hide Locked;
  }

  lemma ApplyKeeps(s: State, p: nat, ch: Choice)
    requires Inv(s) && p < |s.procs| && Enabled(s, p, ch) && !ch.exits && Ops(s.procs[p].pc, ch.n).Some? && !Slips(s, p, ch)
    requires Live(s, s.procs[p].pc.id)
    ensures Inv(Next(s, p, ch))
  {
    hide Inv, SemOp, Sum, Exit, Slips;
    var pc := s.procs[p].pc;
    var ops := Ops(pc, ch.n).value;
    Inside(s, p);
    OpSums(1, ch.n);
    OpSums(2, ch.n);
    OpGuards(Values(s.cur.value.val, s.procs[p].adj));
    CountedOrRaw(s);
    if pc.CreateEnd? {
      Alone(s, p);
    }
    if pc.OpenOp? {
      NoRemover(s, p, ch);
    }
    SemOpStep(s, p, ops, Next(s, p, ch).procs[p].pc);
  }

  lemma CountedOrRaw(s: State)
    requires Inv(s) && s.cur.Some?
    ensures Counted(s) || Val(s, 1) == 0
  {
  }

  lemma NoRemover(s: State, p: nat, ch: Choice)
    requires Inv(s) && p < |s.procs| && !Slips(s, p, ch) && !ch.exits && s.procs[p].pc.OpenOp? && Live(s, s.procs[p].pc.id)
    ensures forall q | 0 <= q < |s.procs| && q != p :: !s.procs[q].pc.CloseRemove?
  {
    hide SetOk, AdjOk, LockOk, Knows, Raw, Counted;
  }

  lemma GoneKeeps(s: State, p: nat, ch: Choice)
    requires Inv(s) && p < |s.procs| && !ch.exits && Ops(s.procs[p].pc, ch.n).Some? && !Live(s, s.procs[p].pc.id)
    ensures Inv(Next(s, p, ch))
  {
    hide Inv, Exit, Goto;
    if s.procs[p].pc.CreateLock? {
      GotoStep(s, p, CreateGet(s.procs[p].pc.initval));
    } else {
      ExitStep(s, p);
    }
  }

  lemma GetKeeps(s: State, p: nat, ch: Choice)
    requires Inv(s) && p < |s.procs| && !ch.exits && s.procs[p].pc.CreateGet?
    ensures Inv(Next(s, p, ch))
  {
    hide Inv;
    if s.cur.Some? {
      GotoStep(s, p, CreateLock(s.cur.value.id, s.procs[p].pc.initval));
    } else {
      NoSet(s);
      InvSizes(s);
      NobodyIn(Next(s, p, ch));
    }
  }

  lemma SetKeeps(s: State, p: nat, ch: Choice)
    requires Inv(s) && p < |s.procs| && !ch.exits && (s.procs[p].pc.CreateSet0? || s.procs[p].pc.CreateSet1?)
    ensures Inv(Next(s, p, ch))
  {
    hide Inv, Exit;
    var s' := Next(s, p, ch);
    Inside(s, p);
    if s' == Exit(s, p) {
      ExitStep(s, p);
    } else {
      HoldersMove(s, s', p);
      Nobody(s);
      hide Holders;
      Together(s, s', p);
    }
  }

  lemma Nobody(s: State)
    requires Inv(s) && Holders(s) == {}
    ensures forall q | 0 <= q < |s.procs| :: |s.procs[q].adj| == 3 && s.procs[q].adj[1] == 0
  {
    forall q | 0 <= q < |s.procs| ensures !Holding(s.procs[q].pc) {
      assert q !in Holders(s);
    }
  }

  lemma RemoveKeeps(s: State, p: nat, ch: Choice)
    requires Inv(s) && p < |s.procs| && !ch.exits && s.procs[p].pc.CloseRemove?
    ensures Inv(Next(s, p, ch))
  {
    hide Inv, Exit, Locked, Holding;
    Inside(s, p);
    InvSizes(s);
    RemoverAlone(s, p);
    NobodyIn(Next(s, p, ch));
  }

  /** When a set is removed no other process holds it or is inside. */
  lemma RemoverAlone(s: State, p: nat)
    requires Inv(s) && p < |s.procs| && s.procs[p].pc.CloseRemove?
    ensures Live(s, s.procs[p].pc.id)
    ensures forall q | 0 <= q < |s.procs| :: !Holding(s.procs[q].pc) && (q != p ==> !Locked(s.procs[q].pc))
    ensures !Locked(Idle) && !Holding(Idle)
  {
    Alone(s, p);
    forall q | 0 <= q < |s.procs| ensures !Holding(s.procs[q].pc) {
      assert q !in Holders(s);
    }
  }

  lemma PlainKeeps(s: State, p: nat, ch: Choice)
    requires Inv(s) && p < |s.procs| && !ch.exits && Ops(s.procs[p].pc, ch.n).None?
    requires !s.procs[p].pc.CreateGet? && !s.procs[p].pc.CreateSet0? && !s.procs[p].pc.CreateSet1? && !s.procs[p].pc.CloseRemove?
    ensures Inv(Next(s, p, ch))
  {
    hide Inv, Exit, Goto, Holders;
    Inside(s, p);
    if Next(s, p, ch) == Exit(s, p) {
      ExitStep(s, p);
    } else {
      var pc := s.procs[p].pc;
      if pc.CreateGetVal? {
        ReadsCount(s, p);
      } else if pc.CloseGetVal? && Val(s, 1) == BIGCOUNT {
        NoHolders(s);
      }
      GotoStep(s, p, PlainPc(s, pc, ch));
    }
  }

  function PlainPc(s: State, pc: Pc, ch: Choice): Pc {
    match pc
    case Idle => if ch.opens then OpenGet else CreateGet(ch.n)
    case CreateGetVal(id, v) => if Val(s, 1) == 0 then CreateSet0(id, v) else CreateEnd(id)
    case OpenGet => if s.cur.Some? then OpenOp(s.cur.value.id) else Idle
    case Using(id) => CloseLock(id)
    case CloseGetVal(id) => if Val(s, 1) == BIGCOUNT then CloseRemove(id) else CloseUnlock(id)
    case _ => pc
  }

  lemma NoHolders(s: State)
    requires Counted(s) && Val(s, 1) == BIGCOUNT
    ensures Holders(s) == {}
  {
    assert |Holders(s)| == 0;
  }

  /** sem_create() finds member [1] to be 0 exactly when nobody has initialised the set. */
  lemma ReadsCount(s: State, p: nat)
    requires Inv(s) && p < |s.procs| && s.procs[p].pc.CreateGetVal?
    ensures if Val(s, 1) == 0 then Raw(s) else Counted(s)
  {
    FewHolders(s, p);
  }

  /**
   Every step keeps the invariant: a system call, an error, or an exit at any point, as long as no sem_open() slips in
   between a closer's reading of the count and its removal of the set.
   */
  lemma StepKeeps(s: State, p: nat, ch: Choice)
    requires Inv(s) && p < |s.procs| && Enabled(s, p, ch) && !Slips(s, p, ch)
    ensures Inv(Next(s, p, ch)) && |Next(s, p, ch).procs| == |s.procs|
  {
    hide Inv, Slips, Enabled;
    var pc := s.procs[p].pc;
    if ch.exits {
      ExitStep(s, p);
    } else if Ops(pc, ch.n).Some? {
      if Live(s, pc.id) {
        ApplyKeeps(s, p, ch);
      } else {
        GoneKeeps(s, p, ch);
      }
    } else if pc.CreateGet? {
      GetKeeps(s, p, ch);
    } else if pc.CreateSet0? || pc.CreateSet1? {
      SetKeeps(s, p, ch);
    } else if pc.CloseRemove? {
      RemoveKeeps(s, p, ch);
    } else {
      PlainKeeps(s, p, ch);
    }
  }
}
