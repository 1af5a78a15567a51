/** The counted semaphore over whole runs, and the two ways to break it: a sem_open() at the wrong moment, too many users. */
module SemTheorem {
  import opened Common
  import opened SemSet
  import opened SemProof

  datatype Move = Move(p: nat, ch: Choice)

  /** The moves can be made one after another, and `s'` is where they lead. */
  ghost predicate Leads(s: State, moves: seq<Move>, s': State)
    decreases |moves|
  {
    if moves == [] then s' == s
    else moves[0].p < |s.procs| && Enabled(s, moves[0].p, moves[0].ch) && Leads(Next(s, moves[0].p, moves[0].ch), moves[1..], s')
  }

  ghost predicate NoSlip(s: State, moves: seq<Move>)
    decreases |moves|
  {
    moves == [] || (moves[0].p < |s.procs| && !Slips(s, moves[0].p, moves[0].ch) && NoSlip(Next(s, moves[0].p, moves[0].ch), moves[1..]))
  }

  lemma InitialOk(s: State)
    requires Initial(s) && |s.procs| <= BIGCOUNT
    ensures Inv(s)
  {
    NobodyIn(s);
  }

  lemma {:induction false} InvThroughout(s: State, moves: seq<Move>, s': State)
    requires Inv(s) && Leads(s, moves, s') && NoSlip(s, moves)
    ensures Inv(s') && |s'.procs| == |s.procs|
    decreases |moves|
  {
    hide Inv, Next, Enabled, Slips;
    if moves != [] {
      StepKeeps(s, moves[0].p, moves[0].ch);
      InvThroughout(Next(s, moves[0].p, moves[0].ch), moves[1..], s');
    }
  }

  /**
   Up to BIGCOUNT users, whoever exits whenever: member [2] guards one process; a set that has been initialised has
   BIGCOUNT minus its holders in member [1]; the set a process removes has no holder and no other process inside; a set
   is initialised only while it has no holder; every holder's set exists; the count is never above BIGCOUNT.
   */
  lemma Protocol(s: State, moves: seq<Move>, s': State)
    requires Initial(s) && |s.procs| <= BIGCOUNT && Leads(s, moves, s') && NoSlip(s, moves)
    ensures s'.cur.Some? ==> 0 <= Val(s', 2) <= 1
    ensures s'.cur.Some? && s'.cur.value.ready ==> Val(s', 1) == BIGCOUNT - |Holders(s')|
    ensures s'.cur.Some? && !s'.cur.value.ready ==> Val(s', 1) == 0 && Holders(s') == {}
    ensures forall p, q | 0 <= p < |s'.procs| && 0 <= q < |s'.procs| && Locked(s'.procs[p].pc) && Locked(s'.procs[q].pc) :: p == q
    ensures s'.cur.Some? ==> (Val(s', 2) == 1 <==> exists p :: 0 <= p < |s'.procs| && Locked(s'.procs[p].pc))
    ensures forall p | 0 <= p < |s'.procs| ::
              && (Holding(s'.procs[p].pc) ==> Live(s', s'.procs[p].pc.id))
              && (s'.procs[p].pc.CloseRemove? ==>
                    Live(s', s'.procs[p].pc.id) && Holders(s') == {} && forall q | 0 <= q < |s'.procs| && q != p :: !Locked(s'.procs[q].pc))
              && (s'.procs[p].pc.CreateSet0? || s'.procs[p].pc.CreateSet1? ==> Holders(s') == {})
              && (s'.procs[p].pc.CloseGetVal? ==> Val(s', 1) <= BIGCOUNT)
  {
    InitialOk(s);
    InvThroughout(s, moves, s');
    hide Holders, Locked, Holding, Leads, NoSlip, Initial, Raw, IdsOk, AdjOk;
    forall p | 0 <= p < |s'.procs|
      ensures Holding(s'.procs[p].pc) ==> Live(s', s'.procs[p].pc.id)
      ensures s'.procs[p].pc.CloseRemove? ==>
          Live(s', s'.procs[p].pc.id) && Holders(s') == {} && forall q | 0 <= q < |s'.procs| && q != p :: !Locked(s'.procs[q].pc)
      ensures s'.procs[p].pc.CreateSet0? || s'.procs[p].pc.CreateSet1? ==> Holders(s') == {}
      ensures s'.procs[p].pc.CloseGetVal? ==> Val(s', 1) <= BIGCOUNT
    {
      Inside(s', p);
      InitsRaw(s', p);
      if s'.procs[p].pc.CloseRemove? {
        RemoverAlone(s', p);
      }
    }
  }

  lemma InitsRaw(s: State, p: nat)
    requires Inv(s) && p < |s.procs|
    ensures s.procs[p].pc.CreateSet0? || s.procs[p].pc.CreateSet1? || s.procs[p].pc.CloseRemove? ==> Holders(s) == {}
  {
  }

  /** Nobody ever calls sem_open(). */
  ghost predicate OnlyCreates(moves: seq<Move>) {
    forall m <- moves :: !m.ch.opens
  }

  predicate Opens(pc: Pc) {
    pc.OpenGet? || pc.OpenOp?
  }

  predicate NoOpener(s: State) {
    forall q :: 0 <= q < |s.procs| ==> !Opens(s.procs[q].pc)
  }

  /** With users entering only through sem_create() nothing slips in, so Protocol holds of every such run. */
  lemma {:induction false} CreatorsDoNotSlip(s: State, moves: seq<Move>, s': State)
    requires NoOpener(s) && Leads(s, moves, s') && OnlyCreates(moves)
    ensures NoSlip(s, moves)
    decreases |moves|
  {
    hide Next, Enabled, SemOp;
    if moves != [] {
      assert moves[0] in moves;
      StaysCreator(s, moves[0].p, moves[0].ch);
      CreatorsDoNotSlip(Next(s, moves[0].p, moves[0].ch), moves[1..], s');
    }
  }

  /** Everybody but p is where they were. */
  ghost predicate OthersThere(s: State, s': State, p: nat) {
    |s'.procs| == |s.procs| && forall q | 0 <= q < |s.procs| && q != p :: s'.procs[q].pc == s.procs[q].pc
  }

  lemma ExitPlaces(s: State, p: nat)
    requires p < |s.procs|
    ensures OthersThere(s, Exit(s, p), p) && Exit(s, p).procs[p].pc == Idle
  {
    hide Undone;
  }

  lemma ApplyPlaces(s: State, p: nat, id: nat, ops: seq<SemBuf>, pc: Pc)
    requires p < |s.procs| && !Opens(s.procs[p].pc) && !Opens(pc)
    ensures OthersThere(s, Apply(s, p, id, ops, pc), p) && !Opens(Apply(s, p, id, ops, pc).procs[p].pc)
  {
    hide Exit, Try, Live;
    ExitPlaces(s, p);
  }

  lemma SetPlaces(s: State, p: nat, i: nat, x: int)
    requires p < |s.procs|
    ensures OthersThere(s, SetVal(s, i, x), p) && OthersThere(s, Remove(s), p)
  {
  }

  lemma StepPlaces(s: State, p: nat, ch: Choice)
    requires p < |s.procs| && !Opens(s.procs[p].pc) && !ch.opens
    ensures OthersThere(s, Next(s, p, ch), p) && !Opens(Next(s, p, ch).procs[p].pc)
  {
    hide Exit, Apply, SetVal, Remove, Live, Val;
    ExitPlaces(s, p);
    var pc := s.procs[p].pc;
    match pc
    case CreateLock(id, v) => ApplyPlaces(s, p, id, OpLock(), CreateGetVal(id, v));
    case CreateSet0(_, v) => SetPlaces(s, p, 0, v);
    case CreateSet1(_) => SetPlaces(s, p, 1, BIGCOUNT);
    case CreateEnd(id) => ApplyPlaces(s, p, id, OpEndCreate(), Using(id));
    case Using(id) => ApplyPlaces(s, p, id, OpOp(ch.n), Using(id));
    case CloseLock(id) => ApplyPlaces(s, p, id, OpClose(), CloseGetVal(id));
    case CloseRemove(_) => SetPlaces(s, p, 0, 0);
    case CloseUnlock(id) => ApplyPlaces(s, p, id, OpUnlock(), Idle);
    case _ =>
  }

  lemma StaysCreator(s: State, p: nat, ch: Choice)
    requires NoOpener(s) && p < |s.procs| && !ch.opens
    ensures NoOpener(Next(s, p, ch)) && !Slips(s, p, ch)
  {
    hide Next;
    StepPlaces(s, p, ch);
  }

  /** The same guarantees, for users that enter only through sem_create(). */
  lemma CreatorsProtocol(s: State, moves: seq<Move>, s': State, p: nat)
    requires Initial(s) && |s.procs| <= BIGCOUNT && Leads(s, moves, s') && OnlyCreates(moves) && p < |s'.procs|
    ensures Holding(s'.procs[p].pc) ==> Live(s', s'.procs[p].pc.id)
    ensures s'.procs[p].pc.CloseRemove? || s'.procs[p].pc.CreateSet0? || s'.procs[p].pc.CreateSet1? ==> Holders(s') == {}
    ensures s'.cur.Some? && s'.cur.value.ready ==> Val(s', 1) == BIGCOUNT - |Holders(s')|
    ensures forall q | 0 <= q < |s'.procs| && Locked(s'.procs[p].pc) && Locked(s'.procs[q].pc) :: p == q
  {
    hide Leads, NoSlip, Holders, Locked, Holding;
    CreatorsDoNotSlip(s, moves, s');
    Protocol(s, moves, s');
  }

  /** Whoever is inside can take its next step without exiting, so the lock is always given back. */
  lemma InsiderMoves(s: State, p: nat, ch: Choice)
    requires Inv(s) && p < |s.procs| && Locked(s.procs[p].pc)
    ensures Enabled(s, p, ch)
  {
    FewHolders(s, p);
  }

  /** No deadlock: a process that waits in sem_create() or sem_close() waits for a process inside, which can move. */
  lemma NoDeadlock(s: State, moves: seq<Move>, s': State, p: nat, ch: Choice) returns (q: nat)
    requires Initial(s) && |s.procs| <= BIGCOUNT && Leads(s, moves, s') && NoSlip(s, moves)
    requires p < |s'.procs| && !s'.procs[p].pc.Using? && !s'.procs[p].pc.OpenOp?
    ensures q < |s'.procs| && Enabled(s', q, ch) && (q != p ==> Locked(s'.procs[q].pc))
  {
    InitialOk(s);
    InvThroughout(s, moves, s');
    hide Inv, Locked;
    if Enabled(s', p, ch) || !Live(s', s'.procs[p].pc.id) {
      q := p;
    } else {
      q := Insider(s', p, ch);
      InsiderMoves(s', q, ch);
    }
  }

  lemma Insider(s: State, p: nat, ch: Choice) returns (q: nat)
    requires Inv(s) && p < |s.procs| && !Enabled(s, p, ch) && !s.procs[p].pc.Using? && !s.procs[p].pc.OpenOp?
    ensures q < |s.procs| && Locked(s.procs[q].pc)
  {
    Inside(s, p);
    if Locked(s.procs[p].pc) {
      InsiderMoves(s, p, ch);
      q := p;
    } else {
      if Val(s, 2) == 0 {
        FreeLock(Values(s.cur.value.val, s.procs[p].adj));
      }
      q :| 0 <= q < |s.procs| && Locked(s.procs[q].pc);
    }
  }

  lemma FreeLock(v: Values)
    requires |v.val| == |v.adj| == 3 && v.val[2] == 0 && 0 <= v.val[1] <= BIGCOUNT
    ensures SemOp(v, OpLock()).Some? && SemOp(v, OpClose()).Some?
  {
  }

  /** Any sem_open() that slips in gets a set that the closer's next step takes away from it. */
  lemma SlipLosesSet(s: State, p: nat, ch: Choice) returns (q: nat, ch': Choice)
    requires Inv(s) && p < |s.procs| && Enabled(s, p, ch) && Slips(s, p, ch)
    ensures
      var s1 := Next(s, p, ch);
      && q < |s1.procs| && s1.procs[q].pc.CloseRemove? && Enabled(s1, q, ch')
      && s1.procs[p].pc == Using(s.procs[p].pc.id) && Live(s1, s.procs[p].pc.id)
      && Next(s1, q, ch').procs[p].pc == Using(s.procs[p].pc.id) && !Live(Next(s1, q, ch'), s.procs[p].pc.id)
  {
    hide Inv, SemOp;
    q :| 0 <= q < |s.procs| && s.procs[q].pc.CloseRemove? && s.procs[q].pc.id == s.procs[p].pc.id;
    ch' := Choice(false, false, 0);
  }

  // ---- building runs ----

  function Go(): Choice { Choice(false, false, 0) }

  /** One move put in front. */
  lemma First(s: State, p: nat, ch: Choice, moves: seq<Move>, s': State) returns (m: seq<Move>)
    requires p < |s.procs| && Enabled(s, p, ch) && Leads(Next(s, p, ch), moves, s')
    ensures Leads(s, m, s')
  {
    m := [Move(p, ch)] + moves;
    assert m[1..] == moves;
  }

  lemma {:induction false} Then(s: State, m: seq<Move>, t: State, m': seq<Move>, s': State)
    requires Leads(s, m, t) && Leads(t, m', s')
    ensures Leads(s, m + m', s')
    decreases |m|
  {
    hide Next, Enabled;
    if m == [] {
      assert m + m' == m';
    } else {
      Then(Next(s, m[0].p, m[0].ch), m[1..], t, m', s');
      assert (m + m')[1..] == m[1..] + m';
    }
  }

  // ---- more users than BIGCOUNT ----

  /** The first k of n processes hold the set; process k is at `pc`, the rest have not started. */
  function Crowd(n: nat, k: nat, pc: Pc, adj: seq<int>, v1: int, v2: int): State {
    State(Some(Set(0, [0, v1, v2], k > 0 || v1 > 0)), 1,
          seq(n, i requires 0 <= i < n => if i < k then Proc(Using(0), [0, 1, 0]) else if i == k then Proc(pc, adj) else Proc(Idle, [0, 0, 0])))
  }

  function CrowdOf(n: nat, k: nat): State {
    Crowd(n, k, Idle, [0, 0, 0], BIGCOUNT - k, 0)
  }

  lemma LockDone(a: int, b: int)
    ensures SemOp(Values([a, b, 0], [0, 0, 0]), OpLock()) == Some(Values([a, b, 1], [0, 0, -1]))
  {
    var v := Values([a, b, 0], [0, 0, 0]);
    assert SemOp(v, OpLock()) == SemOp(v, [SemBuf(2, 1)]);
    assert v.val[2 := 1] == [a, b, 1] && v.adj[2 := -1] == [0, 0, -1];
  }

  lemma EndDone(a: int, b: int)
    requires 0 < b <= SEMVMX
    ensures SemOp(Values([a, b, 1], [0, 0, -1]), OpEndCreate()) == Some(Values([a, b - 1, 0], [0, 1, 0]))
  {
    var v := Values([a, b, 1], [0, 0, -1]);
    var w := Values(v.val[1 := b - 1], v.adj[1 := 1]);
    assert OpEndCreate()[1..] == [SemBuf(2, -1)];
    assert SemOp(v, OpEndCreate()) == SemOp(w, [SemBuf(2, -1)]);
    assert w.val[2 := 0] == [a, b - 1, 0] && w.adj[2 := 0] == [0, 1, 0];
  }

  lemma CrowdLock(n: nat, k: nat, v1: int)
    requires k < n
    ensures |Crowd(n, k, CreateLock(0, 0), [0, 0, 0], v1, 0).procs| == n
    ensures Enabled(Crowd(n, k, CreateLock(0, 0), [0, 0, 0], v1, 0), k, Go())
    ensures Next(Crowd(n, k, CreateLock(0, 0), [0, 0, 0], v1, 0), k, Go()) == Crowd(n, k, CreateGetVal(0, 0), [0, 0, -1], v1, 1)
  {
    hide SemOp;
    LockDone(0, v1);
  }

  lemma CrowdEnd(n: nat, k: nat, v1: int)
    requires k < n && 0 < v1 <= BIGCOUNT && (k == 0 ==> v1 > 1)
    ensures |Crowd(n, k, CreateEnd(0), [0, 0, -1], v1, 1).procs| == n
    ensures Enabled(Crowd(n, k, CreateEnd(0), [0, 0, -1], v1, 1), k, Go())
    ensures Next(Crowd(n, k, CreateEnd(0), [0, 0, -1], v1, 1), k, Go()) == Crowd(n, k, Using(0), [0, 1, 0], v1 - 1, 0)
  {
    hide SemOp;
    EndDone(0, v1);
  }

  lemma CrowdGoto(n: nat, k: nat, pc: Pc, adj: seq<int>, v1: int, v2: int, pc': Pc)
    requires k < n
    ensures
      var s := Crowd(n, k, pc, adj, v1, v2);
      |s.procs| == n && s.procs[k] == Proc(pc, adj) && Live(s, 0) && Val(s, 1) == v1 && Goto(s, k, pc') == Crowd(n, k, pc', adj, v1, v2)
  {
  }

  lemma CrowdPlain(n: nat, k: nat, v1: int)
    requires k < n
    ensures |Crowd(n, k, Idle, [0, 0, 0], v1, 0).procs| == |Crowd(n, k, CreateGet(0), [0, 0, 0], v1, 0).procs| == n
    ensures |Crowd(n, k, CreateGetVal(0, 0), [0, 0, -1], v1, 1).procs| == n
    ensures Enabled(Crowd(n, k, Idle, [0, 0, 0], v1, 0), k, Go())
    ensures Next(Crowd(n, k, Idle, [0, 0, 0], v1, 0), k, Go()) == Crowd(n, k, CreateGet(0), [0, 0, 0], v1, 0)
    ensures Enabled(Crowd(n, k, CreateGet(0), [0, 0, 0], v1, 0), k, Go())
    ensures Next(Crowd(n, k, CreateGet(0), [0, 0, 0], v1, 0), k, Go()) == Crowd(n, k, CreateLock(0, 0), [0, 0, 0], v1, 0)
    ensures Enabled(Crowd(n, k, CreateGetVal(0, 0), [0, 0, -1], v1, 1), k, Go())
    ensures Next(Crowd(n, k, CreateGetVal(0, 0), [0, 0, -1], v1, 1), k, Go())
         == Crowd(n, k, if v1 == 0 then CreateSet0(0, 0) else CreateEnd(0), [0, 0, -1], v1, 1)
  {
    CrowdGoto(n, k, Idle, [0, 0, 0], v1, 0, CreateGet(0));
    CrowdGoto(n, k, CreateGet(0), [0, 0, 0], v1, 0, CreateLock(0, 0));
    CrowdGoto(n, k, CreateGetVal(0, 0), [0, 0, -1], v1, 1, if v1 == 0 then CreateSet0(0, 0) else CreateEnd(0));
    hide Crowd, Goto;
  }

  /** From k holders, process k calls sem_create() and gets as far as having read the count. */
  lemma Enters(n: nat, k: nat) returns (moves: seq<Move>)
    requires 0 < k < n
    ensures
      var pc := if k == BIGCOUNT then CreateSet0(0, 0) else CreateEnd(0);
      Leads(CrowdOf(n, k), moves, Crowd(n, k, pc, [0, 0, -1], BIGCOUNT - k, 1))
  {
    hide Crowd, SemOp, Next, Enabled;
    var v := BIGCOUNT - k;
    var s' := Crowd(n, k, if k == BIGCOUNT then CreateSet0(0, 0) else CreateEnd(0), [0, 0, -1], v, 1);
    CrowdPlain(n, k, v);
    CrowdLock(n, k, v);
    moves := [];
    moves := First(Crowd(n, k, CreateGetVal(0, 0), [0, 0, -1], v, 1), k, Go(), moves, s');
    moves := First(Crowd(n, k, CreateLock(0, 0), [0, 0, 0], v, 0), k, Go(), moves, s');
    moves := First(Crowd(n, k, CreateGet(0), [0, 0, 0], v, 0), k, Go(), moves, s');
    moves := First(CrowdOf(n, k), k, Go(), moves, s');
  }

  /** The first sem_create() makes the set and initialises it. */
  lemma FirstUser(n: nat) returns (moves: seq<Move>)
    requires 0 < n
    ensures Leads(State(None, 0, seq(n, _ => Proc(Idle, [0, 0, 0]))), moves, CrowdOf(n, 1))
  {
    hide SemOp, Enabled;
    var start := State(None, 0, seq(n, _ => Proc(Idle, [0, 0, 0])));
    var got := State(None, 0, start.procs[0 := Proc(CreateGet(0), [0, 0, 0])]);
    var s' := CrowdOf(n, 1);
    FirstPlain(n);
    CrowdLock(n, 0, 0);
    CrowdPlain(n, 0, 0);
    CrowdEnd(n, 0, BIGCOUNT);
    CrowdGrows(n, 0, BIGCOUNT - 1);
    hide Crowd, Next;
    moves := [];
    moves := First(Crowd(n, 0, CreateEnd(0), [0, 0, -1], BIGCOUNT, 1), 0, Go(), moves, s');
    moves := First(Crowd(n, 0, CreateSet1(0), [0, 0, -1], 0, 1), 0, Go(), moves, s');
    moves := First(Crowd(n, 0, CreateSet0(0, 0), [0, 0, -1], 0, 1), 0, Go(), moves, s');
    moves := First(Crowd(n, 0, CreateGetVal(0, 0), [0, 0, -1], 0, 1), 0, Go(), moves, s');
    moves := First(Crowd(n, 0, CreateLock(0, 0), [0, 0, 0], 0, 0), 0, Go(), moves, s');
    moves := First(got, 0, Go(), moves, s');
    moves := First(start, 0, Go(), moves, s');
  }

  lemma FirstPlain(n: nat)
    requires 0 < n
    ensures
      var start := State(None, 0, seq(n, _ => Proc(Idle, [0, 0, 0])));
      var got := State(None, 0, start.procs[0 := Proc(CreateGet(0), [0, 0, 0])]);
      && Enabled(start, 0, Go()) && Next(start, 0, Go()) == got
      && Enabled(got, 0, Go()) && Next(got, 0, Go()) == Crowd(n, 0, CreateLock(0, 0), [0, 0, 0], 0, 0)
    ensures
      var s := Crowd(n, 0, CreateSet0(0, 0), [0, 0, -1], 0, 1);
      |s.procs| == n && Enabled(s, 0, Go()) && Next(s, 0, Go()) == Crowd(n, 0, CreateSet1(0), [0, 0, -1], 0, 1)
    ensures
      var s := Crowd(n, 0, CreateSet1(0), [0, 0, -1], 0, 1);
      |s.procs| == n && Enabled(s, 0, Go()) && Next(s, 0, Go()) == Crowd(n, 0, CreateEnd(0), [0, 0, -1], BIGCOUNT, 1)
  {
    SetDone(n, 0, 0, CreateSet0(0, 0));
    SetDone(n, 1, BIGCOUNT, CreateSet1(0));
  }

  lemma SetDone(n: nat, i: nat, x: int, pc: Pc)
    requires 0 < n && i < 2 && (if i == 0 then x == 0 else x > 0)
    ensures SetVal(Crowd(n, 0, pc, [0, 0, -1], 0, 1), i, x) == Crowd(n, 0, pc, [0, 0, -1], if i == 1 then x else 0, 1)
  {
    var s, s' := Crowd(n, 0, pc, [0, 0, -1], 0, 1), Crowd(n, 0, pc, [0, 0, -1], if i == 1 then x else 0, 1);
    var u := SetVal(s, i, x);
    assert [0, 0, -1][i := 0] == [0, 0, -1] && [0, 0, 0][i := 0] == [0, 0, 0];
    assert [0, 0, 1][i := x] == [0, if i == 1 then x else 0, 1];
    forall q | 0 <= q < n ensures u.procs[q] == s'.procs[q] {
      assert s.procs[q] == if q == 0 then Proc(pc, [0, 0, -1]) else Proc(Idle, [0, 0, 0]);
    }
    assert u.procs == s'.procs;
  }

  lemma CrowdGrows(n: nat, k: nat, v1: int)
    requires k < n && (k > 0 || v1 > 0)
    ensures Crowd(n, k, Using(0), [0, 1, 0], v1, 0) == Crowd(n, k + 1, Idle, [0, 0, 0], v1, 0)
  {
  }

  /** k users after one another. */
  lemma {:induction false} Fills(n: nat, k: nat) returns (moves: seq<Move>)
    requires 0 < k <= n && k <= BIGCOUNT
    ensures Leads(State(None, 0, seq(n, _ => Proc(Idle, [0, 0, 0]))), moves, CrowdOf(n, k))
    decreases k
  {
    hide Crowd, SemOp, Next, Enabled, Leads;
    if k == 1 {
      moves := FirstUser(n);
    } else {
      var j := k - 1;
      var m := Fills(n, j);
      var m' := Enters(n, j);
      var start, mid := State(None, 0, seq(n, _ => Proc(Idle, [0, 0, 0]))), Crowd(n, j, CreateEnd(0), [0, 0, -1], BIGCOUNT - j, 1);
      Then(start, m, CrowdOf(n, j), m', mid);
      CrowdEnd(n, j, BIGCOUNT - j);
      CrowdGrows(n, j, BIGCOUNT - k);
      Nothing(CrowdOf(n, k));
      var last := First(mid, j, Go(), [], CrowdOf(n, k));
      Then(start, m + m', mid, last, CrowdOf(n, k));
      moves := m + m' + last;
    }
  }

  lemma Nothing(s: State)
    ensures Leads(s, [], s)
  {
  }

  /** With one user more than BIGCOUNT a set is initialised again while others hold it: the bound cannot be raised. */
  lemma TooMany(n: nat) returns (moves: seq<Move>, s': State)
    requires n > BIGCOUNT
    ensures
      var start := State(None, 0, seq(n, _ => Proc(Idle, [0, 0, 0])));
      && Initial(start) && Leads(start, moves, s')
      && |s'.procs| == n && s'.procs[BIGCOUNT].pc == CreateSet0(0, 0) && Live(s', 0) && Val(s', 1) == 0
      && forall q | 0 <= q < BIGCOUNT :: s'.procs[q].pc == Using(0)
  {
    hide SemOp, Next, Enabled, Leads;
    var m := Fills(n, BIGCOUNT);
    var m' := Enters(n, BIGCOUNT);
    s' := Crowd(n, BIGCOUNT, CreateSet0(0, 0), [0, 0, -1], 0, 1);
    moves := m + m';
    Then(State(None, 0, seq(n, _ => Proc(Idle, [0, 0, 0]))), m, CrowdOf(n, BIGCOUNT), m', s');
  }

  // ---- a sem_open() that slips in ----

  /** Two processes: the first created the set, the second opens it. */
  function Pair(pc: Pc, adj: seq<int>, pc': Pc, v1: int, v2: int): State {
    State(Some(Set(0, [0, v1, v2], true)), 1, [Proc(pc, adj), Proc(pc', [0, 0, 0])])
  }

  lemma PairGoto(pc: Pc, adj: seq<int>, pc': Pc, v1: int, v2: int, pc2: Pc)
    ensures Goto(Pair(pc, adj, pc', v1, v2), 0, pc2) == Pair(pc2, adj, pc', v1, v2)
    ensures Goto(Pair(pc, adj, pc', v1, v2), 1, pc2) == Pair(pc, adj, pc2, v1, v2)
  {
  }

  lemma CloseDone(b: int)
    requires 0 <= b < SEMVMX
    ensures SemOp(Values([0, b, 0], [0, 1, 0]), OpClose()) == Some(Values([0, b + 1, 1], [0, 0, -1]))
  {
    var v := Values([0, b, 0], [0, 1, 0]);
    var u := Values(v.val[2 := 1], v.adj[2 := -1]);
    assert OpClose()[1..] == [SemBuf(2, 1), SemBuf(1, 1)] && OpClose()[1..][1..] == [SemBuf(1, 1)];
    assert SemOp(v, OpClose()) == SemOp(v, [SemBuf(2, 1), SemBuf(1, 1)]);
    assert SemOp(v, [SemBuf(2, 1), SemBuf(1, 1)]) == SemOp(u, [SemBuf(1, 1)]);
    assert u.val[1 := b + 1] == [0, b + 1, 1] && u.adj[1 := 0] == [0, 0, -1];
  }

  /** The creator closes as its only user; the second process has called sem_open() and is about to decrement the count. */
  lemma SlipHappens() returns (moves: seq<Move>, s': State)
    ensures
      var start := State(None, 0, seq(2, _ => Proc(Idle, [0, 0, 0])));
      && Initial(start) && Leads(start, moves, s') && |s'.procs| == 2 && Slips(s', 1, Go()) && Enabled(s', 1, Go())
  {
    hide SemOp, Leads;
    var start := State(None, 0, seq(2, _ => Proc(Idle, [0, 0, 0])));
    var m := FirstUser(2);
    s' := Pair(CloseRemove(0), [0, 0, -1], OpenOp(0), BIGCOUNT, 1);
    assert CrowdOf(2, 1) == Pair(Using(0), [0, 1, 0], Idle, BIGCOUNT - 1, 0);
    var m' := ToSlip();
    Then(start, m, CrowdOf(2, 1), m', s');
    moves := m + m';
    CanOpen();
    assert s'.procs[0].pc == CloseRemove(0);
  }

  lemma CanOpen()
    ensures SemOp(Values([0, BIGCOUNT, 1], [0, 0, 0]), OpOpen()).Some?
  {
  }

  /** The steps of the second process: it calls sem_open() and finds the set. */
  lemma OpenerSteps()
    ensures
      var s, open := Pair(Using(0), [0, 1, 0], Idle, BIGCOUNT - 1, 0), Choice(false, true, 0);
      |s.procs| == 2 && Enabled(s, 1, open) && Next(s, 1, open) == Pair(Using(0), [0, 1, 0], OpenGet, BIGCOUNT - 1, 0)
    ensures
      var s := Pair(Using(0), [0, 1, 0], OpenGet, BIGCOUNT - 1, 0);
      |s.procs| == 2 && Enabled(s, 1, Go()) && Next(s, 1, Go()) == Pair(Using(0), [0, 1, 0], OpenOp(0), BIGCOUNT - 1, 0)
  {
    hide SemOp;
    PairGoto(Using(0), [0, 1, 0], OpenGet, BIGCOUNT - 1, 0, OpenOp(0));
    PairGoto(Using(0), [0, 1, 0], Idle, BIGCOUNT - 1, 0, OpenGet);
  }

  /** The steps of the first: it calls sem_close() and reads the count. */
  lemma CloserSteps()
    ensures
      var s := Pair(Using(0), [0, 1, 0], OpenOp(0), BIGCOUNT - 1, 0);
      |s.procs| == 2 && Enabled(s, 0, Go()) && Next(s, 0, Go()) == Pair(CloseLock(0), [0, 1, 0], OpenOp(0), BIGCOUNT - 1, 0)
    ensures
      var s := Pair(CloseGetVal(0), [0, 0, -1], OpenOp(0), BIGCOUNT, 1);
      |s.procs| == 2 && Enabled(s, 0, Go()) && Next(s, 0, Go()) == Pair(CloseRemove(0), [0, 0, -1], OpenOp(0), BIGCOUNT, 1)
  {
    hide SemOp;
    PairGoto(CloseGetVal(0), [0, 0, -1], OpenOp(0), BIGCOUNT, 1, CloseRemove(0));
    PairGoto(Using(0), [0, 1, 0], OpenOp(0), BIGCOUNT - 1, 0, CloseLock(0));
  }

  lemma CloserLocks()
    ensures
      var s := Pair(CloseLock(0), [0, 1, 0], OpenOp(0), BIGCOUNT - 1, 0);
      |s.procs| == 2 && Enabled(s, 0, Go()) && Next(s, 0, Go()) == Pair(CloseGetVal(0), [0, 0, -1], OpenOp(0), BIGCOUNT, 1)
  {
    hide SemOp;
    CloseDone(BIGCOUNT - 1);
  }

  lemma ToSlip() returns (moves: seq<Move>)
    ensures Leads(Pair(Using(0), [0, 1, 0], Idle, BIGCOUNT - 1, 0), moves, Pair(CloseRemove(0), [0, 0, -1], OpenOp(0), BIGCOUNT, 1))
  {
    hide SemOp, Pair, Next, Enabled;
    var s' := Pair(CloseRemove(0), [0, 0, -1], OpenOp(0), BIGCOUNT, 1);
    OpenerSteps();
    CloserSteps();
    CloserLocks();
    moves := First(Pair(CloseGetVal(0), [0, 0, -1], OpenOp(0), BIGCOUNT, 1), 0, Go(), [], s');
    moves := First(Pair(CloseLock(0), [0, 1, 0], OpenOp(0), BIGCOUNT - 1, 0), 0, Go(), moves, s');
    moves := First(Pair(Using(0), [0, 1, 0], OpenOp(0), BIGCOUNT - 1, 0), 0, Go(), moves, s');
    moves := First(Pair(Using(0), [0, 1, 0], OpenGet, BIGCOUNT - 1, 0), 1, Go(), moves, s');
    moves := First(Pair(Using(0), [0, 1, 0], Idle, BIGCOUNT - 1, 0), 1, Choice(false, true, 0), moves, s');
  }
}
