/** A call that is not waiting for a lock gets on: its own steps bring it nearer to its end, and nobody else's take it back. */
module DbProgress {
  import opened Common
  import opened IndexRecord
  import opened Links
  import opened DbStore
  import opened Database
  import opened DbProcesses
  import opened DbInvariant
  import opened DbFrame
  import opened DbReads
  import opened DbRecordWrites
  import opened DbPointerWrites
  import opened DbTheorem

  /** How far a place is from the end of its call, the two walks aside. */
  function Rank(pc: Pc): nat {
    match pc
    case Idle | Dead | Stray => 0
    case Returning | Broken => 1
    case UnlockChain => 2
    case ReadData | OverData => 3
    case LinkHead => 4
    case UnlockIdx => 5
    case AppendIdx => 6
    case SeekIdx => 7
    case LockIdx => 8
    case UnlockDat => 9
    case AppendDat => 10
    case SeekDat => 11
    case LockDat => 12
    case RereadChainPtr => 13
    case UnlockFreeD => 14
    case UnlinkRec => 15
    case SetFree => 16
    case BlankIdx => 17
    case ReadFreeD => 18
    case BlankDat => 19
    case LockFreeD => 20
    case ReuseIdx => 21
    case ReuseDat => 22
    case UnlockFreeHit | UnlockFreeMiss => 23
    case PopFree => 24
    case FreeHdr | FreeBody => 25
    case ReadFree => 26
    case LockFree => 27
    case ReadChainPtr => 28
    case ReadHdr | ReadBody => 29
    case ReadHead => 30
    case LockChain => 31
    case Begin => 32
  }

  /** How many reads are left of the walk the process is on: two for each record, from its place on. */
  function ToRead(a: Abs, z: Proc): int {
    if Walking(z.pc) && |a.lists.chains| == NHASH then
      2 * (|a.lists.chains[ChainOf(z)]| - z.n) - (if z.pc.ReadBody? then 1 else 0)
    else if z.pc.FreeHdr? || z.pc.FreeBody? then
      2 * (|a.lists.free| - z.n) - (if z.pc.FreeBody? then 1 else 0)
    else 0
  }

  /** Nearer to the end: at a lower place, or on the same walk with less to read. */
  predicate Nearer(a: Abs, z: Proc, a': Abs, z': Proc) {
    Rank(z'.pc) < Rank(z.pc) || (Rank(z'.pc) == Rank(z.pc) && 0 <= ToRead(a', z') < ToRead(a, z))
  }

  /** A process's own step brings its call nearer to its end, whatever it reads ... */
  lemma OwnStep(s: State, a: Abs, p: nat, op: Op) returns (a': Abs)
    requires Inv(s, a) && p < |s.procs| && Enabled(s, p) && !s.procs[p].pc.Idle?
    ensures Inv(Next(s, p, op), a') && Nearer(a, s.procs[p], a', Next(s, p, op).procs[p])
    ensures ToRead(a, s.procs[p]) >= 0
  {
    hide Inv, AccessOf, ToRead, Rank, Resume, Next, Hash, OthersKept, ObjectStep, Object;
    a' := StepKeeps(s, a, p, op);
    var z := s.procs[p];
    WalkPlace(s, a, p);
    NextProc(s, p, op);
    if AccessOf(z).Quit? {
      QuitRank(z);
    } else {
      Reading(z);
      RecordsRead(s, a, p);
      WalkNearer(a, z, ReplyTo(s.files, AccessOf(z)), op, a');
    }
  }

  /** ... and nobody else's step takes it back. */
  lemma OthersStep(s: State, a: Abs, p: nat, op: Op, q: nat) returns (a': Abs)
    requires Inv(s, a) && p < |s.procs| && Enabled(s, p) && q < |s.procs| && q != p
    ensures Inv(Next(s, p, op), a') && q < |Next(s, p, op).procs|
    ensures Next(s, p, op).procs[q] == s.procs[q] && ToRead(a', s.procs[q]) == ToRead(a, s.procs[q])
  {
    hide Inv, Enabled, ToRead, Resume, AccessOf, Hash, ObjectStep, Object;
    a' := StepKeeps(s, a, p, op);
    WalkPlace(s, a, q);
    SameToRead(a, a', s.procs[q]);
  }

  lemma SameToRead(a: Abs, a': Abs, z: Proc)
    requires ListsKept(a, a', z)
    requires Walking(z.pc) ==> |a.lists.chains| == NHASH
    ensures ToRead(a', z) == ToRead(a, z)
  {
    hide Hash;
  }

  lemma NextProc(s: State, p: nat, op: Op)
    requires p < |s.procs|
    ensures p < |Next(s, p, op).procs|
    ensures
      var z := s.procs[p];
      Next(s, p, op).procs[p] == if AccessOf(z).Quit? then Quits(z) else Resume(z, ReplyTo(s.files, AccessOf(z)), op)
  {
    hide AccessOf, Resume;
  }

  lemma QuitRank(z: Proc)
    requires AccessOf(z).Quit?
    ensures Rank(Quits(z).pc) < Rank(z.pc)
  {
    hide LengthOk, Hash;
  }

  /** A walk stands on a record of its list. */
  lemma WalkPlace(s: State, a: Abs, p: nat)
    requires Inv(s, a) && p < |s.procs|
    ensures ToRead(a, s.procs[p]) >= 0
    ensures Walking(s.procs[p].pc) ==> |a.lists.chains| == NHASH && s.procs[p].n < |a.lists.chains[ChainOf(s.procs[p])]|
    ensures s.procs[p].pc.FreeHdr? || s.procs[p].pc.FreeBody? ==> s.procs[p].n < |a.lists.free|
  {
    hide Inv, CallOk, HandPlace, TailPlace, Hash;
    ProcFacts(s, a, p);
  }

  /** A read of a record brings it, or ends the process. */
  lemma RecordsRead(s: State, a: Abs, p: nat)
    requires Inv(s, a) && p < |s.procs|
    ensures
      var z := s.procs[p];
      var r := ReplyTo(s.files, AccessOf(z));
      (z.pc.FreeBody? ==> r.Record?) && (z.pc.ReadBody? ==> r.Record? || r.Empty?)
  {
    hide Inv, KeyOk, IdxLen, Hash;
    var z := s.procs[p];
    if z.pc.FreeBody? {
      FreeRead(s, a, p);
    }
  }

  lemma Reading(z: Proc)
    ensures Walking(z.pc) || z.pc.FreeHdr? || z.pc.FreeBody? ==> !Writes(z.pc)
  {
  }

  lemma WalkNearer(a: Abs, z: Proc, r: Reply, op: Op, a': Abs)
    requires !z.pc.Idle? && !Ended(z.pc) && !AccessOf(z).Quit?
    requires Walking(z.pc) ==> |a.lists.chains| == NHASH && z.n < |a.lists.chains[ChainOf(z)]|
    requires z.pc.FreeHdr? || z.pc.FreeBody? ==> z.n < |a.lists.free|
    requires Walking(z.pc) || z.pc.FreeHdr? || z.pc.FreeBody? ==> a' == a
    requires (z.pc.FreeBody? ==> r.Record?) && (z.pc.ReadBody? ==> r.Record? || r.Empty?)
    ensures Nearer(a, z, a', Resume(z, r, op))
  {
    hide Nearer, Resume, BeforeWrites, Hash;
    if BeforeWrites(z.pc) {
      WalkNearerEarly(a, z, r, op, a');
    } else {
      WalkNearerLate(a, z, r, op, a');
    }
  }

  lemma WalkNearerEarly(a: Abs, z: Proc, r: Reply, op: Op, a': Abs)
    requires BeforeWrites(z.pc) && !z.pc.Idle? && !Ended(z.pc) && !AccessOf(z).Quit?
    requires Walking(z.pc) ==> |a.lists.chains| == NHASH && z.n < |a.lists.chains[ChainOf(z)]|
    requires z.pc.FreeHdr? || z.pc.FreeBody? ==> z.n < |a.lists.free|
    requires Walking(z.pc) || z.pc.FreeHdr? || z.pc.FreeBody? ==> a' == a
    requires (z.pc.FreeBody? ==> r.Record?) && (z.pc.ReadBody? ==> r.Record? || r.Empty?)
    ensures Nearer(a, z, a', Resume(z, r, op))
  {
    hide Hash, LengthOk, IsCString, BlankString, Blanked, NewRec, DataLengthOk, FlagOk, Fits, HeadLoc, AccessOf, Settled, KeyOf;
  }

  lemma WalkNearerLate(a: Abs, z: Proc, r: Reply, op: Op, a': Abs)
    requires !BeforeWrites(z.pc) && !z.pc.Idle? && !Ended(z.pc) && !AccessOf(z).Quit?
    requires z.pc.FreeHdr? || z.pc.FreeBody? ==> z.n < |a.lists.free|
    requires Walking(z.pc) || z.pc.FreeHdr? || z.pc.FreeBody? ==> a' == a
    requires (z.pc.FreeBody? ==> r.Record?) && (z.pc.ReadBody? ==> r.Record? || r.Empty?)
    ensures Nearer(a, z, a', Resume(z, r, op))
  {
    hide Hash, LengthOk, IsCString, BlankString, Blanked, NewRec, DataLengthOk, FlagOk, Fits, HeadLoc, AccessOf, Settled, KeyOf;
  }

  // ---- a bound on the steps of a call ----

  lemma {:induction false} DistinctFit(s: seq<nat>, m: set<nat>)
    requires Distinct(s) && forall x <- s :: x in m
    ensures |s| <= |m|
    decreases |s|
  {
    if s != [] {
      DistinctFit(s[1..], m - {s[0]});
    }
  }

  /** No list is longer than there are records. */
  lemma ListsFit(s: State, a: Abs)
    requires Inv(s, a)
    ensures |a.lists.free| <= |s.files.body.Keys|
    ensures |a.lists.chains| == NHASH && forall h :: 0 <= h < NHASH ==> |a.lists.chains[h]| <= |s.files.body.Keys|
  {
    hide Inv, Hash, IsCString;
    InvLists(s, a);
    Fit(a.vptr, s.files.body, a.lists, a.own.Keys);
  }

  lemma Fit(ptr: map<nat, nat>, body: map<nat, Body>, a: Lists, own: set<nat>)
    requires ListsOk(ptr, body, a, own)
    ensures |a.free| <= |body.Keys|
    ensures |a.chains| == NHASH && forall h :: 0 <= h < NHASH ==> |a.chains[h]| <= |body.Keys|
  {
    hide Hash, IsCString, Distinct;
    DistinctFit(a.free, body.Keys);
    forall h | 0 <= h < NHASH ensures |a.chains[h]| <= |body.Keys| {
      assert forall o <- a.chains[h] :: OnChain(a, h, o);
      DistinctFit(a.chains[h], body.Keys);
    }
  }

  /** How many steps of its own a call can still take, in an index of at most n records. */
  function Left(a: Abs, z: Proc, n: nat): int {
    Rank(z.pc) + ToRead(a, z) + (if Rank(z.pc) > Rank(ReadHdr) then 2 * n else 0) + if Rank(z.pc) > Rank(FreeHdr) then 2 * n else 0
  }

  lemma LeftLess(a: Abs, z: Proc, a': Abs, z': Proc, n: nat)
    requires Nearer(a, z, a', z') && ToRead(a, z) >= 0 && ToRead(a', z') <= 2 * n
    requires Walking(z'.pc) ==> z.pc.ReadHead? || Walking(z.pc)
    requires z'.pc.FreeHdr? || z'.pc.FreeBody? ==> z.pc.ReadFree? || z.pc.FreeHdr? || z.pc.FreeBody?
    ensures Left(a', z', n) < Left(a, z, n)
  {
  }

  lemma Entered(z: Proc, r: Reply, op: Op)
    requires !z.pc.Idle?
    ensures
      var z' := Resume(z, r, op);
      && (Walking(z'.pc) ==> z.pc.ReadHead? || Walking(z.pc))
      && (z'.pc.FreeHdr? || z'.pc.FreeBody? ==> z.pc.ReadFree? || z.pc.FreeHdr? || z.pc.FreeBody?)
  {
    hide Hash, LengthOk, IsCString, BlankString, Blanked, NewRec, DataLengthOk, FlagOk, Fits, KeyOk, HeadLoc;
  }

  lemma ToReadFits(s: State, a: Abs, p: nat, n: nat)
    requires Inv(s, a) && p < |s.procs| && |s.files.body.Keys| <= n
    ensures 0 <= ToRead(a, s.procs[p]) <= 2 * n
  {
    hide Inv, Hash, IsCString;
    ListsFit(s, a);
    WalkPlace(s, a, p);
    PlaceAt(s, a, p);
  }

  lemma PlaceAt(s: State, a: Abs, p: nat)
    requires Inv(s, a) && p < |s.procs|
    ensures ChainOf(s.procs[p]) < NHASH && s.procs[p].n >= 0
  {
    hide Inv;
  }

  /** Whoever moves: the call of p has less left after a step of its own, and as much as before after one of another. */
  lemma StepLeft(s: State, a: Abs, p: nat, op: Op, q: nat, n: nat) returns (a': Abs)
    requires Inv(s, a) && p < |s.procs| && Enabled(s, p) && q < |s.procs| && !(p == q && s.procs[p].pc.Idle?)
    requires |Next(s, p, op).files.body.Keys| <= n
    ensures Inv(Next(s, p, op), a') && q < |Next(s, p, op).procs|
    ensures Left(a', Next(s, p, op).procs[q], n) <= Left(a, s.procs[q], n) - if p == q then 1 else 0
  {
    hide Inv, Enabled, Resume, ToRead, Hash, Nearer, Rank, AccessOf;
    NextProc(s, p, op);
    if p == q {
      a' := OwnStep(s, a, p, op);
      ToReadFits(Next(s, p, op), a', p, n);
      if AccessOf(s.procs[p]).Quit? {
        QuitsFar(s.procs[p]);
      } else {
        Entered(s.procs[p], ReplyTo(s.files, AccessOf(s.procs[p])), op);
      }
      LeftLess(a, s.procs[p], a', Next(s, p, op).procs[p], n);
    } else {
      a' := OthersStep(s, a, p, op, q);
    }
  }

  lemma QuitsFar(z: Proc)
    ensures !Walking(Quits(z).pc) && !Quits(z).pc.FreeHdr? && !Quits(z).pc.FreeBody?
  {
  }

  lemma BodiesStay(s: State, p: nat, op: Op)
    requires p < |s.procs|
    ensures s.files.body.Keys <= Next(s, p, op).files.body.Keys
  {
    hide AccessOf, Resume;
  }

  /** Steps one after another, none of which starts a call of q. */
  ghost predicate InOneCall(s: State, moves: seq<(nat, Op)>, q: nat, s': State)
    decreases |moves|
  {
    if moves == [] then s' == s
    else
      var (p, op) := moves[0];
      && p < |s.procs| && q < |s.procs| && Enabled(s, p) && !(p == q && s.procs[p].pc.Idle?)
      && InOneCall(Next(s, p, op), moves[1..], q, s')
  }

  function StepsOf(moves: seq<(nat, Op)>, q: nat): nat {
    if moves == [] then 0 else (if moves[0].0 == q then 1 else 0) + StepsOf(moves[1..], q)
  }

  lemma {:induction false} RecordsGrow(s: State, moves: seq<(nat, Op)>, q: nat, s': State)
    requires InOneCall(s, moves, q, s')
    ensures |s.files.body.Keys| <= |s'.files.body.Keys|
    decreases |moves|
  {
    hide Next, Enabled;
    if moves != [] {
      BodiesStay(s, moves[0].0, moves[0].1);
      Larger(s.files.body.Keys, Next(s, moves[0].0, moves[0].1).files.body.Keys);
      RecordsGrow(Next(s, moves[0].0, moves[0].1), moves[1..], q, s');
    }
  }

  lemma {:induction false} Larger(a: set<nat>, b: set<nat>)
    requires a <= b
    ensures |a| <= |b|
    decreases a
  {
    if a != {} {
      var x :| x in a;
      Larger(a - {x}, b - {x});
    }
  }

  lemma {:induction false} StepsLeft(s: State, a: Abs, moves: seq<(nat, Op)>, q: nat, s': State, n: nat)
    requires Inv(s, a) && InOneCall(s, moves, q, s') && q < |s.procs| && |s'.files.body.Keys| <= n
    ensures StepsOf(moves, q) <= Left(a, s.procs[q], n)
    decreases |moves|
  {
    hide Inv, Enabled, Next, Left;
    if moves == [] {
      ToReadFits(s, a, q, n);
      LeftPositive(a, s.procs[q], n);
    } else {
      RecordsGrow(Next(s, moves[0].0, moves[0].1), moves[1..], q, s');
      var a' := StepLeft(s, a, moves[0].0, moves[0].1, q, n);
      StepsLeft(Next(s, moves[0].0, moves[0].1), a', moves[1..], q, s', n);
    }
  }

  lemma LeftPositive(a: Abs, z: Proc, n: nat)
    requires ToRead(a, z) >= 0
    ensures Left(a, z, n) >= 0
  {
    hide ToRead, Rank;
  }

  /**
   From any reachable state, whatever the others do: a process takes at most 32 steps in one call, waits for locks aside,
   and four for each index record there is at the end.
   */
  lemma CallEnds(s: State, a: Abs, moves: seq<(nat, Op)>, q: nat, s': State)
    requires Inv(s, a) && InOneCall(s, moves, q, s') && q < |s.procs| && s.procs[q].pc.Begin?
    ensures StepsOf(moves, q) <= 32 + 4 * |s'.files.body.Keys|
  {
    hide Inv, InOneCall, StepsOf, Hash;
    StepsLeft(s, a, moves, q, s', |s'.files.body.Keys|);
  }
}
