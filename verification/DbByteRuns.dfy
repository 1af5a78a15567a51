/** The same processes over the bytes of the two files, and what holds of every run of them. */
module DbByteRuns {
  import opened Common
  import opened IndexRecord
  import opened Links
  import opened DbStore
  import opened DbBytes
  import opened Database
  import opened DbProcesses
  import opened DbInvariant
  import opened DbFrame
  import opened DbReads
  import opened DbWrites
  import opened DbRecordWrites
  import opened DbPointerWrites
  import opened DbDeletion
  import opened DbTheorem

  /** The database as it really is: two byte files, the locks, the processes. */
  datatype ByteState = ByteState(idx: string, dat: string, locks: set<Lock>, procs: seq<Proc>)

  /** What a read of the bytes brings back; Empty where the program would stop on a short read or a malformed record. */
  function ByteReply(idx: string, dat: string, z: Proc): Reply {
    match AccessOf(z)
    case GetPtr(l) =>
      (match DbBytes.ReadPtr(idx, l)
       case None => Empty
       case Some(v) => if v < 0 then Empty else Num(v))
    case GetHdr(o) =>
      (match DbBytes.ReadHdr(idx, o)
       case None => Empty
       case Some(h) => if h.0 < 0 then Empty else Header(h.0, h.1))
    case GetRec(o, len) =>
      (match DbBytes.ReadText(idx, o, len)
       case None => Empty
       case Some(b) => Record(b))
    case GetDat(d) =>
      (match DbBytes.ReadDat(dat, d, z.rec.datlen)
       case None => Empty
       case Some(t) => if IsCString(t) then Text(t) else Empty)
    case EndOfDat => Num(|dat|)
    case EndOfIdx => Num(|idx|)
    case _ => Empty
  }

  function IdxWritten(idx: string, a: Access): string {
    match a
    case PutPtr(l, v) => if l <= |idx| then Overwrite(idx, l, PtrField(v)) else idx
    case PutRec(o, v, b) => if o <= |idx| then Overwrite(idx, o, RecordBytes(v, b)) else idx
    case _ => idx
  }

  function DatWritten(dat: string, a: Access): string {
    match a
    case PutDat(d, t) => if d <= |dat| then Overwrite(dat, d, t + "\n") else dat
    case _ => dat
  }

  function ByteNext(b: ByteState, p: nat, op: Op): ByteState
    requires p < |b.procs|
  {
    var z := b.procs[p];
    var a := AccessOf(z);
    if a.Quit? then ByteState(b.idx, b.dat, Unlocked(b.locks, p), b.procs[p := Quits(z)])
    else ByteState(IdxWritten(b.idx, a), DatWritten(b.dat, a), Locked(b.locks, p, a),
                   b.procs[p := Resume(z, ByteReply(b.idx, b.dat, z), op)])
  }

  predicate ByteEnabled(b: ByteState, p: nat)
    requires p < |b.procs|
  {
    var a := AccessOf(b.procs[p]);
    !Ended(b.procs[p].pc) && (a.Acquire? ==> Grantable(b.locks, p, a.region, a.mode))
  }

  ghost predicate ByteStep(b: ByteState, b': ByteState, p: nat, op: Op) {
    p < |b.procs| && ByteEnabled(b, p) && b' == ByteNext(b, p, op)
  }

  /** A database db_open() has just created, with nobody in a call. */
  ghost predicate ByteInitial(b: ByteState) {
    && IndexBytes(b.idx, EmptyFiles()) && b.dat == "" && b.locks == {}
    && forall z <- b.procs :: z.pc == Idle
  }

  /** The bytes show the records. */
  ghost predicate Shows(b: ByteState, s: State) {
    && IndexBytes(b.idx, s.files) && DataBytes(b.dat, s.files)
    && b.locks == s.locks && b.procs == s.procs
  }

  /** Each access is one the files are ready for: what it reads is there, what it overwrites has the length it writes. */
  predicate Sound(f: Files, z: Proc) {
    match AccessOf(z)
    case GetPtr(l) => l in f.ptr
    case GetHdr(o) => o in f.ptr && o in f.body
    case GetRec(o, len) => o in f.body && len == IdxLen(f.body[o])
    case GetDat(d) => d in f.dat && z.rec.datlen == |f.dat[d]| + 1
    case PutPtr(l, v) => l in f.ptr && v <= PTR_MAX
    case PutRec(o, v, b) => v <= PTR_MAX && BodyOk(b) && ((o in f.body && Size(b) == Size(f.body[o])) || o == f.iend)
    case PutDat(d, t) => (d in f.dat && |t| == |f.dat[d]|) || d == f.dend
    case _ => true
  }

  lemma ChainSound(s: State, a: Abs, p: nat)
    requires Inv(s, a) && p < |s.procs| && Walking(s.procs[p].pc)
    ensures s.procs[p].off in s.files.body && s.procs[p].off in s.files.ptr
    ensures s.procs[p].pc.ReadBody? ==> s.procs[p].len == IdxLen(s.files.body[s.procs[p].off])
  {
    hide FilesOk, VptrOk, OwnOk, ContentsOk, LocksOk, AllLinked, Placed, Hash, FreePlace, HandPlace, TailPlace;
    var z := s.procs[p];
    ProcFacts(s, a, p);
    SeenOk(s, a);
    ChainFacts(Seen(s.files, a), a.lists, a.own.Keys, ChainOf(z), z.n);
    InvFiles(s, a);
    RecordFacts(s.files, z.off);
  }

  lemma FreeSound(s: State, a: Abs, p: nat)
    requires Inv(s, a) && p < |s.procs| && FreeWalking(s.procs[p].pc)
    ensures s.procs[p].off in s.files.body && s.procs[p].off in s.files.ptr
    ensures s.procs[p].ptroff in s.files.ptr
    ensures s.procs[p].pc.FreeBody? ==> s.procs[p].len == IdxLen(s.files.body[s.procs[p].off])
  {
    hide FilesOk, VptrOk, OwnOk, ContentsOk, LocksOk, ListsOk, Hash, ChainPlace, HandPlace, TailPlace, CallOk;
    var z := s.procs[p];
    ProcFacts(s, a, p);
    FreeFieldKnown(s, a, z.n);
    ListedFacts(s, a);
    assert z.off in a.lists.free;
    InvFiles(s, a);
    RecordFacts(s.files, z.off);
  }

  lemma ReadsSound(s: State, a: Abs, p: nat)
    requires Inv(s, a) && p < |s.procs| && !Writes(s.procs[p].pc)
    ensures Sound(s.files, s.procs[p])
  {
    hide Inv, FilesOk, Hash, BodyOk;
    var z := s.procs[p];
    InvFiles(s, a);
    RootFacts(s.files, ChainOf(z));
    if Walking(z.pc) {
      ChainSound(s, a, p);
    } else if FreeWalking(z.pc) {
      FreeSound(s, a, p);
    } else if z.pc.ReadData? {
      ReadDataSound(s, a, p);
    }
  }

  lemma ReadDataSound(s: State, a: Abs, p: nat)
    requires Inv(s, a) && p < |s.procs| && s.procs[p].pc.ReadData?
    ensures s.procs[p].rec.datoff in s.files.dat && s.procs[p].rec.datlen == |s.files.dat[s.procs[p].rec.datoff]| + 1
  {
    hide FilesOk, VptrOk, OwnOk, ContentsOk, LocksOk, ListsOk, Hash, FreePlace, HandPlace, TailPlace;
    ProcFacts(s, a, p);
    FoundInMap(s, a, p);
  }

  lemma WritesSound(s: State, a: Abs, p: nat, op: Op)
    requires Inv(s, a) && p < |s.procs| && Writes(s.procs[p].pc)
    ensures Sound(s.files, s.procs[p])
  {
    hide Inv, FilesOk, Hash, BodyOk, ProcOk, Size, NewRec, Blanked, PlaceOk, CallStep, Gap, Live, AtChain, Resume, BlankString;
    var f, z := s.files, s.procs[p];
    ProcFacts(s, a, p);
    InvFiles(s, a);
    AllRecordFacts(f);
    if z.pc.OverData? {
      OverDataFacts(s, a, p, op);
    } else if z.pc.ReuseDat? {
      ReuseDatFacts(s, a, p, op);
      ReuseDatPlace(f, a, z, op);
    } else if z.pc.AppendDat? {
      AppendDatFacts(s, a, p, op);
      AppendDatHere(f, a, z);
    } else if z.pc.BlankDat? {
      BlankDatFacts(s, a, p);
    } else if z.pc.BlankIdx? {
      HandFacts(s, a, p);
      BlankIdxPlace(f, a, z, op, a);
      BlankedOk(f, z.off);
    } else if z.pc.ReuseIdx? {
      HandFacts(s, a, p);
      ReuseIdxPlace(f, a, z, op, a);
      RecordFacts(f, z.off);
      SameSize(f.body[z.off], NewRec(z));
    } else if z.pc.AppendIdx? {
      EndFacts(s, a, p);
      AppendIdxPlace(f, a, z, op, a);
    } else if z.pc.SetFree? {
      SetFreePlace(f, a, z, op);
    } else if z.pc.UnlinkRec? {
      UnlinkerField(s, a, p);
    } else if z.pc.PopFree? {
      FreeSound(s, a, p);
      PopFreeSound(f, a, z);
    } else {
      RootFacts(f, ChainOf(z));
    }
  }

  lemma AppendDatHere(f: Files, a: Abs, z: Proc)
    requires ProcOk(f, a, z) && z.pc.AppendDat?
    ensures z.datoff == f.dend
  {
    hide CallOk, ChainPlace, FreePlace, HandPlace;
  }

  lemma PopFreeSound(f: Files, a: Abs, z: Proc)
    requires ProcOk(f, a, z) && z.pc.PopFree?
    ensures z.off in f.ptr && z.ptrval == f.ptr[z.off]
  {
    hide CallOk, ChainPlace, HandPlace, TailPlace;
  }

  /** A read of the bytes brings back what a read of the records would. */
  lemma SameReply(b: ByteState, s: State, p: nat)
    requires FilesOk(s.files) && Shows(b, s) && p < |s.procs| && Sound(s.files, s.procs[p])
    ensures ByteReply(b.idx, b.dat, s.procs[p]) == ReplyTo(s.files, AccessOf(s.procs[p]))
  {
    hide FilesOk, IndexBytes, DataBytes, AccessOf, DbBytes.ReadPtr, DbBytes.ReadHdr, DbBytes.ReadText, DbBytes.ReadDat;
    var z := s.procs[p];
    match AccessOf(z)
    case GetPtr(l) => ReadPtrBytes(b.idx, s.files, l);
    case GetHdr(o) => ReadHdrBytes(b.idx, s.files, o);
    case GetRec(o, _) => ReadTextBytes(b.idx, s.files, o);
    case GetDat(d) => ReadDatBytes(b.dat, s.files, d);
    case _ => FileLengths(b.idx, b.dat, s.files);
  }

  predicate Reads(a: Access) {
    a.GetPtr? || a.GetHdr? || a.GetRec? || a.GetDat?
  }

  /** Only the text of a record can fail to be read, and does exactly when its key has a separator in it. */
  lemma ReadWhole(f: Files, z: Proc)
    requires Sound(f, z) && Reads(AccessOf(z))
    ensures ReplyTo(f, AccessOf(z)).Empty? <==> AccessOf(z).GetRec? && z.off in f.body && !KeyOk(f.body[z.off].key)
  {
    hide Hash, LengthOk, Blanked, NewRec, BlankString;
  }

  lemma RecordReader(s: State, a: Abs, p: nat)
    requires Inv(s, a) && p < |s.procs| && AccessOf(s.procs[p]).GetRec?
    ensures s.procs[p].pc.ReadBody? || (s.procs[p].pc.FreeBody? && s.procs[p].off in s.files.body && KeyOk(s.files.body[s.procs[p].off].key))
  {
    hide Inv, Hash, LengthOk, Blanked, NewRec, BlankString;
    if s.procs[p].pc.FreeBody? {
      FreeRead(s, a, p);
    }
  }

  /**
   Whether process p's next step is a read at which the program stops: only that of a record on its chain, and exactly
   when the key of that record has a separator in it.
   */
  predicate Stops(f: Files, z: Proc) {
    z.pc.ReadBody? && z.off in f.body && !KeyOk(f.body[z.off].key)
  }

  /** A write of the bytes makes them show the records as written. */
  lemma SameWrite(idx: string, dat: string, f: Files, z: Proc)
    requires FilesOk(f) && IndexBytes(idx, f) && DataBytes(dat, f) && Sound(f, z)
    ensures IndexBytes(IdxWritten(idx, AccessOf(z)), Written(f, AccessOf(z)))
    ensures DataBytes(DatWritten(dat, AccessOf(z)), Written(f, AccessOf(z)))
  {
    hide FilesOk, IndexBytes, DataBytes, AccessOf, Overwrite, BodyOk, Size;
    match AccessOf(z)
    case PutPtr(l, v) =>
      WritePtrBytes(idx, f, l, v);
      DbBytes.SameData(dat, f, SetPtr(f, l, v));
    case PutRec(o, v, b) =>
      WriteIdxBytes(idx, f, o, v, b);
      DbBytes.SameData(dat, f, SetRec(f, o, v, b));
    case PutDat(d, t) =>
      WriteDatBytes(dat, f, d, t);
      DbBytes.SameIndex(idx, f, SetDat(f, d, t));
    case _ =>
  }

  /** A step over the bytes is a step over the records they show. */
  lemma BytesFollow(b: ByteState, s: State, a: Abs, p: nat, op: Op)
    requires Inv(s, a) && Shows(b, s) && p < |s.procs|
    ensures Shows(ByteNext(b, p, op), Next(s, p, op)) && ByteEnabled(b, p) == Enabled(s, p)
    ensures
      var z := s.procs[p];
      var r := ByteReply(b.idx, b.dat, z);
      Reads(AccessOf(z)) ==> (r.Empty? <==> Stops(s.files, z)) && (r.Empty? ==> NextPc(z, r) == Broken)
  {
    hide Inv, FilesOk, IndexBytes, DataBytes, AccessOf, Sound, Reads, Stops, Resume, Grantable, ByteReply, IdxWritten, DatWritten, Written, Writes, ReplyTo;
    InvFiles(s, a);
    var z := s.procs[p];
    if Writes(z.pc) {
      WritesSound(s, a, p, op);
    } else {
      ReadsSound(s, a, p);
    }
    SameReply(b, s, p);
    SameWrite(b.idx, b.dat, s.files, z);
    ReadStops(s, a, p, z);
  }

  /** What a read brings back. */
  lemma ReadStops(s: State, a: Abs, p: nat, z: Proc)
    requires Inv(s, a) && p < |s.procs| && z == s.procs[p] && Sound(s.files, z)
    ensures
      var r := ReplyTo(s.files, AccessOf(z));
      Reads(AccessOf(z)) ==> (r.Empty? <==> Stops(s.files, z)) && (r.Empty? ==> NextPc(z, r) == Broken)
  {
    hide Inv, Sound, ReplyTo, AccessOf, Hash;
    if Reads(AccessOf(z)) {
      ReadWhole(s.files, z);
      RecordPlace(z);
      if AccessOf(z).GetRec? {
        RecordReader(s, a, p);
      }
    }
  }

  lemma RecordPlace(z: Proc)
    ensures AccessOf(z).GetRec? <==> z.pc.ReadBody? || z.pc.FreeBody?
  {
    hide Hash, LengthOk, Blanked, NewRec, BlankString;
  }

  // ---- runs ----

  /** In a call, and the process has not ended. */
  predicate MidCall(z: Proc) {
    !z.pc.Idle? && !Ended(z.pc)
  }

  datatype Move = Move(pid: nat, op: Op)

  ghost predicate ByteRun(run: seq<ByteState>, moves: seq<Move>) {
    && |run| == |moves| + 1 && ByteInitial(run[0])
    && forall i :: 0 <= i < |moves| ==> ByteStep(run[i], run[i + 1], moves[i].pid, moves[i].op)
  }

  /** Every state of a run shows records that satisfy the invariant. */
  lemma RunInvariant(run: seq<ByteState>, moves: seq<Move>) returns (s: State, a: Abs)
    requires ByteRun(run, moves)
    ensures Inv(s, a) && Shows(run[|run| - 1], s)
  {
    var log, at, u;
    s, a, u, log, at := RunExplained(run, moves);
  }

  /** A call that took effect: who made it, what it was, what it returns. */
  datatype Entry = Entry(pid: nat, op: Op, result: Result)

  /** A call has taken effect: it is done, or it is a store that failed after deleting the old record of its key. */
  predicate Effective(c: Call) {
    c.Done? || (c.Failed? && c.deleted)
  }

  /** How it is logged: such a store as the deletion it was. */
  function EntryOf(p: nat, c: Call): Entry
    requires Effective(c)
  {
    if c.Done? then Entry(p, c.op, c.result) else Entry(p, DeleteOp(c.op.key), Code(0))
  }

  function Ops(log: seq<Entry>): (r: seq<Op>)
    ensures |r| == |log|
  {
    seq(|log|, i requires 0 <= i < |log| => log[i].op)
  }

  function Results(log: seq<Entry>): (r: seq<Result>)
    ensures |r| == |log|
  {
    seq(|log|, i requires 0 <= i < |log| => log[i].result)
  }

  function MapAfter(m: map<CString, CString>, ops: seq<Op>): map<CString, CString>
    decreases |ops|
  {
    if ops == [] then m else MapAfter(ApplySpec(m, ops[0]).1, ops[1..])
  }

  lemma {:induction false} RunSpecAppend(m: map<CString, CString>, ops: seq<Op>, op: Op)
    ensures MapAfter(m, ops + [op]) == ApplySpec(MapAfter(m, ops), op).1
    ensures RunSpec(m, ops + [op]) == RunSpec(m, ops) + [ApplySpec(MapAfter(m, ops), op).0]
    decreases |ops|
  {
    hide ApplySpec;
    if ops == [] {
      assert ([] + [op])[1..] == [];
    } else {
      assert (ops + [op])[1..] == ops[1..] + [op];
      RunSpecAppend(ApplySpec(m, ops[0]).1, ops[1..], op);
    }
  }

  /** The last call of p that took effect. */
  function LastOf(log: seq<Entry>, p: nat): Option<Entry> {
    if log == [] then None
    else if log[|log| - 1].pid == p then Some(log[|log| - 1])
    else LastOf(log[..|log| - 1], p)
  }

  /** The log is a sequential run of the empty map; the object holds its map, and every settled call its result. */
  ghost predicate Explains(log: seq<Entry>, u: MapObject) {
    && RunSpec(map[], Ops(log)) == Results(log)
    && MapAfter(map[], Ops(log)) == u.m
    && forall p | 0 <= p < |u.calls| && Effective(u.calls[p]) :: LastOf(log, p) == Some(EntryOf(p, u.calls[p]))
  }

  /**
   Entry i took effect in step at[i], with its call started and not yet returned; and every step in which a call took
   effect is that of an entry.
   */
  ghost predicate Timed(run: seq<ByteState>, moves: seq<Move>, log: seq<Entry>, at: seq<nat>) {
    && |run| == |moves| + 1 && |at| == |log|
    && (forall i, j :: 0 <= i < j < |at| ==> at[i] < at[j])
    && (forall i :: 0 <= i < |at| ==> at[i] < |moves| && TookEffect(run[at[i]], run[at[i] + 1], moves[at[i]], log[i]))
    && (forall i | 0 <= i < |moves| && Settles(run[i], run[i + 1], moves[i].pid) :: i in at)
  }

  /** The call of p takes effect between the two states. */
  predicate Settles(b: ByteState, b': ByteState, p: nat) {
    p < |b.procs| == |b'.procs| && CallOf(b.procs[p]).Pending? && Effective(CallOf(b'.procs[p]))
  }

  /** Whatever a call of p has settled on by state i, the log says so: it is the last entry of p before. */
  ghost predicate Answers(run: seq<ByteState>, log: seq<Entry>, at: seq<nat>, i: nat, p: nat)
    requires i < |run| && |at| == |log|
  {
    p < |run[i].procs| && Effective(CallOf(run[i].procs[p])) ==>
      var c := CallOf(run[i].procs[p]);
      exists j :: 0 <= j < |log| && at[j] < i && log[j] == EntryOf(p, c)
               && forall k | j < k < |log| && at[k] < i :: log[k].pid != p
  }

  predicate TookEffect(b: ByteState, b': ByteState, m: Move, e: Entry) {
    && m.pid == e.pid && e.pid < |b.procs| == |b'.procs|
    && var c, c' := CallOf(b.procs[e.pid]), CallOf(b'.procs[e.pid]);
    && c.Pending? && Effective(c') && c'.op == c.op && e == EntryOf(e.pid, c')
  }

  ghost predicate Answered(run: seq<ByteState>, log: seq<Entry>, at: seq<nat>)
    requires |at| == |log|
  {
    forall i, p | 0 <= i < |run| && 0 <= p :: Answers(run, log, at, i, p)
  }

  /** What happened in the run without its last step happened in the whole run. */
  lemma TimedEarlier(run: seq<ByteState>, moves: seq<Move>, log: seq<Entry>, at: seq<nat>)
    requires |run| == |moves| + 1 && |moves| > 0 && Timed(run[..|moves|], moves[..|moves| - 1], log, at)
    ensures forall i :: 0 <= i < |at| ==> at[i] < |moves| - 1
    ensures !Settles(run[|moves| - 1], run[|moves|], moves[|moves| - 1].pid) ==> Timed(run, moves, log, at)
    ensures forall e: Entry | TookEffect(run[|moves| - 1], run[|moves|], moves[|moves| - 1], e) ::
              Timed(run, moves, log + [e], at + [|moves| - 1])
  {
    hide TookEffect, Settles;
    var n := |moves| - 1;
    forall i | 0 <= i < |at| ensures at[i] < n && TookEffect(run[at[i]], run[at[i] + 1], moves[at[i]], log[i]) {
      assert run[..|moves|][at[i]] == run[at[i]] && run[..|moves|][at[i] + 1] == run[at[i] + 1];
      assert moves[..n][at[i]] == moves[at[i]];
    }
    forall i | 0 <= i < n && Settles(run[i], run[i + 1], moves[i].pid) ensures i in at {
      assert run[..|moves|][i] == run[i] && run[..|moves|][i + 1] == run[i + 1] && moves[..n][i] == moves[i];
    }
    forall e: Entry | TookEffect(run[n], run[n + 1], moves[n], e) ensures Timed(run, moves, log + [e], at + [n]) {
      TimedLater(run, moves, log, at, e);
    }
  }

  lemma TimedLater(run: seq<ByteState>, moves: seq<Move>, log: seq<Entry>, at: seq<nat>, e: Entry)
    requires |run| == |moves| + 1 && |at| == |log| && |moves| > 0
    requires forall i, j :: 0 <= i < j < |at| ==> at[i] < at[j]
    requires forall i :: 0 <= i < |at| ==> at[i] < |moves| - 1 && TookEffect(run[at[i]], run[at[i] + 1], moves[at[i]], log[i])
    requires forall i | 0 <= i < |moves| - 1 && Settles(run[i], run[i + 1], moves[i].pid) :: i in at
    requires TookEffect(run[|moves| - 1], run[|moves|], moves[|moves| - 1], e)
    ensures Timed(run, moves, log + [e], at + [|moves| - 1])
  {
    hide TookEffect, Settles;
    var at' := at + [|moves| - 1];
    assert at'[|at|] == |moves| - 1;
    forall i | 0 <= i < |moves| && Settles(run[i], run[i + 1], moves[i].pid) ensures i in at' {
      assert i < |moves| - 1 ==> i in at;
    }
  }

  /** What is answered stays answered by a longer log ... */
  lemma AnswersEarlier(run: seq<ByteState>, log: seq<Entry>, at: seq<nat>, i: nat, p: nat, n: nat, log': seq<Entry>, at': seq<nat>)
    requires i <= n < |run| - 1 && |at| == |log| && |at'| == |log'| && Answers(run[..n + 1], log, at, i, p)
    requires (log' == log && at' == at) || (|log'| == |log| + 1 && log'[..|log|] == log && at' == at + [n])
    ensures Answers(run, log', at', i, p)
  {
    hide CallOf;
    assert run[..n + 1][i] == run[i];
    if p < |run[i].procs| && Effective(CallOf(run[i].procs[p])) {
      var c := CallOf(run[i].procs[p]);
      var j :| 0 <= j < |log| && at[j] < i && log[j] == EntryOf(p, c) && forall k | j < k < |log| && at[k] < i :: log[k].pid != p;
      assert log'[j] == log[j] && at'[j] == at[j];
      forall k | j < k < |log'| && at'[k] < i ensures log'[k].pid != p {
        assert k < |log| && log'[k] == log'[..|log|][k] && at'[k] == at[k];
      }
    }
  }

  /** ... and at the end the log has the result of every settled call. */
  lemma AnswersLast(run: seq<ByteState>, log: seq<Entry>, at: seq<nat>, u: MapObject, p: nat)
    requires |run| > 0 && |at| == |log| && Explains(log, u) && (forall k :: 0 <= k < |at| ==> at[k] < |run| - 1)
    requires p < |u.calls| == |run[|run| - 1].procs| && u.calls[p] == CallOf(run[|run| - 1].procs[p])
    ensures Answers(run, log, at, |run| - 1, p)
  {
    hide CallOf, RunSpec, MapAfter;
    if Effective(u.calls[p]) {
      var j := LastPlace(log, p);
    }
  }

  lemma {:induction false} LastPlace(log: seq<Entry>, p: nat) returns (j: nat)
    requires LastOf(log, p).Some?
    ensures j < |log| && LastOf(log, p) == Some(log[j]) && log[j].pid == p && forall k | j < k < |log| :: log[k].pid != p
    decreases |log|
  {
    if log[|log| - 1].pid == p {
      j := |log| - 1;
    } else {
      j := LastPlace(log[..|log| - 1], p);
    }
  }

  lemma EffectIs(c: Call, m: map<CString, CString>, c': Call, m': map<CString, CString>, p: nat)
    requires CallStep(c, m, c', m') && c.Pending? && Effective(c')
    ensures ApplySpec(m, EntryOf(p, c').op) == (EntryOf(p, c').result, m')
  {
  }

  lemma LogGrows(log: seq<Entry>, u: MapObject, u': MapObject, p: nat) returns (log': seq<Entry>)
    requires Explains(log, u) && ObjectStep(u, u', p)
    ensures Explains(log', u')
    ensures u.calls[p].Pending? && Effective(u'.calls[p]) ==> log' != log
    ensures log' == log || (
        && u.calls[p].Pending? && Effective(u'.calls[p]) && u.calls[p].op == u'.calls[p].op
        && log' == log + [EntryOf(p, u'.calls[p])])
  {
    hide ApplySpec, RunSpec, MapAfter;
    log' := log;
    if u.calls[p].Pending? && Effective(u'.calls[p]) {
      var e := EntryOf(p, u'.calls[p]);
      EffectIs(u.calls[p], u.m, u'.calls[p], u'.m, p);
      log' := log + [e];
      assert log'[..|log|] == log;
      assert Ops(log') == Ops(log) + [e.op] && Results(log') == Results(log) + [e.result];
      RunSpecAppend(map[], Ops(log), e.op);
    }
  }

  /**
   The run as it looks at its end: records behind the bytes, the map object, and the log of calls that took effect,
   each between its start and its return.
   */
  lemma {:induction false} RunExplained(run: seq<ByteState>, moves: seq<Move>)
    returns (s: State, a: Abs, u: MapObject, log: seq<Entry>, at: seq<nat>)
    requires ByteRun(run, moves)
    ensures Inv(s, a) && Shows(run[|run| - 1], s) && u == Object(s, a) && Explains(log, u)
    ensures Timed(run, moves, log, at)
    ensures Answered(run, log, at)
    decreases |moves|
  {
    hide Inv, Shows, ObjectStep, Explains, Object, ByteRun, ByteStep, Timed, Answered, CallOf;
    if |moves| == 0 {
      s, a := InitialExplained(run, moves);
      u, log, at := Object(s, a), [], [];
    } else {
      var n := |moves| - 1;
      PrefixRun(run, moves);
      var s0, a0, u0, log0, at0 := RunExplained(run[..n + 1], moves[..n]);
      s, a := Advance(run[n], run[n + 1], s0, a0, moves[n].pid, moves[n].op);
      u := Object(s, a);
      log, at := Extend(run, moves, log0, at0, u0, s, a);
    }
  }

  lemma PrefixRun(run: seq<ByteState>, moves: seq<Move>)
    requires ByteRun(run, moves) && |moves| > 0
    ensures
      var n := |moves| - 1;
      |run| == n + 2 && ByteRun(run[..n + 1], moves[..n]) && ByteStep(run[n], run[n + 1], moves[n].pid, moves[n].op)
  {
    hide ByteStep, ByteInitial;
  }

  /** The log with the call that the last step settled, if it did. */
  lemma Extend(run: seq<ByteState>, moves: seq<Move>, log0: seq<Entry>, at0: seq<nat>, u0: MapObject, s: State, a: Abs)
    returns (log: seq<Entry>, at: seq<nat>)
    requires |moves| > 0 && |run| == |moves| + 1
    requires Timed(run[..|moves|], moves[..|moves| - 1], log0, at0) && Answered(run[..|moves|], log0, at0)
    requires Explains(log0, u0) && ObjectStep(u0, Object(s, a), moves[|moves| - 1].pid)
    requires
      var n, p := |moves| - 1, moves[|moves| - 1].pid;
      && p < |run[n].procs| == |run[n + 1].procs| && s.procs == run[n + 1].procs && p < |u0.calls| && p < |Object(s, a).calls|
      && u0.calls[p] == CallOf(run[n].procs[p]) && Object(s, a).calls[p] == CallOf(run[n + 1].procs[p])
    ensures Explains(log, Object(s, a)) && Timed(run, moves, log, at) && Answered(run, log, at)
  {
    hide ObjectStep, Explains, Object, Answered, Timed, CallOf;
    var n, p, u := |moves| - 1, moves[|moves| - 1].pid, Object(s, a);
    TimedSizes(run[..n + 1], moves[..n], log0, at0);
    log := LogGrows(log0, u0, u, p);
    TimedEarlier(run, moves, log0, at0);
    at := if log == log0 then at0 else at0 + [n];
    TimedSizes(run, moves, log, at);
    AllAnswer(run, log0, at0, log, at, n, s, a);
  }

  lemma TimedSizes(run: seq<ByteState>, moves: seq<Move>, log: seq<Entry>, at: seq<nat>)
    requires Timed(run, moves, log, at)
    ensures |at| == |log| && forall i :: 0 <= i < |at| ==> at[i] < |moves|
  {
    hide TookEffect, Settles;
  }

  /** One step over the bytes, as a step of the map object. */
  lemma Advance(b: ByteState, b': ByteState, s0: State, a0: Abs, p: nat, op: Op) returns (s: State, a: Abs)
    requires Inv(s0, a0) && Shows(b, s0) && ByteStep(b, b', p, op)
    ensures Inv(s, a) && Shows(b', s) && ObjectStep(Object(s0, a0), Object(s, a), p)
    ensures p < |b.procs| == |b'.procs| && s0.procs == b.procs && s.procs == b'.procs
    ensures p < |Object(s0, a0).calls| && p < |Object(s, a).calls|
    ensures Object(s0, a0).calls[p] == CallOf(b.procs[p]) && Object(s, a).calls[p] == CallOf(b'.procs[p])
  {
    hide Inv, Shows, ObjectStep, Object, ByteNext, ByteEnabled, CallOf;
    ShownProcs(b, s0);
    BytesFollow(b, s0, a0, p, op);
    a := StepKeeps(s0, a0, p, op);
    s := Next(s0, p, op);
    ShownProcs(b', s);
    ObjectCalls(s0, a0, p);
    ObjectCalls(s, a, p);
  }

  lemma InitialAnswers(run: seq<ByteState>)
    requires |run| == 1 && ByteInitial(run[0])
    ensures Answered(run, [], [])
  {
    hide EmptyFiles;
  }

  lemma AllAnswer(run: seq<ByteState>, log0: seq<Entry>, at0: seq<nat>, log: seq<Entry>, at: seq<nat>, n: nat, s: State, a: Abs)
    requires |run| == n + 2 && |at0| == |log0| && |at| == |log| && (forall k :: 0 <= k < |at| ==> at[k] < |run| - 1)
    requires (log == log0 && at == at0) || (|log| == |log0| + 1 && log[..|log0|] == log0 && at == at0 + [n])
    requires Answered(run[..n + 1], log0, at0)
    requires Explains(log, Object(s, a)) && s.procs == run[n + 1].procs
    ensures Answered(run, log, at)
  {
    hide Explains, Answers, Object;
    forall i, p | 0 <= i < |run| && 0 <= p ensures Answers(run, log, at, i, p) {
      if i < n + 1 {
        assert Answers(run[..n + 1], log0, at0, i, p);
        AnswersEarlier(run, log0, at0, i, p, n, log, at);
      } else if p < |s.procs| {
        ObjectCalls(s, a, p);
        AnswersLast(run, log, at, Object(s, a), p);
      } else {
        NoCall(run, log, at, i, p);
      }
    }
  }

  lemma NoCall(run: seq<ByteState>, log: seq<Entry>, at: seq<nat>, i: nat, p: nat)
    requires i < |run| && |at| == |log| && p >= |run[i].procs|
    ensures Answers(run, log, at, i, p)
  {
  }

  lemma ShownProcs(b: ByteState, s: State)
    requires Shows(b, s)
    ensures s.procs == b.procs
  {
  }

  lemma ObjectCalls(s: State, a: Abs, p: nat)
    requires p < |s.procs|
    ensures |Object(s, a).calls| == |s.procs| && Object(s, a).calls[p] == CallOf(s.procs[p])
  {
    hide CallOf;
  }

  lemma InitialShown(b: ByteState, s: State)
    requires ByteInitial(b) && s == State(EmptyFiles(), {}, b.procs)
    ensures Shows(b, s)
  {
    hide IndexBytes, EmptyFiles;
    EmptyData();
  }

  lemma InitialExplained(run: seq<ByteState>, moves: seq<Move>) returns (s: State, a: Abs)
    requires ByteRun(run, moves) && moves == []
    ensures |run| == 1 && Inv(s, a) && Shows(run[0], s) && Explains([], Object(s, a)) && Timed(run, moves, [], []) && Answered(run, [], [])
  {
    hide Inv, Shows, EmptyFiles, EmptyLists, Answered;
    s := State(EmptyFiles(), {}, run[0].procs);
    a := FirstAbs();
    InitialOk(s);
    InitialShown(run[0], s);
    NothingYet(s, a);
    InitialAnswers(run);
  }

  lemma NothingYet(s: State, a: Abs)
    requires Initial(s) && a == FirstAbs()
    ensures Explains([], Object(s, a))
  {
    hide EmptyFiles, EmptyLists;
  }

  /**
   Every run has a log of exactly the calls that took effect in it, each between its start and its return. In that order
   they return what the empty map returns to the same calls one after the other; in every state of the run, what a call
   has settled on is what its entry says; and with nobody in a call the records show the map the log leaves behind.
   */
  lemma Linearizable(run: seq<ByteState>, moves: seq<Move>) returns (log: seq<Entry>, at: seq<nat>)
    requires ByteRun(run, moves)
    ensures Timed(run, moves, log, at)
    ensures Results(log) == RunSpec(map[], Ops(log))
    ensures Answered(run, log, at)
    ensures
      var procs := run[|run| - 1].procs;
      forall p | 0 <= p < |procs| && procs[p].pc.Returning? ::
        procs[p].result.Some? && LastOf(log, p) == Some(Entry(p, procs[p].op, procs[p].result.value))
    ensures
      var procs := run[|run| - 1].procs;
      (forall p :: 0 <= p < |procs| ==> !MidCall(procs[p])) ==>
        exists f, l, lost :: IndexBytes(run[|run| - 1].idx, f) && DataBytes(run[|run| - 1].dat, f)
                          && FilesHold(f, l, lost, procs, MapAfter(map[], Ops(log)))
  {
    var s, a, u;
    s, a, u, log, at := RunExplained(run, moves);
    var procs := run[|run| - 1].procs;
    hide Explains, Object, FilesOk, IndexBytes, DataBytes, ListsOk, LocksOk, VptrOk, OwnOk, ContentsOk, PlaceOk, Contents, MapAfter, RunSpec, Timed, Answered;
    ShownProcs(run[|run| - 1], s);
    forall p | 0 <= p < |procs| && procs[p].pc.Returning?
      ensures procs[p].result.Some? && LastOf(log, p) == Some(Entry(p, procs[p].op, procs[p].result.value))
    {
      Returned(s, a, log, p);
    }
    if forall p :: 0 <= p < |procs| ==> !MidCall(procs[p]) {
      AllIdle(s, a);
    }
  }

  lemma Returned(s: State, a: Abs, log: seq<Entry>, p: nat)
    requires Inv(s, a) && Explains(log, Object(s, a)) && p < |s.procs| && s.procs[p].pc.Returning?
    ensures s.procs[p].result.Some? && LastOf(log, p) == Some(Entry(p, s.procs[p].op, s.procs[p].result.value))
  {
    hide FilesOk, ListsOk, LocksOk, VptrOk, OwnOk, ContentsOk, PlaceOk, RunSpec, MapAfter, LastOf;
    ProcFacts(s, a, p);
    assert Object(s, a).calls[p] == CallOf(s.procs[p]);
  }

  /**
   In every reachable state a process that is about to read gets what it reads, with one exception, in which it is about
   to end with a message: the record on its chain has a key with a separator in it.
   */
  lemma ReadsSucceed(run: seq<ByteState>, moves: seq<Move>, p: nat) returns (s: State)
    requires ByteRun(run, moves) && p < |run[|run| - 1].procs|
    ensures
      var b := run[|run| - 1];
      && Shows(b, s)
      && var z := b.procs[p];
      && var r := ByteReply(b.idx, b.dat, z);
      && Reads(AccessOf(z)) ==> (r.Empty? <==> Stops(s.files, z)) && (r.Empty? ==> NextPc(z, r) == Broken)
  {
    hide Inv, Shows, ByteNext, ByteReply, AccessOf, Reads, Stops, NextPc;
    var a;
    s, a := RunInvariant(run, moves);
    ShownProcs(run[|run| - 1], s);
    BytesFollow(run[|run| - 1], s, a, p, FetchOp(""));
  }

  // ---- when a call fails ----

  /**
   Why the program ends in a call: a store with data of a length it does not take; a record on the chain, before any
   with the key or as that one, whose key has a separator in it; or a store that appends, at an offset that makes the
   record too long or that fits no pointer.
   */
  ghost predicate Cause(f: Files, a: Lists, z: Proc) {
    || (z.op.StoreOp? && !DataLengthOk(|z.op.data| + 1))
    || Blocked(f.body, a, KeyOf(z.op))
    || (z.op.StoreOp? && z.datoff in f.dat && f.dat[z.datoff] == z.op.data && !LengthOk(Body(z.op.key, z.datoff, |z.op.data| + 1)))
    || (z.op.StoreOp? && z.off in f.body && f.body[z.off].key == z.op.key && z.off > PTR_MAX)
  }

  /** The step that ends a process: exactly these four. */
  lemma EndsExactly(z: Proc, r: Reply, op: Op)
    requires !Ended(z.pc)
    ensures
      Ended((if AccessOf(z).Quit? then Quits(z) else Resume(z, r, op)).pc) <==>
        || (z.pc.Begin? && z.op.StoreOp? && FlagOk(z.op.flag) && !DataLengthOk(|z.op.data| + 1))
        || z.pc.Broken?
        || (z.pc.LockIdx? && z.op.StoreOp? && !LengthOk(Body(z.op.key, z.datoff, |z.op.data| + 1)))
        || (z.pc.LinkHead? && z.off > PTR_MAX)
  {
    hide Hash, LengthOk, IsCString, BlankString, Blanked, HeadLoc, Settled, KeyOk;
  }

  /** The walk of a process that is about to end has met a record it cannot read. */
  lemma BrokenBlocked(s: State, a: Abs, p: nat)
    requires Inv(s, a) && p < |s.procs| && s.procs[p].pc.Broken?
    ensures Blocked(s.files.body, a.lists, KeyOf(s.procs[p].op))
  {
    hide Inv, Hash, IsCString, CallOk, FreePlace, HandPlace, TailPlace;
    ProcFacts(s, a, p);
    var z := s.procs[p];
    assert Blocks(s.files.body, a.lists.chains[ChainOf(z)], KeyOf(z.op), z.n);
  }

  lemma EndPlace(s: State, a: Abs, p: nat)
    requires Inv(s, a) && p < |s.procs|
    ensures
      var z := s.procs[p];
      && (z.pc.LockIdx? ==> z.op.StoreOp? && z.datoff in s.files.dat && s.files.dat[z.datoff] == z.op.data)
      && (z.pc.LinkHead? ==> z.op.StoreOp? && z.off in s.files.body && s.files.body[z.off].key == z.op.key)
  {
    hide Inv, Hash, IsCString, ChainPlace, FreePlace, LengthOk;
    ProcFacts(s, a, p);
  }

  lemma EndsForCause(s: State, a: Abs, p: nat, op: Op)
    requires Inv(s, a) && p < |s.procs| && !Ended(s.procs[p].pc) && Ended(Next(s, p, op).procs[p].pc)
    ensures Cause(s.files, a.lists, s.procs[p])
  {
    hide Inv, Hash, IsCString, LengthOk, Blocked, AccessOf, Resume, Quits;
    var z := s.procs[p];
    EndsExactly(z, ReplyTo(s.files, AccessOf(z)), op);
    EndPlace(s, a, p);
    if z.pc.Broken? {
      BrokenBlocked(s, a, p);
    }
  }

  lemma AnyPrefix(run: seq<ByteState>, moves: seq<Move>, i: nat)
    requires ByteRun(run, moves) && i <= |moves|
    ensures |run| == |moves| + 1 && ByteRun(run[..i + 1], moves[..i]) && run[..i + 1][i] == run[i]
    ensures i < |moves| ==> ByteStep(run[i], run[i + 1], moves[i].pid, moves[i].op)
  {
    hide ByteStep, ByteInitial;
  }

  /**
   In any run, a call fails only where the program ends it: a fetch or a deletion only at a record on its chain whose key
   has a separator in it, a store only there or at a limit. Every other call that is made returns.
   */
  lemma FailsForCause(run: seq<ByteState>, moves: seq<Move>, i: nat) returns (s: State, a: Abs)
    requires ByteRun(run, moves) && i < |moves|
    requires
      var p := moves[i].pid;
      p < |run[i].procs| == |run[i + 1].procs| && !CallOf(run[i].procs[p]).Failed? && CallOf(run[i + 1].procs[p]).Failed?
    ensures Inv(s, a) && Shows(run[i], s)
    ensures
      var z := run[i].procs[moves[i].pid];
      && CallOf(z).Pending? && Cause(s.files, a.lists, z)
      && (!z.op.StoreOp? ==> Blocked(s.files.body, a.lists, KeyOf(z.op)))
  {
    hide Inv, Shows, ByteRun, ByteNext, ByteEnabled, Next, Cause, ObjectStep;
    AnyPrefix(run, moves, i);
    s, a := RunInvariant(run[..i + 1], moves[..i]);
    var p, op := moves[i].pid, moves[i].op;
    var s', a' := Advance(run[i], run[i + 1], s, a, p, op);
    ShownProcs(run[i], s);
    BytesFollow(run[i], s, a, p, op);
    ShownProcs(run[i + 1], Next(s, p, op));
    FailedEnded(run[i].procs[p]);
    FailedEnded(run[i + 1].procs[p]);
    EndsForCause(s, a, p, op);
    if !run[i].procs[p].op.StoreOp? {
      NotStore(s.files, a.lists, run[i].procs[p]);
    }
    StepCall(Object(s, a), Object(s', a'), p);
  }

  lemma FailedEnded(z: Proc)
    ensures CallOf(z).Failed? <==> Ended(z.pc)
  {
  }

  lemma NotStore(f: Files, a: Lists, z: Proc)
    requires Cause(f, a, z) && !z.op.StoreOp?
    ensures Blocked(f.body, a, KeyOf(z.op))
  {
  }

  lemma StepCall(u: MapObject, u': MapObject, p: nat)
    requires ObjectStep(u, u', p) && !u.calls[p].Failed? && u'.calls[p].Failed?
    ensures u.calls[p].Pending?
  {
    hide ApplySpec;
  }

  // ---- space is used again, and readers share ----

  predicate HasSizes(b: Body, keylen: nat, datlen: nat) {
    |b.key| == keylen && b.datlen == datlen
  }

  /** In every reachable state: a store that appends has found no free record of its sizes; one that reuses has found one. */
  lemma ReusesWhatFits(run: seq<ByteState>, moves: seq<Move>, p: nat) returns (s: State, a: Abs)
    requires ByteRun(run, moves) && p < |run[|run| - 1].procs|
    ensures Inv(s, a) && Shows(run[|run| - 1], s) && p < |s.procs|
    ensures s.procs[p].pc.UnlockFreeMiss? || s.procs[p].pc.PopFree? ==> s.procs[p].op.StoreOp?
    ensures s.procs[p].pc.UnlockFreeMiss? ==>
      forall o <- a.lists.free :: o in s.files.body && !HasSizes(s.files.body[o], |s.procs[p].op.key|, |s.procs[p].op.data| + 1)
    ensures s.procs[p].pc.PopFree? ==>
      && s.procs[p].off in a.lists.free && s.procs[p].off in s.files.body
      && HasSizes(s.files.body[s.procs[p].off], |s.procs[p].op.key|, |s.procs[p].op.data| + 1)
  {
    hide Inv, Shows, ByteInitial, ByteStep, ChainPlace, HandPlace, TailPlace, FlagPlace, ResultPlace;
    s, a := RunInvariant(run, moves);
    ShownProcs(run[|run| - 1], s);
    ProcFacts(s, a, p);
  }

  /** In every reachable state: a store deletes the record it has found only if its data have another length; if not, it overwrites them. */
  lemma ReplacesInPlace(run: seq<ByteState>, moves: seq<Move>, p: nat) returns (s: State, a: Abs)
    requires ByteRun(run, moves) && p < |run[|run| - 1].procs|
    ensures Inv(s, a) && Shows(run[|run| - 1], s) && p < |s.procs|
    ensures
      var z := s.procs[p];
      z.op.StoreOp? && (z.pc.LockFreeD? || z.pc.OverData?) ==>
        && z.off in s.files.body && s.files.body[z.off].key == z.op.key
        && (z.pc.LockFreeD? <==> s.files.body[z.off].datlen != |z.op.data| + 1)
  {
    hide Inv, Shows, ByteInitial, ByteStep, FreePlace, HandPlace, TailPlace, FlagPlace, ResultPlace;
    s, a := RunInvariant(run, moves);
    ShownProcs(run[|run| - 1], s);
    ProcFacts(s, a, p);
  }

  /** A fetch waits only for a process that is changing its chain. */
  lemma FetchWaitsForWriter(run: seq<ByteState>, moves: seq<Move>, p: nat) returns (q: nat)
    requires ByteRun(run, moves) && p < |run[|run| - 1].procs|
    requires
      var b := run[|run| - 1];
      b.procs[p].op.FetchOp? && !Ended(b.procs[p].pc) && !b.procs[p].pc.Idle? && !ByteEnabled(b, p)
    ensures
      var b := run[|run| - 1];
      && b.procs[p].pc.LockChain? && q < |b.procs| && q != p
      && HoldsChain(b.procs[q].pc) && ChainOf(b.procs[q]) == ChainOf(b.procs[p]) && !b.procs[q].op.FetchOp?
  {
    hide Inv, Shows, Holds, ByteInitial, ByteStep, Hash;
    var s, a := RunInvariant(run, moves);
    ShownState(run[|run| - 1], s);
    InvLocks(s, a);
    FetchLocks(s, a, p);
    var z := s.procs[p];
    var l :| l in s.locks && l.pid != p && l.region == Chain(ChainOf(z)) && l.mode != Reading;
    q := l.pid;
    assert Holds(s.procs[q], l.region, l.mode);
    WriterHolds(s.procs[q], l.region, l.mode);
  }

  lemma FetchLocks(s: State, a: Abs, p: nat)
    requires Inv(s, a) && p < |s.procs| && s.procs[p].op.FetchOp? && AccessOf(s.procs[p]).Acquire? && !s.procs[p].pc.Idle?
    ensures s.procs[p].pc.LockChain? && AccessOf(s.procs[p]) == Acquire(Chain(ChainOf(s.procs[p])), Reading)
  {
    hide Inv, PlaceOk, Hash, LengthOk, FlagPlace, ResultPlace;
    ProcFacts(s, a, p);
  }

  lemma WriterHolds(z: Proc, g: Region, m: Mode)
    requires Holds(z, g, m) && g.Chain? && m != Reading
    ensures HoldsChain(z.pc) && ChainOf(z) == g.h && !z.op.FetchOp?
  {
    hide Hash, HoldsChain;
  }

  /** Nothing is halfway done by a process outside a call. */
  lemma Resting(z: Proc)
    requires !MidCall(z)
    ensures !Unlinking(z.pc) && !Gap(z) && (Owns(z.pc) ==> z.pc.Stray?)
  {
  }

  lemma AllResting(s: State, a: Abs)
    requires Inv(s, a) && forall p :: 0 <= p < |s.procs| ==> !MidCall(s.procs[p])
    ensures a.vptr == s.files.ptr && a.gap.Keys == {}
    ensures forall o <- a.own :: a.own[o] < |s.procs| && s.procs[a.own[o]].pc.Stray? && o > PTR_MAX
  {
    hide FilesOk, ListsOk, LocksOk, MidCall, Unlinking, Owns, Gap, OwnsDat, DataOf, CallOk, ChainPlace, FreePlace, TailPlace;
    forall p | 0 <= p < |s.procs| ensures !Unlinking(s.procs[p].pc) && !Gap(s.procs[p]) && (Owns(s.procs[p].pc) ==> s.procs[p].pc.Stray?) {
      Resting(s.procs[p]);
    }
  }

  lemma MapIsContents(s: State, a: Abs)
    requires ContentsOk(s, a) && a.gap.Keys == {}
    ensures Contents(s.files, a.lists) == a.m
  {
    hide DataOf, Gap;
  }

  /** The files hold exactly the map; a record no pointer leads to, too far out for one, is one that a failed store left. */
  ghost predicate FilesHold(f: Files, a: Lists, lost: set<nat>, procs: seq<Proc>, m: map<CString, CString>) {
    && FilesOk(f) && ListsOk(f.ptr, f.body, a, lost) && Contents(f, a) == m
    && forall o <- lost :: o > PTR_MAX && exists p :: 0 <= p < |procs| && procs[p].pc.Stray? && procs[p].off == o
  }

  /** With nobody in a call the records on the chains are exactly the map. */
  lemma AllIdle(s: State, a: Abs)
    requires Inv(s, a) && forall p :: 0 <= p < |s.procs| ==> !MidCall(s.procs[p])
    ensures FilesHold(s.files, a.lists, a.own.Keys, s.procs, a.m)
  {
    hide FilesOk, ListsOk, LocksOk, VptrOk, ContentsOk, ProcOk, MidCall, Contents, Owns, OwnsDat;
    AllResting(s, a);
    MapIsContents(s, a);
    forall o <- a.own.Keys ensures o > PTR_MAX && exists p :: 0 <= p < |s.procs| && s.procs[p].pc.Stray? && s.procs[p].off == o {
      assert s.procs[a.own[o]].off == o;
    }
  }

  // ---- no deadlock ----

  lemma EndHoldersRun(z: Proc)
    ensures HoldsFree(z.pc) || HoldsDat(z.pc) || HoldsIdx(z.pc) ==> !AccessOf(z).Acquire? && MidCall(z)
    ensures AccessOf(z).Acquire? && HoldsChain(z.pc) ==> !AccessOf(z).region.Chain?
    ensures HoldsChain(z.pc) || AccessOf(z).Acquire? ==> MidCall(z)
  {
    hide Hash, LengthOk;
  }

  /** A process that has to wait waits for one that is in a call and holds the region. */
  lemma BlockedBy(s: State, p: nat) returns (q: nat)
    requires LocksOk(s) && p < |s.procs| && !Enabled(s, p) && !Ended(s.procs[p].pc)
    ensures AccessOf(s.procs[p]).Acquire?
    ensures q < |s.procs| && q != p && exists m :: Holds(s.procs[q], AccessOf(s.procs[p]).region, m)
  {
    hide AccessOf, Holds;
    var a := AccessOf(s.procs[p]);
    var l :| l in s.locks && l.pid != p && l.region == a.region && !(l.mode == Reading && a.mode == Reading);
    q := l.pid;
    assert Holds(s.procs[q], a.region, l.mode);
  }

  /** As long as somebody is in a call and no limit has ended the program, somebody in a call can take a step. */
  lemma NoDeadlock(run: seq<ByteState>, moves: seq<Move>, p: nat) returns (q: nat)
    requires ByteRun(run, moves)
    requires
      var b := run[|run| - 1];
      p < |b.procs| && MidCall(b.procs[p])
    ensures
      var b := run[|run| - 1];
      q < |b.procs| && MidCall(b.procs[q]) && ByteEnabled(b, q)
  {
    hide Inv, Shows, AccessOf, Holds, Grantable, ByteInitial, ByteStep;
    var s, a := RunInvariant(run, moves);
    ShownState(run[|run| - 1], s);
    InvLocks(s, a);
    q := p;
    if !Enabled(s, q) {
      q := BlockedBy(s, p);
      HolderKind(s.procs[q], AccessOf(s.procs[p]).region);
      EndHoldersRun(s.procs[q]);
      if !Enabled(s, q) {
        var r := BlockedBy(s, q);
        HolderKind(s.procs[r], AccessOf(s.procs[q]).region);
        EndHoldersRun(s.procs[r]);
        q := r;
      }
    }
  }

  lemma ShownState(b: ByteState, s: State)
    requires Shows(b, s)
    ensures b.procs == s.procs && b.locks == s.locks
  {
  }

  lemma HolderKind(z: Proc, g: Region)
    requires exists m :: Holds(z, g, m)
    ensures if g.Chain? then HoldsChain(z.pc) else HoldsFree(z.pc) || HoldsDat(z.pc) || HoldsIdx(z.pc)
  {
  }

  /** A process holds at most one chain, and the free list or the end of a file only while it holds that chain. */
  lemma LockOrder(run: seq<ByteState>, moves: seq<Move>)
    requires ByteRun(run, moves)
    ensures
      var locks := run[|run| - 1].locks;
      && (forall k, l | k in locks && l in locks && k.pid == l.pid && k.region.Chain? && l.region.Chain? :: k == l)
      && (forall l <- locks | !l.region.Chain? :: exists k <- locks :: k.pid == l.pid && k.region.Chain?)
      && (forall k, l | k in locks && l in locks && k.pid == l.pid && !k.region.Chain? && !l.region.Chain? :: k == l)
      && (forall k, l | k in locks && l in locks && k.region == l.region && k.pid != l.pid :: k.mode == l.mode == Reading)
  {
    hide Inv, Shows, Holds, Hash;
    var s, a := RunInvariant(run, moves);
    ShownState(run[|run| - 1], s);
    InvLocks(s, a);
    forall k, l | k in s.locks && l in s.locks && k.pid == l.pid && k.region.Chain? == l.region.Chain? ensures k == l {
      OneEach(s.procs[k.pid], k.region, k.mode, l.region, l.mode);
    }
    forall l | l in s.locks && !l.region.Chain? ensures exists k <- s.locks :: k.pid == l.pid && k.region.Chain? {
      var z := s.procs[l.pid];
      OneEach(z, l.region, l.mode, l.region, l.mode);
      assert Lock(l.pid, Chain(ChainOf(z)), ModeOf(z.op)) in s.locks;
    }
  }

  lemma OneEach(z: Proc, g: Region, m: Mode, g': Region, m': Mode)
    requires Holds(z, g, m) && Holds(z, g', m') && g.Chain? == g'.Chain?
    ensures g == g' && m == m'
    ensures !g.Chain? ==> Holds(z, Chain(ChainOf(z)), ModeOf(z.op))
  {
    hide Hash;
  }
}
