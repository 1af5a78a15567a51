/**
 Restarts of the print daemon. The number a restart begins with is in the job file, which is written only when a job is
 taken up; so it can be a number already given to an accepted job. When that loses the job, and when it cannot.
 */
module SpoolRestart {
  import opened Common
  import opened Spooler
  import opened SpoolProof
  import opened SpoolTold
  import opened SpoolTheorem
  import PrintQueue

  /** The job is on disk as it was sent. */
  ghost predicate Whole(s: State, id: nat, what: (PrintQueue.Req, seq<nat>)) {
    id in s.d.reqs && s.d.reqs[id] == Some(what.0) && id in s.d.data && s.d.data[id] == what.1
  }

  // ---- a job below the number in the job file is safe, whatever happens to others ----

  /** The number will not be given out again, and the job is whole or reported printed. */
  ghost predicate Guarded(s: State, id: nat, what: (PrintQueue.Req, seq<nat>)) {
    && id < FirstNumber(s.d.jobfile) <= s.d.nextjob
    && (forall c | 0 <= c < |s.d.clients| :: Number(s.d.clients[c]) != Some(id))
    && (id in s.h.gone || Whole(s, id, what))
    && (s.d.printer.UnlinkData? || s.d.printer.UnlinkReq? ==> s.d.printer.job.id == id ==> id in s.h.gone)
  }

  lemma ClientGuards(s: State, m: Move, id: nat, what: (PrintQueue.Req, seq<nat>))
    requires Guarded(s, id, what) && m.ByClient? && m.c < |s.d.clients|
    ensures Guarded(ClientStep(s, m), id, what)
  {
    hide ClientNext, ClientData, ClientReqs, Number, FirstNumber;
    NumberMoves(s.d, s.d.clients[m.c], m);
  }

  lemma PrinterGuards(s: State, m: Move, id: nat, what: (PrintQueue.Req, seq<nat>))
    requires Guarded(s, id, what) && m.ByPrinter?
    ensures Guarded(PrinterStep(s, m), id, what)
  {
    hide PrinterQueue, Number;
  }

  lemma MainGuards(s: State, id: nat, what: (PrintQueue.Req, seq<nat>))
    requires Guarded(s, id, what)
    ensures Guarded(MainStep(s), id, what)
  {
    hide Number, FirstNumber;
  }

  lemma GuardKept(s: State, m: Move, id: nat, what: (PrintQueue.Req, seq<nat>))
    requires Guarded(s, id, what) && Enabled(s, m)
    ensures Guarded(Next(s, m), id, what)
  {
    hide Guarded, ClientStep, PrinterStep, MainStep;
    match m
    case ByClient(_, _, _, _, _) => ClientGuards(s, m, id, what);
    case ByPrinter(_) => PrinterGuards(s, m, id, what);
    case ByMain => MainGuards(s, id, what);
    case Crash(order) =>
      GuardParts(s, id, what);
      Guards(s, order, id, what);
  }

  lemma GuardParts(s: State, id: nat, what: (PrintQueue.Req, seq<nat>))
    requires Guarded(s, id, what)
    ensures id < FirstNumber(s.d.jobfile) && (Whole(s, id, what) || id in s.h.gone)
  {
  }

  /** A restart guards every job below its first number. */
  lemma Guards(s: State, order: seq<nat>, id: nat, what: (PrintQueue.Req, seq<nat>))
    requires id < FirstNumber(s.d.jobfile) && (Whole(s, id, what) || id in s.h.gone)
    ensures Guarded(CrashStep(s, order), id, what)
  {
  }

  lemma {:induction false} GuardThroughout(s: State, moves: seq<Move>, s': State, id: nat, what: (PrintQueue.Req, seq<nat>))
    requires Guarded(s, id, what) && Leads(s, moves, s')
    ensures id in s'.h.gone || Whole(s', id, what)
    decreases |moves|
  {
    hide Guarded, Next, Enabled;
    if moves == [] {
      GuardParts(s, id, what);
    } else {
      GuardKept(s, moves[0], id, what);
      GuardThroughout(Next(s, moves[0]), moves[1..], s', id, what);
    }
  }

  // ---- a job at or above it can be lost ----

  lemma {:induction false} LeadsOn(s: State, moves: seq<Move>, t: State, m: Move)
    requires Leads(s, moves, t) && Enabled(t, m)
    ensures Leads(s, moves + [m], Next(t, m))
    decreases |moves|
  {
    hide Next, Enabled;
    if moves != [] {
      LeadsOn(Next(s, moves[0]), moves[1..], t, m);
      assert (moves + [m])[1..] == moves[1..] + [m];
    } else {
      assert [m][1..] == [];
      assert [] + [m] == [m];
      assert Leads(Next(s, m), [], Next(s, m));
    }
  }

  /** After the moves the daemon serves, thread 0 is idle and the job is as it was. */
  ghost predicate Waiting(s: State, id: nat, what: (PrintQueue.Req, seq<nat>)) {
    |s.d.clients| > 0 && s.d.clients[0].Idle? && Whole(s, id, what) && id !in s.h.gone
  }

  /** The main thread queues what it finds and starts to serve. */
  lemma {:induction false} ComesToServe(s: State, moves: seq<Move>, t: State, id: nat, what: (PrintQueue.Req, seq<nat>))
    returns (moves': seq<Move>, t': State)
    requires Leads(s, moves, t) && Waiting(t, id, what)
    ensures Leads(s, moves', t') && Waiting(t', id, what) && t'.d.main.Serve? && t'.d.nextjob == t.d.nextjob && t'.h.sent == t.h.sent
    decreases |Todo(t.d.main)|, !t.d.main.Serve?, t.d.main.BuildSignal?
  {
    hide Leads;
    if t.d.main.Serve? {
      moves', t' := moves, t;
    } else {
      LeadsOn(s, moves, t, ByMain);
      moves', t' := ComesToServe(s, moves + [ByMain], Next(t, ByMain), id, what);
    }
  }

  const NOBODY := PrintQueue.Req(0, 0, "", "")

  /** Thread 0's moves: with success or without, with a piece of the file or at its end. */
  function Go(ok: bool): Move {
    ByClient(0, ok, false, NOBODY, [])
  }

  /** A connection is made and gets the next number. */
  lemma Connects(s: State, moves: seq<Move>, t: State) returns (moves': seq<Move>, t': State)
    requires Leads(s, moves, t) && t.d.main.Serve? && |t.d.clients| > 0 && t.d.clients[0].Idle?
    ensures Leads(s, moves', t')
    ensures t' == State(t.d.(clients := t.d.clients[0 := CreatData(t.d.nextjob, NOBODY)], nextjob := t.d.nextjob + 1), t.h)
  {
    hide Leads;
    var g := Go(false);
    LeadsOn(s, moves, t, g);
    LeadsOn(s, moves + [g], Next(t, g), g);
    moves', t' := moves + [g] + [g], Next(Next(t, g), g);
  }

  /** Connections whose files cannot be created use up the numbers before id; the next one gets id. */
  lemma {:induction false} UsesUp(s: State, moves: seq<Move>, t: State, id: nat, what: (PrintQueue.Req, seq<nat>))
    returns (moves': seq<Move>, t': State)
    requires Leads(s, moves, t) && Waiting(t, id, what) && t.d.main.Serve? && t.d.nextjob <= id
    ensures Leads(s, moves', t') && Whole(t', id, what) && id !in t'.h.gone && t'.h.sent == t.h.sent
    ensures |t'.d.clients| > 0 && t'.d.clients[0] == CreatData(id, NOBODY)
    decreases id - t.d.nextjob
  {
    hide Leads;
    moves', t' := Connects(s, moves, t);
    if t.d.nextjob < id {
      LeadsOn(s, moves', t', Go(false));
      moves', t' := UsesUp(s, moves' + [Go(false)], Next(t', Go(false)), id, what);
    }
  }

  /** The connection that gets id truncates the data and may write its own. */
  lemma Overwrites(s: State, moves: seq<Move>, t: State, id: nat, what: (PrintQueue.Req, seq<nat>))
    returns (moves': seq<Move>, t': State)
    requires Leads(s, moves, t) && id !in t.h.gone && |t.d.clients| > 0 && t.d.clients[0] == CreatData(id, NOBODY)
    ensures Leads(s, moves', t') && id !in t'.h.gone && id in t'.d.data && t'.d.data[id] != what.1 && t'.h.sent == t.h.sent
  {
    hide Leads;
    LeadsOn(s, moves, t, Go(true));
    moves', t' := moves + [Go(true)], Next(t, Go(true));
    if what.1 == [] {
      var more := ByClient(0, true, true, NOBODY, [1]);
      LeadsOn(s, moves', t', more);
      moves', t' := moves' + [more], Next(t', more);
    }
  }

  lemma Loses(s: State, moves: seq<Move>, t: State, id: nat, what: (PrintQueue.Req, seq<nat>))
    returns (moves': seq<Move>, t': State)
    requires Leads(s, moves, t) && Waiting(t, id, what) && t.d.nextjob <= id
    ensures Leads(s, moves', t') && id !in t'.h.gone && !Whole(t', id, what) && t'.h.sent == t.h.sent
  {
    hide Leads;
    moves', t' := ComesToServe(s, moves, t, id, what);
    moves', t' := UsesUp(s, moves', t', id, what);
    moves', t' := Overwrites(s, moves', t', id, what);
  }

  lemma RestartWaits(s: State, order: seq<nat>, id: nat, what: (PrintQueue.Req, seq<nat>))
    requires Whole(s, id, what) && id !in s.h.gone && |s.d.clients| > 0
    ensures Waiting(CrashStep(s, order), id, what) && CrashStep(s, order).d.nextjob == FirstNumber(s.d.jobfile)
    ensures CrashStep(s, order).h.sent == s.h.sent && Leads(CrashStep(s, order), [], CrashStep(s, order))
  {
  }

  /**
   An accepted job that is whole when the daemon restarts: some way of going on destroys it before it is printed exactly
   when the number in the job file is not above its own.
   */
  lemma RestartLoses(s: State, order: seq<nat>, id: nat, what: (PrintQueue.Req, seq<nat>))
    requires Whole(s, id, what) && id !in s.h.gone && |s.d.clients| > 0
    ensures
      (exists moves, s' :: Leads(CrashStep(s, order), moves, s') && id !in s'.h.gone && !Whole(s', id, what))
      <==> FirstNumber(s.d.jobfile) <= id
  {
    hide Leads, Whole, FirstNumber, CrashStep;
    if FirstNumber(s.d.jobfile) <= id {
      var t := CrashStep(s, order);
      RestartWaits(s, order, id, what);
      var moves, s' := Loses(t, [], t, id, what);
    } else {
      Guards(s, order, id, what);
      forall moves, s' | Leads(CrashStep(s, order), moves, s') ensures id in s'.h.gone || Whole(s', id, what) {
        GuardThroughout(CrashStep(s, order), moves, s', id, what);
      }
    }
  }

  /** Nothing that was accepted before a restart is lost after it, whatever happens, exactly when the start is fresh. */
  ghost predicate KeepsAll(s: State, t: State) {
    forall id, moves, s' | id in s.h.sent && id !in s.h.gone && Leads(t, moves, s') :: id in s'.h.gone || Whole(s', id, s.h.sent[id])
  }

  lemma RestartExact(s0: State, moves: seq<Move>, s: State, order: seq<nat>)
    requires Initial(s0) && Leads(s0, moves, s) && FreshStarts(s0, moves) && |s.d.clients| > 0
    ensures KeepsAll(s, CrashStep(s, order)) <==> FreshStart(s)
    ensures FreshStart(s) <==> forall id | id in s.d.reqs && s.d.reqs[id].Some? :: id < FirstNumber(s.d.jobfile)
  {
    hide Leads, FreshStarts, Initial, Inv, CrashStep, FirstNumber, Whole;
    InitialOk(s0);
    InvThroughout(s0, moves, s);
    Parts(s);
    FreshOnDisk(s);
    forall id | id in s.h.sent && id !in s.h.gone ensures Whole(s, id, s.h.sent[id]) {
      WholeFiles(s, id);
    }
    if FreshStart(s) {
      forall id, moves, s' | id in s.h.sent && id !in s.h.gone && Leads(CrashStep(s, order), moves, s')
        ensures id in s'.h.gone || Whole(s', id, s.h.sent[id])
      {
        Guards(s, order, id, s.h.sent[id]);
        GuardThroughout(CrashStep(s, order), moves, s', id, s.h.sent[id]);
      }
    } else {
      var id: nat :| id in s.h.sent && id !in s.h.gone && FirstNumber(s.d.jobfile) <= id;
      RestartLoses(s, order, id, s.h.sent[id]);
    }
  }

  lemma WholeFiles(s: State, id: nat)
    requires FilesOk(s) && id in s.h.sent && id !in s.h.gone
    ensures Whole(s, id, s.h.sent[id])
  {
  }

  // ---- a run that loses a job ----

  /** A connection is made, gets its number and sends its file, of one byte. */
  lemma Receives(s: State, moves: seq<Move>, t: State) returns (moves': seq<Move>, t': State, req: PrintQueue.Req)
    requires Leads(s, moves, t) && t.d.main.Serve? && |t.d.clients| > 0 && t.d.clients[0].Idle?
    ensures Leads(s, moves', t')
    ensures t'.d == t.d.(clients := t.d.clients[0 := CreatReq(t.d.nextjob, req, [9])], nextjob := t.d.nextjob + 1, data := t.d.data[t.d.nextjob := [9]])
    ensures t'.h == t.h
  {
    hide Leads, Flagged;
    moves', t' := Connects(s, moves, t);
    var g, piece := Go(true), ByClient(0, true, true, NOBODY, [9]);
    LeadsOn(s, moves', t', g);
    var t1 := Next(t', g);
    LeadsOn(s, moves' + [g], t1, piece);
    var t2 := Next(t1, piece);
    LeadsOn(s, moves' + [g] + [piece], t2, g);
    moves', t', req := moves' + [g] + [piece] + [g], Next(t2, g), Flagged(NOBODY, [9]);
    assert t2.d.clients[0] == Store(t.d.nextjob, req, [] + [9]);
    assert [] + [9] == [9];
    assert t'.d.data == t.d.data[t.d.nextjob := [9]];
    assert t'.d.clients == t.d.clients[0 := CreatReq(t.d.nextjob, req, [9])];
  }

  /** Its request is written: the job is accepted; and the thread queues it. */
  lemma Accepts(s: State, moves: seq<Move>, t: State, id: nat, req: PrintQueue.Req) returns (moves': seq<Move>, t': State)
    requires Leads(s, moves, t) && |t.d.clients| > 0 && t.d.clients[0] == CreatReq(id, req, [9]) && !t.d.printer.Asleep?
    ensures Leads(s, moves', t')
    ensures t'.d == t.d.(clients := t.d.clients[0 := Idle], reqs := t.d.reqs[id := Some(req)], queue := t.d.queue + [Entry(id, req)])
    ensures t'.h.sent == t.h.sent[id := (req, [9])] && t'.h.gone == t.h.gone - {id}
  {
    var g := Go(true);
    hide Leads;
    LeadsOn(s, moves, t, g);
    var t1 := Next(t, g);
    LeadsOn(s, moves + [g], t1, g);
    var t2 := Next(t1, g);
    LeadsOn(s, moves + [g] + [g], t2, g);
    var t3 := Next(t2, g);
    LeadsOn(s, moves + [g] + [g] + [g], t3, g);
    var t4 := Next(t3, g);
    LeadsOn(s, moves + [g] + [g] + [g] + [g], t4, g);
    moves', t' := moves + [g] + [g] + [g] + [g] + [g], Next(t4, g);
  }

  /** The printer thread takes up the first job and writes the job file. */
  lemma TakesUp(s: State, moves: seq<Move>, t: State) returns (moves': seq<Move>, t': State)
    requires Leads(s, moves, t) && t.d.printer.Look? && t.d.queue != []
    ensures Leads(s, moves', t') && t'.d == t.d.(queue := t.d.queue[1..], printer := Open(t.d.queue[0]), jobfile := Some(t.d.nextjob))
    ensures t'.h == t.h
  {
    hide Leads;
    var m := ByPrinter(true);
    LeadsOn(s, moves, t, m);
    LeadsOn(s, moves + [m], Next(t, m), m);
    moves', t' := moves + [m] + [m], Next(Next(t, m), m);
  }

  /** Jobs 1 and 2 are accepted, and the first is taken up before the second comes. */
  lemma TwoAccepted() returns (s: State, moves: seq<Move>, t: State, req: PrintQueue.Req)
    ensures Initial(s) && Leads(s, moves, t) && t.d.jobfile == Some(2) && t.d.reqs.Keys == {1, 2} && |t.d.clients| > 0
    ensures Whole(t, 2, (req, [9])) && 2 !in t.h.gone && 2 in t.h.sent && t.h.sent[2] == (req, [9])
  {
    s := State(Daemon([], Look, Build([]), [Idle], 1, None, map[], map[]), History([], [], map[], {}));
    assert Leads(s, [], s);
    hide Leads;
    LeadsOn(s, [], s, ByMain);
    moves, t := [] + [ByMain], Next(s, ByMain);
    var req1;
    moves, t, req1 := Receives(s, moves, t);
    moves, t := Accepts(s, moves, t, 1, req1);
    moves, t := TakesUp(s, moves, t);
    moves, t, req := Receives(s, moves, t);
    moves, t := Accepts(s, moves, t, 2, req);
  }

  /** Then the daemon restarts: the next connection gets number 2 and the second job is lost. */
  lemma JobIsLost() returns (s: State, moves: seq<Move>, s': State)
    ensures Initial(s) && Leads(s, moves, s') && 2 in s'.h.sent && 2 !in s'.h.gone && !Whole(s', 2, s'.h.sent[2])
  {
    hide Leads, Whole, Initial;
    var t, req;
    s, moves, t, req := TwoAccepted();
    var crash := Crash([1, 2]);
    LeadsOn(s, moves, t, crash);
    RestartWaits(t, [1, 2], 2, (req, [9]));
    moves, s' := Loses(s, moves + [crash], CrashStep(t, [1, 2]), 2, (req, [9]));
  }
}
