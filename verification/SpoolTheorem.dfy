/** What the print daemon guarantees over whole runs, crashes included. */
module SpoolTheorem {
  import opened Common
  import opened Spooler
  import opened SpoolProof
  import opened SpoolTold
  import PrintQueue

  /** At every restart the number in the job file is above all accepted jobs that are still to be printed. */
  ghost predicate FreshStarts(s: State, moves: seq<Move>)
    decreases |moves|
  {
    moves == [] || ((moves[0].Crash? ==> FreshStart(s)) && FreshStarts(Next(s, moves[0]), moves[1..]))
  }

  lemma {:induction false} InvThroughout(s: State, moves: seq<Move>, s': State)
    requires Inv(s) && Leads(s, moves, s') && FreshStarts(s, moves)
    ensures Inv(s')
    decreases |moves|
  {
    hide Inv, Next, Enabled, FreshStart;
    if moves != [] {
      StepKeeps(s, moves[0]);
      InvThroughout(Next(s, moves[0]), moves[1..], s');
    }
  }

  lemma {:induction false} TurnsThroughout(s: State, moves: seq<Move>, s': State)
    requires OrderOk(s) && WakeOk(s) && Leads(s, moves, s')
    ensures OrderOk(s') && WakeOk(s')
    decreases |moves|
  {
    hide OrderOk, WakeOk, Next, Enabled;
    if moves != [] {
      TurnsKept(s, moves[0]);
      TurnsThroughout(Next(s, moves[0]), moves[1..], s');
    }
  }

  /**
   In every run, the finished jobs, then the one in the printer thread's hands, then the queue are exactly the jobs added
   since the start, in order: deferral never reorders, loses or duplicates a job. With fresh starts no number comes twice.
   */
  lemma FirstComeFirstServed(s: State, moves: seq<Move>, s': State)
    requires Initial(s) && Leads(s, moves, s')
    ensures Jobs(s'.h.finished) + Hand(s'.d.printer) + s'.d.queue == s'.h.added
    ensures FreshStarts(s, moves) ==> OnceEach(s'.h.added)
  {
    hide Inv, Initial, Leads, FreshStarts;
    InitialOk(s);
    Parts(s);
    TurnsThroughout(s, moves, s');
    if FreshStarts(s, moves) {
      InvThroughout(s, moves, s');
      Parts(s');
    }
  }

  lemma Parts(s: State)
    requires Inv(s)
    ensures OrderOk(s) && NumbersOk(s) && JobFileOk(s) && FilesOk(s) && JobsOk(s) && PlacedOk(s) && WakeOk(s)
  {
    hide OrderOk, NumbersOk, JobFileOk, FilesOk, JobsOk, PlacedOk, WakeOk, ClientOk;
  }

  /**
   With fresh starts, what is printed for a job is, byte for byte, the file its client sent, in as many pieces as it took,
   under the request it sent first, marked as plain text unless the file begins as PostScript does.
   */
  lemma PrintsWhatWasSent(s: State, moves: seq<Move>, s': State, i: nat) returns (k: nat, c: nat)
    requires Initial(s) && Leads(s, moves, s') && FreshStarts(s, moves) && i < |s'.h.finished| && s'.h.finished[i].1.Printed?
    ensures
      var (job, outcome) := s'.h.finished[i];
      && job.id in s'.h.sent && s'.h.sent[job.id] == (job.req, outcome.data)
      && Accepted(s, moves, k, c, job.id, job.req, outcome.data)
  {
    hide Inv, Initial, Leads, Jobs, Hand, Accepted, FreshStarts;
    InitialOk(s);
    InvThroughout(s, moves, s');
    Parts(s');
    assert Jobs(s'.h.finished)[i] == s'.h.finished[i].0 by {
      JobAt(s'.h.finished, i);
    }
    assert s'.h.added[i] == s'.h.finished[i].0 by {
      JobAt(s'.h.finished, i);
    }
    k, c := SentTold(s, moves, s', s'.h.finished[i].0.id);
  }

  lemma JobAt(f: seq<(Entry, Outcome)>, i: nat)
    requires i < |f|
    ensures |Jobs(f)| == |f| && Jobs(f)[i] == f[i].0
  {
  }

  /**
   With fresh starts an accepted job survives everything, crashes included: until the printer has reported it printed, its
   request and its data are on disk as the client sent them; and once the daemon serves, it has been queued or its client
   thread is about to queue it.
   */
  lemma NothingIsLost(s: State, moves: seq<Move>, s': State, id: nat) returns (k: nat, c: nat)
    requires Initial(s) && Leads(s, moves, s') && FreshStarts(s, moves) && id in s'.h.sent && id !in s'.h.gone
    ensures id in s'.d.reqs && s'.d.reqs[id] == Some(s'.h.sent[id].0) && id in s'.d.data && s'.d.data[id] == s'.h.sent[id].1
    ensures Accepted(s, moves, k, c, id, s'.d.reqs[id].value, s'.d.data[id])
    ensures s'.d.main.Serve? ==>
      Queued(s'.h.added, id) || exists c :: 0 <= c < |s'.d.clients| && (s'.d.clients[c].Reply? || s'.d.clients[c].Add?) && s'.d.clients[c].id == id
  {
    hide Inv, Initial, Leads, Queued, OrderOk, NumbersOk, JobsOk, WakeOk, Accepted, FreshStarts;
    InitialOk(s);
    InvThroughout(s, moves, s');
    Parts(s');
    k, c := SentTold(s, moves, s', id);
  }

  /** The printer thread never sleeps through a job: if it waits while the queue is not empty, a signal is on its way. */
  lemma NoLostWakeup(s: State, moves: seq<Move>, s': State)
    requires Initial(s) && Leads(s, moves, s') && s'.d.printer.Asleep? && s'.d.queue != []
    ensures exists m :: Enabled(s', m) && !m.Crash? && Next(s', m).d.printer.Look?
  {
    hide Inv, Initial, Leads, OrderOk, NumbersOk, JobFileOk, FilesOk, JobsOk, PlacedOk;
    InitialOk(s);
    Parts(s);
    TurnsThroughout(s, moves, s');
    if s'.d.main.BuildSignal? {
      assert Enabled(s', ByMain) && Next(s', ByMain).d.printer.Look?;
    } else {
      var c: nat :| c < |s'.d.clients| && s'.d.clients[c].Signal?;
      var m := ByClient(c, true, false, PrintQueue.Req(0, 0, "", ""), []);
      assert Enabled(s', m) && Next(s', m).d.printer.Look?;
    }
  }

  // ---- jobs get printed, and leave nothing behind ----

  /** A job that has been printed has no file left, nor does one whose data file has been removed have that. */
  ghost predicate Cleared(s: State) {
    && (forall i | 0 <= i < |s.h.finished| && s.h.finished[i].1.Printed? ::
          s.h.finished[i].0.id !in s.d.data && s.h.finished[i].0.id !in s.d.reqs)
    && (s.d.printer.UnlinkReq? ==> s.d.printer.job.id !in s.d.data)
  }

  lemma FinishedQueued(s: State)
    requires OrderOk(s)
    ensures forall i | 0 <= i < |s.h.finished| :: Queued(s.h.added, s.h.finished[i].0.id)
    ensures !s.d.printer.Look? && !s.d.printer.Asleep? ==> Queued(s.h.added, s.d.printer.job.id)
  {
    hide Queued;
    HandAdded(s);
    forall i | 0 <= i < |s.h.finished| ensures Queued(s.h.added, s.h.finished[i].0.id) {
      JobAt(s.h.finished, i);
      assert s.h.added[i] == s.h.finished[i].0;
      QueuedAt(s.h.added, i);
    }
  }

  lemma QueuedAt(added: seq<Entry>, i: nat)
    requires i < |added|
    ensures Queued(added, added[i].id)
  {
  }

  lemma ClearedByClient(s: State, m: Move)
    requires Inv(s) && Cleared(s) && m.ByClient? && m.c < |s.d.clients|
    ensures Cleared(ClientStep(s, m))
  {
    hide Inv, ClientNext, ClientData, ClientReqs, Queued, Number;
    Parts(s);
    FinishedQueued(s);
    NumberMoves(s.d, s.d.clients[m.c], m);
    if Number(s.d.clients[m.c]).Some? {
      NotQueuedYet(s, m.c);
    }
  }

  lemma ClearedByPrinter(s: State, m: Move)
    requires Cleared(s) && m.ByPrinter?
    ensures Cleared(PrinterStep(s, m))
  {
    hide PrinterQueue;
  }

  lemma ClearedStep(s: State, m: Move)
    requires Inv(s) && Cleared(s) && Enabled(s, m)
    ensures Cleared(Next(s, m))
  {
    hide Inv, Cleared, ClientStep, PrinterStep;
    match m
    case ByClient(_, _, _, _, _) => ClearedByClient(s, m);
    case ByPrinter(_) => ClearedByPrinter(s, m);
    case ByMain => ClearedByMain(s);
    case Crash(order) => ClearedByCrash(s, order);
  }

  lemma ClearedByMain(s: State)
    requires Cleared(s)
    ensures Cleared(MainStep(s))
  {
  }

  lemma ClearedByCrash(s: State, order: seq<nat>)
    ensures Cleared(CrashStep(s, order))
  {
  }

  lemma {:induction false} ClearedThroughout(s: State, moves: seq<Move>, s': State)
    requires Inv(s) && Cleared(s) && Leads(s, moves, s') && FreshStarts(s, moves)
    ensures Cleared(s')
    decreases |moves|
  {
    hide Inv, Cleared, Next, Enabled, FreshStart;
    if moves != [] {
      ClearedStep(s, moves[0]);
      StepKeeps(s, moves[0]);
      ClearedThroughout(Next(s, moves[0]), moves[1..], s');
    }
  }

  /** With fresh starts, a job that has been printed leaves no file behind. */
  lemma PrintedLeavesNothing(s: State, moves: seq<Move>, s': State, i: nat)
    requires Initial(s) && Leads(s, moves, s') && FreshStarts(s, moves) && i < |s'.h.finished| && s'.h.finished[i].1.Printed?
    ensures s'.h.finished[i].0.id !in s'.d.data && s'.h.finished[i].0.id !in s'.d.reqs
  {
    hide Inv, Leads, FreshStarts;
    InitialOk(s);
    ClearedThroughout(s, moves, s');
  }

  /** A printer that works prints the first job of the queue: six steps of the printer thread, whatever went before. */
  lemma PrintsTheFirst(s: State)
    requires Inv(s) && s.d.printer.Look? && s.d.queue != [] && s.d.queue[0].id !in s.h.gone
    ensures
      var m := ByPrinter(true);
      var t := Next(Next(Next(Next(Next(Next(s, m), m), m), m), m), m);
      var (id, req) := (s.d.queue[0].id, s.d.queue[0].req);
      && t.d.printer.Look? && t.d.queue == s.d.queue[1..] && id in s.h.sent && s.h.sent[id].0 == req
      && t.h.finished == s.h.finished + [(s.d.queue[0], Printed(s.h.sent[id].1))]
  {
    hide Inv;
    Parts(s);
    FirstQueued(s);
    FileThere(s, s.d.queue[0]);
    hide OrderOk, NumbersOk, JobFileOk, PlacedOk, WakeOk, FilesOk, JobsOk;
    var m, job := ByPrinter(true), s.d.queue[0];
    var t2 := Next(Next(s, m), m);
    assert t2.d.printer == Open(job) && t2.d.data == s.d.data && t2.d.queue == s.d.queue[1..] && t2.h == s.h;
    var t4 := Next(Next(t2, m), m);
    assert t4.d.printer == UnlinkData(job, s.h.sent[job.id].1) && t4.d.queue == s.d.queue[1..] && t4.h.finished == s.h.finished;
  }

  lemma FileThere(s: State, job: Entry)
    requires FilesOk(s) && JobsOk(s) && job in s.h.added && job.id !in s.h.gone
    ensures job.id in s.h.sent && s.h.sent[job.id].0 == job.req && job.id in s.d.data && s.d.data[job.id] == s.h.sent[job.id].1
  {
  }

  lemma FirstQueued(s: State)
    requires OrderOk(s) && s.d.printer.Look? && s.d.queue != []
    ensures s.d.queue[0] in s.h.added
  {
    hide Jobs;
    assert s.h.added[|Jobs(s.h.finished)|] == s.d.queue[0];
  }

  /** A job is given up only when its file cannot be opened, or when it has been printed before. */
  lemma CancelledOnlyIf(s: State, m: Move)
    requires Inv(s) && m.ByPrinter? && s.d.printer.Open? && PrinterStep(s, m).h.finished != s.h.finished
    ensures !m.ok || s.d.printer.job.id in s.h.gone
    ensures PrinterStep(s, m).h.finished == s.h.finished + [(s.d.printer.job, Cancelled)]
  {
    hide Inv;
    Parts(s);
    HandAdded(s);
    hide OrderOk, NumbersOk, JobFileOk, PlacedOk, WakeOk;
  }

  // ---- clients that fail leave nothing behind ----

  /** Every file is of an accepted job or of one a client thread is at work on. */
  ghost predicate Accounted(s: State) {
    && (forall id | id in s.d.data || id in s.d.reqs :: id in s.h.sent || InHand(s, id))
    && (forall c | 0 <= c < |s.d.clients| && s.d.clients[c].CreatData? :: s.d.clients[c].id !in s.d.data)
    && (forall c | 0 <= c < |s.d.clients| && s.d.clients[c].UndoData? :: s.d.clients[c].id !in s.d.reqs)
  }

  ghost predicate InHand(s: State, id: nat) {
    exists c :: 0 <= c < |s.d.clients| && Number(s.d.clients[c]) == Some(id)
  }

  lemma StaysInHand(s: State, m: Move, id: nat)
    requires InHand(s, id) && m.ByClient? && m.c < |s.d.clients|
    requires Number(s.d.clients[m.c]) == Some(id) ==> Number(ClientStep(s, m).d.clients[m.c]) == Some(id)
    ensures InHand(ClientStep(s, m), id)
  {
    hide Number, ClientNext, ClientData, ClientReqs;
    var s' := ClientStep(s, m);
    var e :| 0 <= e < |s.d.clients| && Number(s.d.clients[e]) == Some(id);
    assert e != m.c ==> s'.d.clients[e] == s.d.clients[e];
    assert Number(s'.d.clients[e]) == Some(id);
  }

  /** What a thread gives up its number with: nothing created, or an accepted job, or nothing left. */
  lemma GivesUp(s: State, m: Move)
    requires m.ByClient? && m.c < |s.d.clients| && ClientOk(s, s.d.clients[m.c])
    ensures |ClientStep(s, m).d.clients| == |s.d.clients|
    ensures
      var s', pc := ClientStep(s, m), s.d.clients[m.c];
      Number(pc).Some? && Number(s'.d.clients[m.c]) != Number(pc) ==>
        var id := Number(pc).value;
        || (pc.CreatData? && pc.id == id && (id in s'.d.data ==> id in s.d.data) && id !in s'.d.reqs)
        || id in s'.h.sent
        || (pc.UndoData? && pc.id == id && id !in s'.d.data && s'.d.reqs == s.d.reqs)
  {
  }

  lemma AccountedFiles(s: State, m: Move, id: nat)
    requires Inv(s) && Accounted(s) && m.ByClient? && m.c < |s.d.clients|
    requires id in ClientStep(s, m).d.data || id in ClientStep(s, m).d.reqs
    ensures id in ClientStep(s, m).h.sent || InHand(ClientStep(s, m), id)
  {
    hide Inv, Number, InHand, ClientStep, ClientOk, ClientNext, ClientData, ClientReqs;
    var s', pc := ClientStep(s, m), s.d.clients[m.c];
    ClientFine(s, m.c);
    SentKept(s, m);
    GivesUp(s, m);
    if Number(pc) == Some(id) {
      if Number(s'.d.clients[m.c]) == Number(pc) {
        OwnInHand(s', m.c, id);
      }
    } else {
      ClientSame(s, m, id);
      if id !in s.h.sent {
        StaysInHand(s, m, id);
      }
    }
  }

  lemma ClientFine(s: State, c: nat)
    requires Inv(s) && c < |s.d.clients|
    ensures ClientOk(s, s.d.clients[c])
  {
    hide OrderOk, NumbersOk, JobFileOk, FilesOk, JobsOk, PlacedOk, WakeOk, ClientOk;
  }

  lemma OwnInHand(s: State, c: nat, id: nat)
    requires c < |s.d.clients| && Number(s.d.clients[c]) == Some(id)
    ensures InHand(s, id)
  {
    hide Number;
  }

  /** A new number is the name of no file. */
  lemma NewName(s: State, c: nat)
    requires Inv(s) && Accounted(s) && c < |s.d.clients|
    ensures s.d.nextjob !in s.d.data && s.d.nextjob !in s.d.reqs
  {
    hide Inv, Number;
    Parts(s);
    hide OrderOk, JobFileOk, FilesOk, JobsOk, PlacedOk, WakeOk, Queued;
  }

  /** The step of a thread at its own place. */
  lemma OwnPlace(s: State, m: Move)
    requires m.ByClient? && m.c < |s.d.clients| && ClientOk(s, s.d.clients[m.c])
    requires s.d.clients[m.c].NewNumber? ==> s.d.nextjob !in s.d.data && s.d.nextjob !in s.d.reqs
    ensures
      var s', pc' := ClientStep(s, m), ClientStep(s, m).d.clients[m.c];
      (pc'.CreatData? ==> pc'.id !in s'.d.data) && (pc'.UndoData? ==> pc'.id !in s'.d.reqs)
  {
  }

  lemma AccountedByClient(s: State, m: Move)
    requires Inv(s) && Accounted(s) && Enabled(s, m) && m.ByClient?
    ensures Accounted(ClientStep(s, m))
  {
    hide Inv, Enabled, InHand, ClientOk, ClientNext, ClientData, ClientReqs;
    assert m.c < |s.d.clients| by {
      ClientThere(s, m);
    }
    var s' := ClientStep(s, m);
    forall id | id in s'.d.data || id in s'.d.reqs ensures id in s'.h.sent || InHand(s', id) {
      AccountedFiles(s, m, id);
    }
    ClientFine(s, m.c);
    NewName(s, m.c);
    OwnPlace(s, m);
    Parts(s);
    hide OrderOk, JobFileOk, FilesOk, JobsOk, PlacedOk, WakeOk, Queued, NumbersOk;
    forall c | 0 <= c < |s.d.clients| && c != m.c
      ensures s'.d.clients[c] == s.d.clients[c]
      ensures s.d.clients[c].CreatData? ==> s.d.clients[c].id !in s'.d.data
      ensures s.d.clients[c].UndoData? ==> s.d.clients[c].id !in s'.d.reqs
    {
      if Number(s.d.clients[c]).Some? {
        OwnNumber(s, m.c, c);
        ClientSame(s, m, Number(s.d.clients[c]).value);
      }
    }
  }

  lemma ClientThere(s: State, m: Move)
    requires Enabled(s, m) && m.ByClient?
    ensures m.c < |s.d.clients|
  {
  }

  /** The printer thread and the main thread only remove files, and leave the clients alone. */
  lemma AccountedByOthers(s: State, m: Move)
    requires Accounted(s) && (m.ByPrinter? || m.ByMain?)
    ensures Accounted(Next(s, m))
  {
    hide Number, PrinterNext, PrinterQueue;
    var s' := Next(s, m);
    assert s'.d.clients == s.d.clients && s'.h.sent == s.h.sent;
    forall id: nat | InHand(s, id) ensures InHand(s', id) {
      var e :| 0 <= e < |s.d.clients| && Number(s.d.clients[e]) == Some(id);
      assert Number(s'.d.clients[e]) == Some(id);
    }
  }

  ghost predicate NoCrash(moves: seq<Move>) {
    forall m <- moves :: !m.Crash?
  }

  lemma {:induction false} AccountedThroughout(s: State, moves: seq<Move>, s': State)
    requires Inv(s) && Accounted(s) && Leads(s, moves, s') && NoCrash(moves)
    ensures Accounted(s')
    decreases |moves|
  {
    hide Inv, Accounted, Next, Enabled, FreshStart;
    if moves != [] {
      assert moves[0] in moves;
      StepKeeps(s, moves[0]);
      if moves[0].ByClient? {
        ClientNextIs(s, moves[0]);
        AccountedByClient(s, moves[0]);
      } else {
        AccountedByOthers(s, moves[0]);
      }
      AccountedThroughout(Next(s, moves[0]), moves[1..], s');
    }
  }

  lemma ClientNextIs(s: State, m: Move)
    requires m.ByClient? && Enabled(s, m)
    ensures Next(s, m) == ClientStep(s, m)
  {
  }

  /**
   As long as the daemon does not crash, every file in the spool directory is of an accepted job or of one that a client
   thread is at work on: a connection that fails leaves nothing behind.
   */
  lemma FailedLeavesNothing(s: State, moves: seq<Move>, s': State, id: nat)
    requires Initial(s) && Leads(s, moves, s') && NoCrash(moves) && (id in s'.d.data || id in s'.d.reqs)
    ensures id in s'.h.sent || exists c :: 0 <= c < |s'.d.clients| && Number(s'.d.clients[c]) == Some(id)
  {
    hide Inv, Leads, Number;
    InitialOk(s);
    AccountedThroughout(s, moves, s');
  }
}
