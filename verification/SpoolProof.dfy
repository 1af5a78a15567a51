/** What holds in every state of the print daemon. */
module SpoolProof {
  import opened Common
  import opened PrintQueue
  import opened Spooler

  /** The job the printer thread has in hand. */
  function Hand(p: PrinterPc): seq<Entry> {
    if p.Look? || p.Asleep? then [] else [p.job]
  }

  function Jobs(s: seq<(Entry, Outcome)>): seq<Entry> {
    seq(|s|, i requires 0 <= i < |s| => s[i].0)
  }

  /** Jobs are finished in the order they were added: none overtakes, is lost or comes twice. */
  ghost predicate OrderOk(s: State) {
    Jobs(s.h.finished) + Hand(s.d.printer) + s.d.queue == s.h.added
  }

  /** The number a client's job has, until it is queued. */
  function Number(pc: ClientPc): Option<nat> {
    if pc.CreatData? || pc.Store? || pc.CreatReq? || pc.WriteReq? || pc.Reply? || pc.Add? || pc.UndoReq? || pc.UndoData?
    then Some(pc.id) else None
  }

  ghost predicate Queued(added: seq<Entry>, id: nat) {
    exists i :: 0 <= i < |added| && added[i].id == id
  }

  function Todo(m: MainPc): seq<nat> {
    if m.Serve? then [] else m.todo
  }

  ghost predicate Once(s: seq<nat>) {
    forall i, j :: 0 <= i < j < |s| ==> s[i] != s[j]
  }

  ghost predicate OnceEach(added: seq<Entry>) {
    forall i, j :: 0 <= i < j < |added| ==> added[i].id != added[j].id
  }

  /** No number is used twice. */
  ghost predicate NumbersOk(s: State) {
    && OnceEach(s.h.added) && Once(Todo(s.d.main))
    && (forall i | 0 <= i < |s.h.added| :: s.h.added[i].id < s.d.nextjob)
    && (forall id <- Todo(s.d.main) :: !Queued(s.h.added, id))
    && (forall c | 0 <= c < |s.d.clients| && !s.d.clients[c].Idle? :: s.d.main.Serve?)
    && (forall c | 0 <= c < |s.d.clients| && Number(s.d.clients[c]).Some? ::
          var id := Number(s.d.clients[c]).value;
          id < s.d.nextjob && !Queued(s.h.added, id) && s.d.main.Serve?)
    && (forall c, e | 0 <= c < |s.d.clients| && 0 <= e < |s.d.clients| && c != e && Number(s.d.clients[c]).Some? ::
          Number(s.d.clients[e]) != Number(s.d.clients[c]))
    && (forall id | id in s.d.reqs :: id < s.d.nextjob || id in Todo(s.d.main))
    && (forall id | id in s.h.sent :: id < s.d.nextjob)
  }

  /** The printer thread has a job in hand and has written the job file since it took it. */
  predicate PastUpdate(p: PrinterPc) {
    p.Open? || p.Send? || p.UnlinkData? || p.UnlinkReq? || p.Replace?
  }

  /** The job file is never ahead, and is past every job that was taken up or printed. */
  ghost predicate JobFileOk(s: State) {
    && FirstNumber(s.d.jobfile) <= s.d.nextjob
    && (forall id <- s.h.gone :: id < FirstNumber(s.d.jobfile))
    && (PastUpdate(s.d.printer) ==> s.d.printer.job.id < FirstNumber(s.d.jobfile))
  }

  /** An accepted job is on disk, whole, until the printer has reported it printed. */
  ghost predicate FilesOk(s: State) {
    && (forall id | id in s.h.sent && id !in s.h.gone :: id in s.d.data && id in s.d.reqs)
    && (forall id | id in s.h.sent && id in s.d.data :: s.d.data[id] == s.h.sent[id].1)
    && (forall id | id in s.d.reqs && s.d.reqs[id].Some? :: id in s.h.sent && s.h.sent[id].0 == s.d.reqs[id].value)
    && (forall id | id in s.d.reqs && id in s.h.sent :: s.d.reqs[id].Some?)
    && (forall id | id in s.h.gone :: id in s.h.sent)
  }

  ghost predicate ClientOk(s: State, pc: ClientPc) {
    match pc
    case CreatData(id, _) => id !in s.h.sent && id !in s.d.reqs
    case Store(id, _, got) => id !in s.h.sent && id in s.d.data && s.d.data[id] == got && id !in s.d.reqs
    case CreatReq(id, _, got) => id !in s.h.sent && id in s.d.data && s.d.data[id] == got && id !in s.d.reqs
    case WriteReq(id, _, got) => id !in s.h.sent && id in s.d.data && s.d.data[id] == got && id in s.d.reqs && s.d.reqs[id].None?
    case Reply(id, req) => id in s.h.sent && s.h.sent[id].0 == req
    case Add(id, req) => id in s.h.sent && s.h.sent[id].0 == req
    case UndoReq(id) => id !in s.h.sent
    case UndoData(id) => id !in s.h.sent
    case _ => true
  }

  /** Every job is one that a client sent; what was printed is what that client sent. */
  ghost predicate JobsOk(s: State) {
    && (forall i | 0 <= i < |s.h.added| :: s.h.added[i].id in s.h.sent && s.h.sent[s.h.added[i].id].0 == s.h.added[i].req)
    && (forall i | 0 <= i < |s.h.finished| && s.h.finished[i].1.Printed? ::
          s.h.finished[i].0.id in s.h.sent && s.h.sent[s.h.finished[i].0.id].1 == s.h.finished[i].1.data)
    && (s.d.printer.UnlinkData? || s.d.printer.UnlinkReq? ==>
          var j := s.d.printer.job;
          j.id in s.h.gone && j.id in s.h.sent && s.h.sent[j.id].1 == s.d.printer.sent)
    && (forall id <- Todo(s.d.main) :: id in s.d.reqs)
  }

  /** Where an accepted job is before it is queued. */
  ghost predicate OnItsWay(s: State, id: nat) {
    || id in Todo(s.d.main)
    || exists c :: 0 <= c < |s.d.clients| && (s.d.clients[c].Reply? || s.d.clients[c].Add?) && s.d.clients[c].id == id
  }

  /** No accepted job is forgotten. */
  ghost predicate PlacedOk(s: State) {
    forall id | id in s.h.sent && id !in s.h.gone :: Queued(s.h.added, id) || OnItsWay(s, id)
  }

  /** No wake-up is lost: while the printer thread sleeps with jobs to print, a signal is on its way. */
  ghost predicate WakeOk(s: State) {
    s.d.printer.Asleep? && s.d.queue != [] ==>
      s.d.main.BuildSignal? || exists c :: 0 <= c < |s.d.clients| && s.d.clients[c].Signal?
  }

  ghost predicate Inv(s: State) {
    && OrderOk(s) && NumbersOk(s) && JobFileOk(s) && FilesOk(s) && JobsOk(s) && PlacedOk(s) && WakeOk(s)
    && forall c | 0 <= c < |s.d.clients| :: ClientOk(s, s.d.clients[c])
  }

  // ---- steps of a client ----

  lemma ClientOrder(s: State, m: Move)
    requires m.ByClient? && m.c < |s.d.clients| && OrderOk(s) && WakeOk(s)
    ensures OrderOk(ClientStep(s, m)) && WakeOk(ClientStep(s, m))
  {
    hide ClientNext, ClientData, ClientReqs, Jobs;
    var s' := ClientStep(s, m);
    var pc := s.d.clients[m.c];
    AddSignals(s.d, pc, m);
    if s'.d.printer.Asleep? && s'.d.queue != [] {
      if !pc.Add? && !s.d.main.BuildSignal? {
        var c :| 0 <= c < |s.d.clients| && s.d.clients[c].Signal?;
        assert s'.d.clients[c] == s.d.clients[c];
      } else if pc.Add? {
        assert s'.d.clients[m.c].Signal?;
      }
    }
  }

  lemma AddSignals(d: Daemon, pc: ClientPc, m: Move)
    requires m.ByClient?
    ensures pc.Add? ==> ClientNext(d, pc, m).Signal?
  {
  }

  /** How a client's number moves with it. */
  lemma NumberMoves(d: Daemon, pc: ClientPc, m: Move)
    requires m.ByClient?
    ensures
      var pc' := ClientNext(d, pc, m);
      && (pc.NewNumber? ==> Number(pc) == None && Number(pc') == Some(d.nextjob))
      && (!pc.NewNumber? ==> Number(pc') == Number(pc) || Number(pc') == None)
      && (pc.Add? ==> Number(pc') == None)
    ensures forall id | id in ClientData(d, pc, m) && id !in d.data :: Number(pc) == Some(id)
    ensures forall id | id in ClientReqs(d, pc, m) && id !in d.reqs :: Number(pc) == Some(id)
    ensures forall id | Number(pc) != Some(id) ::
              && (id in ClientData(d, pc, m) <==> id in d.data) && (id in d.data ==> ClientData(d, pc, m)[id] == d.data[id])
              && (id in ClientReqs(d, pc, m) <==> id in d.reqs) && (id in d.reqs ==> ClientReqs(d, pc, m)[id] == d.reqs[id])
    ensures pc.Add? || pc.WriteReq? ==> Number(pc) == Some(pc.id)
  {
  }

  lemma QueuedMore(added: seq<Entry>, e: Entry, id: nat)
    ensures Queued(added + [e], id) <==> Queued(added, id) || id == e.id
  {
    var more := added + [e];
    if Queued(added, id) {
      var i :| 0 <= i < |added| && added[i].id == id;
      assert more[i].id == id;
    }
    if id == e.id {
      assert more[|added|].id == id;
    }
  }

  lemma ClientNumbers(s: State, m: Move)
    requires m.ByClient? && m.c < |s.d.clients| && NumbersOk(s) && (s.d.clients[m.c].Idle? ==> s.d.main.Serve?)
    ensures NumbersOk(ClientStep(s, m))
  {
    hide ClientNext, ClientData, ClientReqs, Number, Queued;
    var s', pc := ClientStep(s, m), s.d.clients[m.c];
    NumberMoves(s.d, pc, m);
    forall id: nat ensures Queued(s'.h.added, id) <==> Queued(s.h.added, id) || (pc.Add? && id == pc.id) {
      if pc.Add? {
        QueuedMore(s.h.added, Entry(pc.id, pc.req), id);
      }
    }
    NotQueued(s);
    if pc.Add? {
      OnceMore(s.h.added, Entry(pc.id, pc.req));
    }
  }

  lemma NotQueued(s: State)
    requires forall i | 0 <= i < |s.h.added| :: s.h.added[i].id < s.d.nextjob
    ensures !Queued(s.h.added, s.d.nextjob)
  {
  }

  lemma OnceMore(added: seq<Entry>, e: Entry)
    requires OnceEach(added) && !Queued(added, e.id)
    ensures OnceEach(added + [e])
  {
  }

  lemma ClientFiles(s: State, m: Move)
    requires m.ByClient? && m.c < |s.d.clients| && FilesOk(s) && ClientOk(s, s.d.clients[m.c])
    ensures FilesOk(ClientStep(s, m)) && ClientStep(s, m).h.gone == s.h.gone
  {
  }

  lemma ClientJobFile(s: State, m: Move)
    requires m.ByClient? && m.c < |s.d.clients| && JobFileOk(s) && ClientStep(s, m).h.gone == s.h.gone
    ensures JobFileOk(ClientStep(s, m))
  {
    hide FirstNumber, ClientNext, ClientData, ClientReqs;
  }

  /** What the step does to the files and records of any number but the client's own: nothing. */
  ghost predicate SameFor(s: State, s': State, id: nat) {
    && (id in s'.d.data <==> id in s.d.data) && (id in s.d.data ==> s'.d.data[id] == s.d.data[id])
    && (id in s'.d.reqs <==> id in s.d.reqs) && (id in s.d.reqs ==> s'.d.reqs[id] == s.d.reqs[id])
    && (id in s'.h.sent <==> id in s.h.sent) && (id in s.h.sent ==> s'.h.sent[id] == s.h.sent[id])
  }

  lemma ClientSame(s: State, m: Move, id: nat)
    requires m.ByClient? && m.c < |s.d.clients| && Number(s.d.clients[m.c]) != Some(id)
    ensures SameFor(s, ClientStep(s, m), id)
  {
  }

  lemma ClientStays(s: State, s': State, pc: ClientPc)
    requires ClientOk(s, pc) && (Number(pc).Some? ==> SameFor(s, s', Number(pc).value))
    ensures ClientOk(s', pc)
  {
  }

  lemma ClientOwn(s: State, m: Move)
    requires m.ByClient? && m.c < |s.d.clients| && NumbersOk(s) && ClientOk(s, s.d.clients[m.c])
    ensures ClientOk(ClientStep(s, m), ClientStep(s, m).d.clients[m.c])
  {
    if s.d.clients[m.c].NewNumber? {
      Beyond(s, m.c);
    }
    hide NumbersOk;
  }

  lemma Beyond(s: State, c: nat)
    requires NumbersOk(s) && c < |s.d.clients| && !s.d.clients[c].Idle?
    ensures s.d.nextjob !in s.d.reqs && s.d.nextjob !in s.h.sent
  {
    hide Queued, Number;
  }

  lemma ClientJobs(s: State, m: Move)
    requires m.ByClient? && m.c < |s.d.clients| && JobsOk(s) && NumbersOk(s) && ClientOk(s, s.d.clients[m.c])
    ensures JobsOk(ClientStep(s, m))
  {
    hide ClientNext, ClientData;
    var pc, s' := s.d.clients[m.c], ClientStep(s, m);
    SentKept(s, m);
    forall id <- Todo(s'.d.main) ensures id in s'.d.reqs {
      assert id in Todo(s.d.main);
    }
  }

  /** What a job consists of never changes once it is accepted. */
  lemma SentKept(s: State, m: Move)
    requires m.ByClient? && m.c < |s.d.clients| && ClientOk(s, s.d.clients[m.c])
    ensures forall id | id in s.h.sent :: id in ClientStep(s, m).h.sent && ClientStep(s, m).h.sent[id] == s.h.sent[id]
  {
    hide ClientNext, ClientData, ClientReqs;
  }

  lemma ClientPlaced(s: State, m: Move)
    requires m.ByClient? && m.c < |s.d.clients| && PlacedOk(s) && ClientStep(s, m).h.gone == s.h.gone
    ensures PlacedOk(ClientStep(s, m))
  {
    hide ClientData, ClientReqs, Queued;
    var pc, s' := s.d.clients[m.c], ClientStep(s, m);
    forall id | id in s'.h.sent && id !in s'.h.gone ensures Queued(s'.h.added, id) || OnItsWay(s', id) {
      if pc.Add? {
        QueuedMore(s.h.added, Entry(pc.id, pc.req), id);
      }
      if id in s.h.sent && !Queued(s.h.added, id) && id !in Todo(s.d.main) {
        var c :| 0 <= c < |s.d.clients| && (s.d.clients[c].Reply? || s.d.clients[c].Add?) && s.d.clients[c].id == id;
        assert c != m.c ==> s'.d.clients[c] == s.d.clients[c];
        assert c == m.c && pc.Reply? ==> s'.d.clients[m.c].Add? && s'.d.clients[m.c].id == id;
      } else if id !in s.h.sent {
        assert s'.d.clients[m.c].Reply? && s'.d.clients[m.c].id == id;
      }
    }
  }

  lemma ClientKeeps(s: State, m: Move)
    requires Inv(s) && m.ByClient? && m.c < |s.d.clients| && (s.d.clients[m.c].Idle? ==> s.d.main.Serve?)
    ensures Inv(ClientStep(s, m))
  {
    hide OrderOk, NumbersOk, JobFileOk, FilesOk, JobsOk, PlacedOk, WakeOk, ClientOk, ClientNext, ClientData, ClientReqs, Number, SameFor;
    var s' := ClientStep(s, m);
    ClientOrder(s, m);
    ClientNumbers(s, m);
    ClientFiles(s, m);
    ClientJobFile(s, m);
    ClientJobs(s, m);
    ClientPlaced(s, m);
    ClientOwn(s, m);
    forall c | 0 <= c < |s'.d.clients| ensures ClientOk(s', s'.d.clients[c]) {
      if c != m.c {
        if Number(s.d.clients[c]).Some? {
          OwnNumber(s, m.c, c);
          ClientSame(s, m, Number(s.d.clients[c]).value);
        }
        ClientStays(s, s', s.d.clients[c]);
      }
    }
  }

  lemma OwnNumber(s: State, c: nat, e: nat)
    requires NumbersOk(s) && c < |s.d.clients| && e < |s.d.clients| && c != e && Number(s.d.clients[e]).Some?
    ensures Number(s.d.clients[c]) != Number(s.d.clients[e])
  {
    hide Queued, Number;
  }

  // ---- steps of the printer thread ----

  lemma PrinterOrder(s: State, m: Move)
    requires m.ByPrinter? && OrderOk(s)
    ensures OrderOk(PrinterStep(s, m)) && PrinterStep(s, m).h.added == s.h.added
  {
    HandMoves(s, m);
    hide Jobs, Hand, PrinterNext, PrinterQueue;
    var s' := PrinterStep(s, m);
    JobsMore(s.h.finished, s'.h.finished);
    var f, f' := Jobs(s.h.finished), Jobs(s'.h.finished);
    Joined(f, Hand(s.d.printer), s.d.queue);
    Joined(f', Hand(s'.d.printer), s'.d.queue);
  }

  /** A job passes from the queue to the hand or back, or from the hand to the finished ones. */
  lemma HandMoves(s: State, m: Move)
    requires m.ByPrinter?
    ensures
      var s' := PrinterStep(s, m);
      if s'.h.finished == s.h.finished then Hand(s'.d.printer) + s'.d.queue == Hand(s.d.printer) + s.d.queue
      else
        && |s'.h.finished| == |s.h.finished| + 1 && s'.h.finished[..|s.h.finished|] == s.h.finished
        && Hand(s.d.printer) == [s'.h.finished[|s.h.finished|].0] && Hand(s'.d.printer) == [] && s'.d.queue == s.d.queue
  {
  }

  lemma Joined(f: seq<Entry>, h: seq<Entry>, q: seq<Entry>)
    ensures f + h + q == f + (h + q) && (h == [] ==> f + h == f)
  {
  }

  lemma JobsMore(a: seq<(Entry, Outcome)>, b: seq<(Entry, Outcome)>)
    ensures b == a ==> Jobs(b) == Jobs(a)
    ensures |b| == |a| + 1 && b[..|a|] == a ==> Jobs(b) == Jobs(a) + [b[|a|].0]
  {
    if |b| == |a| + 1 && b[..|a|] == a {
      assert forall i :: 0 <= i < |a| ==> b[i] == a[i];
    }
  }

  lemma PrinterWake(s: State, m: Move)
    requires m.ByPrinter? && WakeOk(s) && !s.d.printer.Asleep?
    ensures WakeOk(PrinterStep(s, m))
  {
  }

  /** The printer thread removes files of a job whose printing was reported, and no others. */
  lemma PrinterSame(s: State, m: Move, id: nat)
    requires m.ByPrinter? && (s.d.printer.UnlinkData? || s.d.printer.UnlinkReq? ==> s.d.printer.job.id != id)
    ensures SameFor(s, PrinterStep(s, m), id)
  {
    hide PrinterNext, PrinterQueue;
  }

  lemma PrinterFiles(s: State, m: Move)
    requires m.ByPrinter? && FilesOk(s) && JobsOk(s) && OrderOk(s)
    ensures FilesOk(PrinterStep(s, m))
  {
    hide PrinterNext, PrinterQueue, OrderOk;
    if s.d.printer.Send? {
      HandAdded(s);
    }
  }

  lemma HandAdded(s: State)
    requires OrderOk(s)
    ensures !s.d.printer.Look? && !s.d.printer.Asleep? ==> s.d.printer.job in s.h.added && Queued(s.h.added, s.d.printer.job.id)
  {
    hide Jobs;
    if !s.d.printer.Look? && !s.d.printer.Asleep? {
      var f := Jobs(s.h.finished);
      assert s.h.added[|f|] == s.d.printer.job;
    }
  }

  lemma PrinterJobs(s: State, m: Move)
    requires m.ByPrinter? && JobsOk(s) && FilesOk(s) && OrderOk(s) && NumbersOk(s)
    ensures JobsOk(PrinterStep(s, m))
  {
    hide PrinterQueue, OrderOk, Number, Queued, OnceEach, Once;
    HandAdded(s);
    var s' := PrinterStep(s, m);
    if s.d.printer.Send? {
      var j := s.d.printer.job;
      assert j.id in s.h.sent;
    }
    forall id <- Todo(s'.d.main) ensures id in s'.d.reqs {
      assert id in Todo(s.d.main);
    }
  }

  lemma PrinterNumbers(s: State, m: Move)
    requires m.ByPrinter? && NumbersOk(s)
    ensures NumbersOk(PrinterStep(s, m))
  {
    hide PrinterNext, PrinterQueue, Queued, Number, OnceEach, Once;
  }

  lemma PrinterJobFile(s: State, m: Move)
    requires m.ByPrinter? && JobFileOk(s) && NumbersOk(s)
    requires s.d.printer.Update? ==> s.d.printer.job in s.h.added
    ensures JobFileOk(PrinterStep(s, m))
  {
    hide PrinterQueue, Queued, Number, OnceEach, Once;
  }

  lemma PrinterPlaced(s: State, m: Move)
    requires m.ByPrinter? && PlacedOk(s)
    ensures PlacedOk(PrinterStep(s, m))
  {
    hide PrinterNext, PrinterQueue, Queued;
    var s' := PrinterStep(s, m);
    forall id | OnItsWay(s, id) ensures OnItsWay(s', id) {
      if id !in Todo(s.d.main) {
        var c :| 0 <= c < |s.d.clients| && (s.d.clients[c].Reply? || s.d.clients[c].Add?) && s.d.clients[c].id == id;
        assert s'.d.clients[c] == s.d.clients[c];
      }
    }
  }

  lemma PrinterKeeps(s: State, m: Move)
    requires Inv(s) && m.ByPrinter? && !s.d.printer.Asleep?
    ensures Inv(PrinterStep(s, m))
  {
    hide OrderOk, NumbersOk, JobFileOk, FilesOk, JobsOk, PlacedOk, WakeOk, ClientOk, PrinterNext, PrinterQueue, PrinterHistory, SameFor, Number, Queued;
    var s' := PrinterStep(s, m);
    PrinterOrder(s, m);
    PrinterWake(s, m);
    PrinterFiles(s, m);
    PrinterJobs(s, m);
    PrinterNumbers(s, m);
    PrinterPlaced(s, m);
    HandAdded(s);
    PrinterJobFile(s, m);
    forall c | 0 <= c < |s'.d.clients| ensures ClientOk(s', s'.d.clients[c]) {
      if Number(s.d.clients[c]).Some? {
        NotQueuedYet(s, c);
        PrinterSame(s, m, Number(s.d.clients[c]).value);
      }
      ClientStays(s, s', s.d.clients[c]);
    }
  }

  lemma NotQueuedYet(s: State, c: nat)
    requires NumbersOk(s) && c < |s.d.clients| && Number(s.d.clients[c]).Some?
    ensures !Queued(s.h.added, Number(s.d.clients[c]).value) && s.d.main.Serve?
  {
    hide Queued, Number;
  }

  // ---- steps of the main thread ----

  lemma BuildNumbers(s: State)
    requires NumbersOk(s) && FilesOk(s) && s.d.main.Build? && s.d.main.todo != []
    ensures NumbersOk(BuildStep(s))
  {
    hide Number, Queued;
    var s', todo := BuildStep(s), s.d.main.todo;
    assert todo[0] in Todo(s.d.main) && forall id <- todo[1..] :: id in Todo(s.d.main);
    assert forall id <- todo :: id == todo[0] || id in todo[1..];
    if s'.h.added != s.h.added {
      var e := s'.h.added[|s.h.added|];
      OnceMore(s.h.added, e);
      forall id: nat ensures Queued(s'.h.added, id) <==> Queued(s.h.added, id) || id == e.id {
        QueuedMore(s.h.added, e, id);
      }
    }
  }

  lemma BuildJobs(s: State)
    requires JobsOk(s) && FilesOk(s) && NumbersOk(s) && s.d.main.Build? && s.d.main.todo != []
    ensures JobsOk(BuildStep(s))
  {
    hide Number, Queued, OnceEach;
    var todo := s.d.main.todo;
    assert todo[0] in Todo(s.d.main) && forall id <- todo[1..] :: id in Todo(s.d.main) && id != todo[0];
  }

  lemma BuildFiles(s: State)
    requires FilesOk(s) && s.d.main.Build? && s.d.main.todo != []
    ensures FilesOk(BuildStep(s))
  {
  }

  lemma BuildJobFile(s: State)
    requires JobFileOk(s) && s.d.main.Build? && s.d.main.todo != []
    ensures JobFileOk(BuildStep(s))
  {
    hide FirstNumber;
  }

  lemma BuildPlaced(s: State)
    requires PlacedOk(s) && FilesOk(s) && s.d.main.Build? && s.d.main.todo != []
    ensures PlacedOk(BuildStep(s))
  {
    hide Queued;
    var s', todo := BuildStep(s), s.d.main.todo;
    assert forall id <- todo :: id == todo[0] || id in todo[1..];
    forall id | id in s'.h.sent && id !in s'.h.gone ensures Queued(s'.h.added, id) || OnItsWay(s', id) {
      if s'.h.added != s.h.added {
        QueuedMore(s.h.added, s'.h.added[|s.h.added|], id);
      }
      if OnItsWay(s, id) && id !in todo {
        var c :| 0 <= c < |s.d.clients| && (s.d.clients[c].Reply? || s.d.clients[c].Add?) && s.d.clients[c].id == id;
        assert s'.d.clients[c] == s.d.clients[c];
      }
    }
  }

  lemma BuildClients(s: State, c: nat)
    requires NumbersOk(s) && c < |s.d.clients| && ClientOk(s, s.d.clients[c]) && s.d.main.Build? && s.d.main.todo != []
    ensures ClientOk(BuildStep(s), s.d.clients[c])
  {
    hide NumbersOk, ClientOk, Number;
    if Number(s.d.clients[c]).Some? {
      NotQueuedYet(s, c);
    }
    ClientStays(s, BuildStep(s), s.d.clients[c]);
  }

  lemma BuildOrder(s: State)
    requires OrderOk(s) && WakeOk(s) && s.d.main.Build? && s.d.main.todo != []
    ensures OrderOk(BuildStep(s)) && WakeOk(BuildStep(s))
  {
    hide Jobs;
    var s' := BuildStep(s);
    if s'.d.printer.Asleep? && s'.d.queue != [] && !s'.d.main.BuildSignal? {
      var c :| 0 <= c < |s.d.clients| && s.d.clients[c].Signal?;
      assert s'.d.clients[c] == s.d.clients[c];
    }
  }

  lemma BuildKeeps(s: State)
    requires Inv(s) && s.d.main.Build? && s.d.main.todo != []
    ensures Inv(BuildStep(s))
  {
    hide OrderOk, NumbersOk, JobFileOk, FilesOk, JobsOk, PlacedOk, WakeOk, ClientOk;
    BuildOrder(s);
    BuildNumbers(s);
    BuildJobs(s);
    BuildFiles(s);
    BuildPlaced(s);
    BuildJobFile(s);
    var s' := BuildStep(s);
    forall c | 0 <= c < |s'.d.clients| ensures ClientOk(s', s'.d.clients[c]) {
      BuildClients(s, c);
    }
  }

  lemma SignalPlaced(s: State, s': State)
    requires PlacedOk(s) && s'.h == s.h && s'.d.clients == s.d.clients && Todo(s'.d.main) == Todo(s.d.main)
    ensures PlacedOk(s')
  {
    hide Queued;
    forall id | OnItsWay(s, id) ensures OnItsWay(s', id) {
      if id !in Todo(s.d.main) {
        var c :| 0 <= c < |s.d.clients| && (s.d.clients[c].Reply? || s.d.clients[c].Add?) && s.d.clients[c].id == id;
        assert s'.d.clients[c].id == id;
      }
    }
  }

  lemma TurnOrder(s: State)
    requires OrderOk(s) && WakeOk(s) && (s.d.main.BuildSignal? || s.d.main == Build([]))
    ensures OrderOk(MainStep(s)) && WakeOk(MainStep(s))
  {
    hide Jobs;
    var s' := MainStep(s);
    if s'.d.printer.Asleep? && s'.d.queue != [] {
      var c :| 0 <= c < |s.d.clients| && s.d.clients[c].Signal?;
      assert s'.d.clients[c].Signal?;
    }
  }

  lemma TurnNumbers(s: State)
    requires NumbersOk(s) && JobFileOk(s) && FilesOk(s) && JobsOk(s) && (s.d.main.BuildSignal? || s.d.main == Build([]))
    ensures NumbersOk(MainStep(s)) && JobFileOk(MainStep(s)) && FilesOk(MainStep(s)) && JobsOk(MainStep(s))
  {
    hide Queued, Number, OnceEach, FirstNumber;
  }

  /** The main thread signals, or has queued everything and starts serving. */
  lemma TurnKeeps(s: State)
    requires Inv(s) && (s.d.main.BuildSignal? || s.d.main == Build([]))
    ensures Inv(MainStep(s))
  {
    hide OrderOk, WakeOk, NumbersOk, JobFileOk, FilesOk, JobsOk, Number, PlacedOk, ClientOk;
    var s' := MainStep(s);
    TurnOrder(s);
    TurnNumbers(s);
    SignalPlaced(s, s');
    forall c | 0 <= c < |s'.d.clients| ensures ClientOk(s', s'.d.clients[c]) {
      ClientStays(s, s', s.d.clients[c]);
    }
  }

  // ---- crash and restart ----

  /** The number a restart would begin with is above every accepted job that is still to be printed. */
  ghost predicate FreshStart(s: State) {
    forall id | id in s.h.sent && id !in s.h.gone :: id < FirstNumber(s.d.jobfile)
  }

  /** That can be seen on disk: the number is above those of all complete request files. */
  lemma FreshOnDisk(s: State)
    requires FilesOk(s) && JobFileOk(s)
    ensures FreshStart(s) <==> forall id | id in s.d.reqs && s.d.reqs[id].Some? :: id < FirstNumber(s.d.jobfile)
  {
    hide FirstNumber;
  }

  lemma CrashKeeps(s: State, order: seq<nat>)
    requires Inv(s) && Enabled(s, Crash(order)) && FreshStart(s)
    ensures Inv(CrashStep(s, order))
  {
    hide OrderOk, NumbersOk, Queued, WakeOk, ClientOk, FirstNumber;
    var s' := CrashStep(s, order);
    Fresh(s');
    forall id | id in s'.h.sent && id !in s'.h.gone ensures OnItsWay(s', id) {
      assert id in order;
    }
  }

  /** The parts that speak of the threads and the queue, right after a start. */
  lemma Fresh(s: State)
    requires s.d.queue == [] && s.d.printer.Look? && s.d.main.Build? && s.h.added == [] && s.h.finished == []
    requires forall c :: 0 <= c < |s.d.clients| ==> s.d.clients[c].Idle?
    requires Once(s.d.main.todo) && (forall id: nat :: id in s.d.main.todo <==> id in s.d.reqs)
    requires forall id | id in s.h.sent :: id < s.d.nextjob
    ensures OrderOk(s) && NumbersOk(s) && WakeOk(s) && forall c | 0 <= c < |s.d.clients| :: ClientOk(s, s.d.clients[c])
  {
    hide NumbersOk, WakeOk, ClientOk;
    FreshNumbers(s);
    FreshThreads(s);
  }

  lemma FreshNumbers(s: State)
    requires s.d.printer.Look? && s.d.main.Build? && s.d.queue == [] && s.h.added == [] && s.h.finished == []
    requires forall c :: 0 <= c < |s.d.clients| ==> s.d.clients[c].Idle?
    requires Once(s.d.main.todo) && (forall id: nat :: id in s.d.main.todo <==> id in s.d.reqs)
    requires forall id | id in s.h.sent :: id < s.d.nextjob
    ensures NumbersOk(s)
  {
  }

  lemma FreshThreads(s: State)
    requires s.d.queue == [] && s.d.printer.Look?
    requires forall c :: 0 <= c < |s.d.clients| ==> s.d.clients[c].Idle?
    ensures WakeOk(s) && forall c | 0 <= c < |s.d.clients| :: ClientOk(s, s.d.clients[c])
  {
  }

  // ---- all steps ----

  lemma StepKeeps(s: State, m: Move)
    requires Inv(s) && Enabled(s, m) && (m.Crash? ==> FreshStart(s))
    ensures Inv(Next(s, m))
  {
    hide Inv, ClientStep, PrinterStep, BuildStep, CrashStep;
    match m
    case ByClient(_, _, _, _, _) => ClientKeeps(s, m);
    case ByPrinter(_) => PrinterKeeps(s, m);
    case ByMain =>
      if s.d.main.Build? && s.d.main.todo != [] {
        BuildKeeps(s);
      } else {
        TurnKeeps(s);
      }
    case Crash(order) => CrashKeeps(s, order);
  }

  /** Order and wake-ups survive every restart, whatever number it begins with. */
  lemma TurnsKept(s: State, m: Move)
    requires OrderOk(s) && WakeOk(s) && Enabled(s, m)
    ensures OrderOk(Next(s, m)) && WakeOk(Next(s, m))
  {
    hide OrderOk, WakeOk, ClientStep, PrinterStep, BuildStep, CrashStep;
    match m
    case ByClient(_, _, _, _, _) => ClientOrder(s, m);
    case ByPrinter(_) =>
      PrinterOrder(s, m);
      PrinterWake(s, m);
    case ByMain =>
      if s.d.main.Build? && s.d.main.todo != [] {
        BuildOrder(s);
      } else {
        TurnOrder(s);
      }
    case Crash(order) => CrashOrder(s, order);
  }

  lemma CrashOrder(s: State, order: seq<nat>)
    ensures OrderOk(CrashStep(s, order)) && WakeOk(CrashStep(s, order))
  {
  }

  lemma InitialOk(s: State)
    requires Initial(s)
    ensures Inv(s)
  {
    Fresh(s);
    hide OrderOk, NumbersOk, WakeOk, ClientOk;
  }
}
