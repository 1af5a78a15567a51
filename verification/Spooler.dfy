/**
 The print daemon: client threads that store jobs in the spool directory and queue them, the printer thread that takes
 them from the head of the queue, the main thread that queues what it finds at start-up, and crashes. Each system call
 and each critical section under joblock is a step.
 */
module Spooler {
  import opened Common
  import opened PrintQueue

  datatype Entry = Entry(id: nat, req: Req)

  /** What became of a job that left the queue for good. */
  datatype Outcome = Printed(data: seq<nat>) | Cancelled

  /** Where a client thread is; `got` is what it has received of the file so far. */
  datatype ClientPc =
    | Idle
    | NewNumber(req: Req) | CreatData(id: nat, req: Req) | Store(id: nat, req: Req, got: seq<nat>)
    | CreatReq(id: nat, req: Req, got: seq<nat>) | WriteReq(id: nat, req: Req, got: seq<nat>)
    | Reply(id: nat, req: Req) | Add(id: nat, req: Req) | Signal
    | UndoReq(id: nat) | UndoData(id: nat)

  datatype PrinterPc =
    | Look | Asleep | Update(job: Entry) | Open(job: Entry) | Send(job: Entry)
    | UnlinkData(job: Entry, sent: seq<nat>) | UnlinkReq(job: Entry, sent: seq<nat>) | Replace(job: Entry)

  datatype MainPc = Build(todo: seq<nat>) | BuildSignal(todo: seq<nat>) | Serve

  /** The queue and the threads; the next number; the job file, empty at first; and the spool directory. */
  datatype Daemon = Daemon(queue: seq<Entry>, printer: PrinterPc, main: MainPc, clients: seq<ClientPc>, nextjob: nat,
                           jobfile: Option<nat>, data: map<nat, seq<nat>>, reqs: map<nat, Option<Req>>)

  /**
   What the daemon has done: jobs added and finished since it started; and ever: what each accepted job consists of, and
   the jobs the printer has reported printed.
   */
  datatype History = History(added: seq<Entry>, finished: seq<(Entry, Outcome)>, sent: map<nat, (Req, seq<nat>)>, gone: set<nat>)

  datatype State = State(d: Daemon, h: History)

  /** Who moves, and what the step leaves open: success, the request, a piece of the file, the order of a directory. */
  datatype Move = ByClient(c: nat, ok: bool, more: bool, req: Req, piece: seq<nat>) | ByPrinter(ok: bool) | ByMain | Crash(order: seq<nat>)

  /** The request for a file that starts with `piece`: marked as plain text unless the file says it is PostScript. */
  function Flagged(req: Req, piece: seq<nat>): Req {
    if |piece| >= 4 && piece[..4] == ['%' as nat, '!' as nat, 'P' as nat, 'S' as nat] then req
    else req.(flags := if req.flags % 2 == 0 then req.flags + 1 else req.flags)
  }

  /** The printer thread wakes if it is waiting for the condition. */
  function Woken(p: PrinterPc): PrinterPc {
    if p.Asleep? then Look else p
  }

  // ---- client_thread() ----

  function ClientNext(d: Daemon, pc: ClientPc, m: Move): ClientPc
    requires m.ByClient?
  {
    match pc
    case Idle => NewNumber(m.req)
    case NewNumber(req) => CreatData(d.nextjob, req)
    case CreatData(id, req) => if m.ok then Store(id, req, []) else Idle
    case Store(id, req, got) => if !m.ok then UndoData(id) else if m.more then Store(id, if got == [] then Flagged(req, m.piece) else req, got + m.piece) else CreatReq(id, req, got)
    case CreatReq(id, req, got) => if m.ok then WriteReq(id, req, got) else UndoData(id)
    case WriteReq(id, req, got) => if m.ok then Reply(id, req) else UndoReq(id)
    case Reply(id, req) => Add(id, req)
    case Add(_, _) => Signal
    case Signal => Idle
    case UndoReq(id) => UndoData(id)
    case UndoData(_) => Idle
  }

  function ClientData(d: Daemon, pc: ClientPc, m: Move): map<nat, seq<nat>>
    requires m.ByClient?
  {
    match pc
    case CreatData(id, _) => if m.ok then d.data[id := []] else d.data
    case Store(id, _, got) => if m.ok && m.more && id in d.data then d.data[id := got + m.piece] else d.data
    case UndoData(id) => d.data - {id}
    case _ => d.data
  }

  function ClientReqs(d: Daemon, pc: ClientPc, m: Move): map<nat, Option<Req>>
    requires m.ByClient?
  {
    match pc
    case CreatReq(id, _, _) => if m.ok then d.reqs[id := None] else d.reqs
    case WriteReq(id, req, _) => if m.ok && id in d.reqs then d.reqs[id := Some(req)] else d.reqs
    case UndoReq(id) => d.reqs - {id}
    case _ => d.reqs
  }

  function ClientStep(s: State, m: Move): State
    requires m.ByClient? && m.c < |s.d.clients|
  {
    var pc := s.d.clients[m.c];
    var d := Daemon(if pc.Add? then s.d.queue + [Entry(pc.id, pc.req)] else s.d.queue,
                    if pc.Signal? then Woken(s.d.printer) else s.d.printer,
                    s.d.main, s.d.clients[m.c := ClientNext(s.d, pc, m)],
                    if pc.NewNumber? then s.d.nextjob + 1 else s.d.nextjob, s.d.jobfile,
                    ClientData(s.d, pc, m), ClientReqs(s.d, pc, m));
    var h := if pc.Add? then s.h.(added := s.h.added + [Entry(pc.id, pc.req)])
             else if pc.WriteReq? && m.ok then s.h.(sent := s.h.sent[pc.id := (pc.req, pc.got)], gone := s.h.gone - {pc.id})
             else s.h;
    State(d, h)
  }

  // ---- printer_thread() ----

  function PrinterNext(d: Daemon, m: Move): PrinterPc
    requires m.ByPrinter?
  {
    match d.printer
    case Look => if d.queue == [] then Asleep else Update(d.queue[0])
    case Asleep => Asleep
    case Update(j) => Open(j)
    case Open(j) => if m.ok && j.id in d.data then Send(j) else Look
    case Send(j) => if m.ok && j.id in d.data then UnlinkData(j, d.data[j.id]) else Replace(j)
    case UnlinkData(j, x) => UnlinkReq(j, x)
    case UnlinkReq(_, _) => Look
    case Replace(_) => Look
  }

  function PrinterQueue(d: Daemon): seq<Entry> {
    match d.printer
    case Look => if d.queue == [] then [] else d.queue[1..]
    case Replace(j) => [j] + d.queue
    case _ => d.queue
  }

  function PrinterHistory(s: State, m: Move): History
    requires m.ByPrinter?
  {
    match s.d.printer
    case Open(j) => if m.ok && j.id in s.d.data then s.h else s.h.(finished := s.h.finished + [(j, Cancelled)])
    case Send(j) => if m.ok && j.id in s.d.data then s.h.(gone := s.h.gone + {j.id}) else s.h
    case UnlinkReq(j, x) => s.h.(finished := s.h.finished + [(j, Printed(x))])
    case _ => s.h
  }

  function PrinterStep(s: State, m: Move): State
    requires m.ByPrinter?
  {
    State(s.d.(queue := PrinterQueue(s.d), printer := PrinterNext(s.d, m),
               jobfile := if s.d.printer.Update? then Some(s.d.nextjob) else s.d.jobfile,
               data := if s.d.printer.UnlinkData? then s.d.data - {s.d.printer.job.id} else s.d.data,
               reqs := if s.d.printer.UnlinkReq? then s.d.reqs - {s.d.printer.job.id} else s.d.reqs),
          PrinterHistory(s, m))
  }

  // ---- main(): build_qonstart(), then serving; and a crash with a new start ----

  function BuildStep(s: State): State
    requires s.d.main.Build? && s.d.main.todo != []
  {
    var id, rest := s.d.main.todo[0], s.d.main.todo[1..];
    if id !in s.d.reqs then State(s.d.(main := Build(rest)), s.h)
    else match s.d.reqs[id]
      case None => State(s.d.(main := Build(rest), reqs := s.d.reqs - {id}, data := s.d.data - {id}), s.h)
      case Some(req) =>
        State(s.d.(main := BuildSignal(rest), queue := s.d.queue + [Entry(id, req)]), s.h.(added := s.h.added + [Entry(id, req)]))
  }

  function MainStep(s: State): State {
    match s.d.main
    case Build(todo) => if todo == [] then State(s.d.(main := Serve), s.h) else BuildStep(s)
    case BuildSignal(todo) => State(s.d.(main := Build(todo), printer := Woken(s.d.printer)), s.h)
    case Serve => s
  }

  /** init_request(): the first number a daemon hands out is the one in the job file, or 1 when that is empty. */
  function FirstNumber(jobfile: Option<nat>): nat {
    if jobfile.None? then 1 else jobfile.value
  }

  /** The daemon dies and starts again with what is in the job file and in the directories. */
  function CrashStep(s: State, order: seq<nat>): State {
    State(Daemon([], Look, Build(order), seq(|s.d.clients|, _ => Idle), FirstNumber(s.d.jobfile), s.d.jobfile, s.d.data, s.d.reqs),
          History([], [], s.h.sent, s.h.gone))
  }

  ghost predicate Enabled(s: State, m: Move) {
    match m
    case ByClient(c, _, more, _, piece) => c < |s.d.clients| && (s.d.clients[c].Idle? ==> s.d.main.Serve?) && (more ==> piece != [])
    case ByPrinter(_) => !s.d.printer.Asleep?
    case ByMain => !s.d.main.Serve?
    case Crash(order) =>
      && (forall id: nat :: id in order <==> id in s.d.reqs)
      && (forall i, j :: 0 <= i < j < |order| ==> order[i] != order[j])
  }

  function Next(s: State, m: Move): State {
    match m
    case ByClient(c, _, _, _, _) => if c < |s.d.clients| then ClientStep(s, m) else s
    case ByPrinter(_) => PrinterStep(s, m)
    case ByMain => MainStep(s)
    case Crash(order) => CrashStep(s, order)
  }

  ghost predicate Initial(s: State) {
    && s.d.queue == [] && s.d.printer.Look? && s.d.main == Build([]) && s.d.data == map[] && s.d.reqs == map[]
    && s.d.jobfile.None? && s.d.nextjob == 1
    && (forall c :: 0 <= c < |s.d.clients| ==> s.d.clients[c].Idle?)
    && s.h == History([], [], map[], {})
  }
}
