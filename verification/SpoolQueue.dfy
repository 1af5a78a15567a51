/** The daemon's queue is the linked list: each step that changes it is the call of the list that the program makes there. */
module SpoolQueue {
  import opened PrintQueue
  import opened Spooler

  predicate Stands(jp: Job, e: Entry) {
    jp.jobid == e.id && jp.req == e.req
  }

  /** The list holds the jobs of the queue, in order. */
  ghost predicate Lists(q: seq<Job>, queue: seq<Entry>) {
    |q| == |queue| && forall i :: 0 <= i < |q| ==> Stands(q[i], queue[i])
  }

  /** client_thread() adding its job. */
  method ClientAdds(jobs: JobList, s: State, m: Move)
    requires jobs.Valid() && Lists(jobs.q, s.d.queue)
    requires m.ByClient? && m.c < |s.d.clients| && s.d.clients[m.c].Add?
    modifies jobs, jobs.jobtail
    ensures jobs.Valid() && Lists(jobs.q, ClientStep(s, m).d.queue)
  {
    jobs.AddJob(s.d.clients[m.c].req, s.d.clients[m.c].id);
  }

  /** build_qonstart() adding a job it has found. */
  method BuildAdds(jobs: JobList, s: State)
    requires jobs.Valid() && Lists(jobs.q, s.d.queue)
    requires s.d.main.Build? && s.d.main.todo != [] && s.d.main.todo[0] in s.d.reqs && s.d.reqs[s.d.main.todo[0]].Some?
    modifies jobs, jobs.jobtail
    ensures jobs.Valid() && Lists(jobs.q, BuildStep(s).d.queue)
  {
    jobs.AddJob(s.d.reqs[s.d.main.todo[0]].value, s.d.main.todo[0]);
  }

  /** printer_thread() picking up the first job. */
  method PrinterTakes(jobs: JobList, s: State, m: Move) returns (jp: Job)
    requires jobs.Valid() && Lists(jobs.q, s.d.queue) && m.ByPrinter? && s.d.printer.Look? && jobs.q != []
    modifies jobs, jobs.q
    ensures jobs.Valid() && Lists(jobs.q, PrinterStep(s, m).d.queue) && jp !in jobs.q
    ensures PrinterStep(s, m).d.printer.Update? && Stands(jp, PrinterStep(s, m).d.printer.job)
  {
    hide jobs.Valid, Lists, Stands;
    jp := jobs.TakeJob();
    FirstStands(jp, jobs.q, s.d.queue);
    assert PrinterStep(s, m).d.queue == s.d.queue[1..] && PrinterStep(s, m).d.printer == Update(s.d.queue[0]);
  }

  lemma FirstStands(jp: Job, rest: seq<Job>, queue: seq<Entry>)
    requires Lists([jp] + rest, queue)
    ensures |queue| > 0 && Stands(jp, queue[0]) && Lists(rest, queue[1..])
  {
    var q := [jp] + rest;
    assert forall i :: 0 <= i < |rest| ==> rest[i] == q[i + 1];
  }

  /** printer_thread() putting a deferred job back. */
  method PrinterPutsBack(jobs: JobList, jp: Job, s: State, m: Move)
    requires jobs.Valid() && Lists(jobs.q, s.d.queue) && jp !in jobs.q
    requires m.ByPrinter? && s.d.printer.Replace? && Stands(jp, s.d.printer.job)
    modifies jobs, jobs.jobhead, jp
    ensures jobs.Valid() && Lists(jobs.q, PrinterStep(s, m).d.queue)
  {
    jobs.ReplaceJob(jp);
  }
}
