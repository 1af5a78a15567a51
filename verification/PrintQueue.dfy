/** The print daemon's list of pending jobs: doubly linked, added to at the tail, taken from and put back at the head. */
module PrintQueue {
  import opened Common

  /** A print request, as far as the queue cares. */
  datatype Req = Req(size: nat, flags: nat, usernm: string, jobnm: string)

  class Job {
    var next: Job?
    var prev: Job?
    const jobid: int
    const req: Req

    constructor (req: Req, jobid: int)
      ensures this.req == req && this.jobid == jobid
    {
      this.req, this.jobid := req, jobid;
      next, prev := null, null;
    }
  }

  const INT32_MAX := 0x7fff_ffff

  /** The job at place i of the list, NULL beyond both ends. */
  function At(q: seq<Job>, i: int): Job? {
    if 0 <= i < |q| then q[i] else null
  }

  /** Every job points to its neighbours. */
  ghost predicate Linked(q: seq<Job>)
    reads q
  {
    forall i :: 0 <= i < |q| ==> q[i].next == At(q, i + 1) && q[i].prev == At(q, i - 1)
  }

  function Cut(q: seq<Job>, k: nat): seq<Job>
    requires k < |q|
  {
    q[..k] + q[k + 1..]
  }

  lemma CutAt(q: seq<Job>, k: nat, i: int)
    requires k < |q|
    ensures At(Cut(q, k), i) == if i < k then At(q, i) else At(q, i + 1)
  {
  }

  lemma CutSize(q: seq<Job>, k: nat)
    requires k < |q|
    ensures |Cut(q, k)| == |q| - 1
    ensures forall i :: 0 <= i < |q| - 1 ==> Cut(q, k)[i] == q[if i < k then i else i + 1]
  {
  }

  lemma CutDistinct(q: seq<Job>, k: nat)
    requires k < |q| && Distinct(q)
    ensures Distinct(Cut(q, k)) && q[k] !in Cut(q, k) && |Cut(q, k)| == |q| - 1 && forall j <- Cut(q, k) :: j in q
  {
  }

  /** Job k is out of the list once the job before points past it and the job after points back past it. */
  lemma CutLinked(q: seq<Job>, k: nat)
    requires k < |q|
    requires forall i :: 0 <= i < |q| && i != k ==> q[i].next == At(q, if i == k - 1 then k + 1 else i + 1)
    requires forall i :: 0 <= i < |q| && i != k ==> q[i].prev == At(q, if i == k + 1 then k - 1 else i - 1)
    ensures Linked(Cut(q, k))
  {
    hide At, Cut;
    var c := Cut(q, k);
    CutSize(q, k);
    forall i | 0 <= i < |c| ensures c[i].next == At(c, i + 1) && c[i].prev == At(c, i - 1) {
      CutAt(q, k, i + 1);
      CutAt(q, k, i - 1);
      var j := if i < k then i else i + 1;
      assert c[i] == q[j];
    }
  }

  /** A job put in front of the list. */
  lemma PushLinked(q: seq<Job>, jp: Job)
    requires jp.prev == null && jp.next == At(q, 0)
    requires forall i :: 0 <= i < |q| ==> q[i].next == At(q, i + 1) && q[i].prev == if i == 0 then jp else At(q, i - 1)
    ensures Linked([jp] + q) && At([jp] + q, 0) == jp && At([jp] + q, |q|) == if q == [] then jp else At(q, |q| - 1)
  {
    var c := [jp] + q;
    forall i | 0 <= i < |c| ensures c[i].next == At(c, i + 1) && c[i].prev == At(c, i - 1) {
      assert i > 0 ==> c[i] == q[i - 1];
    }
  }

  /** A job put at the end of the list. */
  lemma AppendLinked(q: seq<Job>, jp: Job)
    requires jp.next == null && jp.prev == At(q, |q| - 1)
    requires forall i :: 0 <= i < |q| ==> q[i].prev == At(q, i - 1) && q[i].next == if i == |q| - 1 then jp else At(q, i + 1)
    ensures Linked(q + [jp]) && At(q + [jp], |q|) == jp && At(q + [jp], 0) == if q == [] then jp else At(q, 0)
  {
    var c := q + [jp];
    forall i | 0 <= i < |c| ensures c[i].next == At(c, i + 1) && c[i].prev == At(c, i - 1) {
      assert i < |q| ==> c[i] == q[i];
    }
  }

  lemma PushDistinct(q: seq<Job>, jp: Job)
    requires Distinct(q) && jp !in q
    ensures Distinct([jp] + q) && Distinct(q + [jp])
  {
  }

  lemma Neighbours(q: seq<Job>, k: nat)
    requires Linked(q) && Distinct(q) && k < |q|
    ensures q[k].next == At(q, k + 1) && q[k].prev == At(q, k - 1)
    ensures forall i :: 0 <= i < |q| ==> q[i].next == At(q, i + 1) && q[i].prev == At(q, i - 1)
    ensures At(q, k + 1) == if k + 1 < |q| then q[k + 1] else null
    ensures At(q, k - 1) == if k > 0 then q[k - 1] else null
    ensures forall i :: 0 <= i < |q| && i != k ==> q[i] != q[k]
    ensures k > 0 ==> forall i :: 0 <= i < |q| && i != k - 1 ==> q[i] != q[k - 1]
    ensures k + 1 < |q| ==> forall i :: 0 <= i < |q| && i != k + 1 ==> q[i] != q[k + 1]
  {
  }

  lemma Ends(q: seq<Job>)
    ensures At(q, 0) == (if q == [] then null else q[0]) && At(q, |q| - 1) == if q == [] then null else q[|q| - 1]
  {
  }

  class JobList {
    var jobhead: Job?
    var jobtail: Job?
    var nextjob: int
    /** The list from head to tail. */
    ghost var q: seq<Job>

    ghost predicate Valid()
      reads this, q
    {
      Distinct(q) && Linked(q) && jobhead == At(q, 0) && jobtail == At(q, |q| - 1)
    }

    /** `nextjob` is what init_request() read from the job file. */
    constructor (nextjob: int)
      ensures Valid() && q == [] && this.nextjob == nextjob
    {
      jobhead, jobtail, q := null, null, [];
      this.nextjob := nextjob;
    }

    /** get_newjobno(): whatever the job file held, the next number is positive; after the largest comes 1. */
    method GetNewJobNo() returns (jobid: int)
      requires -INT32_MAX - 1 <= nextjob <= INT32_MAX
      modifies this`nextjob
      ensures jobid == old(nextjob) && 0 < nextjob <= INT32_MAX
      ensures nextjob == jobid + 1 || (nextjob == 1 && (jobid < 0 || jobid == INT32_MAX))
    {
      jobid := nextjob;
      nextjob := if nextjob == INT32_MAX then -INT32_MAX - 1 else nextjob + 1;
      if nextjob <= 0 {
        nextjob := 1;
      }
    }

    /** add_job() */
    method AddJob(req: Req, jobid: int)
      requires Valid()
      modifies this`jobhead, this`jobtail, this`q, jobtail
      ensures Valid() && |q| == |old(q)| + 1 && q[..|q| - 1] == old(q)
      ensures fresh(q[|q| - 1]) && q[|q| - 1].jobid == jobid && q[|q| - 1].req == req
    {
      hide Linked, Distinct, At;
      ghost var was := q;
      if q != [] {
        Neighbours(q, |q| - 1);
      }
      Ends(q);
      var jp := new Job(req, jobid);
      jp.next := null;
      jp.prev := jobtail;
      if jobtail == null {
        jobhead := jp;
      } else {
        jobtail.next := jp;
      }
      jobtail := jp;
      AppendLinked(was, jp);
      PushDistinct(was, jp);
      q := q + [jp];
    }

    /** replace_job(): a deferred job goes back to the head. */
    method ReplaceJob(jp: Job)
      requires Valid() && jp !in q
      modifies this`jobhead, this`jobtail, this`q, jobhead, jp
      ensures Valid() && q == [jp] + old(q)
    {
      hide Linked, Distinct, At;
      ghost var was := q;
      if q != [] {
        Neighbours(q, 0);
      }
      Ends(q);
      jp.prev := null;
      jp.next := jobhead;
      if jobhead == null {
        jobtail := jp;
      } else {
        jobhead.prev := jp;
      }
      jobhead := jp;
      PushLinked(was, jp);
      PushDistinct(was, jp);
      q := [jp] + q;
    }

    /** remove_job(): takes any job out of the list and leaves the others in order. */
    method RemoveJob(target: Job, ghost k: nat)
      requires Valid() && k < |q| && q[k] == target
      modifies this`jobhead, this`jobtail, this`q, q
      ensures Valid() && q == Cut(old(q), k)
      ensures target.next == old(target.next) && target.prev == old(target.prev)
    {
      hide Linked, Distinct, Cut, At;
      ghost var was := q;
      Neighbours(q, k);
      CutDistinct(q, k);
      CutAt(q, k, 0);
      CutAt(q, k, |q| - 2);
      if target.next != null {
        target.next.prev := target.prev;
      } else {
        jobtail := target.prev;
      }
      if target.prev != null {
        target.prev.next := target.next;
      } else {
        jobhead := target.next;
      }
      CutLinked(was, k);
      q := Cut(q, k);
    }

    /** printer_thread() picking up a job. */
    method TakeJob() returns (jp: Job)
      requires Valid() && q != []
      modifies this`jobhead, this`jobtail, this`q, q
      ensures Valid() && [jp] + q == old(q) && jp !in q
    {
      jp := jobhead;
      CutDistinct(q, 0);
      RemoveJob(jp, 0);
    }
  }

  /** A job that is taken and put back leaves the list exactly as it was. */
  method Defer(jobs: JobList) returns (jp: Job)
    requires jobs.Valid() && jobs.q != []
    modifies jobs, jobs.q
    ensures jobs.Valid() && jobs.q == old(jobs.q)
  {
    jp := jobs.TakeJob();
    jobs.ReplaceJob(jp);
  }
}
