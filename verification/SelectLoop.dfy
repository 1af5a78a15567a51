/** The connection server's loop over select(): the descriptor set, the client slots, and whose request is served as whose. */
module SelectLoop {
  import opened ClientTable

  function ActionFor(fd: int, read: int -> nat): Action {
    if read(fd) == 0 then Close else Request(read(fd))
  }

  /** What a scan does: the ready clients, slot by slot. */
  function Scanned(s: seq<Client>, rset: set<int>, read: int -> nat): seq<Event> {
    if s == [] then []
    else (if !Free(s[0]) && s[0].fd in rset then [Event(s[0].fd, s[0].uid, ActionFor(s[0].fd, read))] else []) + Scanned(s[1..], rset, read)
  }

  /** The table after it: the slots of closed connections are free. */
  function Swept(s: seq<Client>, rset: set<int>, read: int -> nat): (t: seq<Client>)
    ensures |t| == |s|
  {
    seq(|s|, i requires 0 <= i < |s| =>
      if !Free(s[i]) && s[i].fd in rset && read(s[i].fd) == 0 then Client(-1, s[i].uid) else s[i])
  }

  lemma {:induction false} ScannedNext(s: seq<Client>, k: nat, rset: set<int>, read: int -> nat)
    requires k < |s|
    ensures
      Scanned(s[..k + 1], rset, read)
      == Scanned(s[..k], rset, read) + if !Free(s[k]) && s[k].fd in rset then [Event(s[k].fd, s[k].uid, ActionFor(s[k].fd, read))] else []
    decreases k
  {
    if k == 0 {
      assert s[..1][1..] == [] && s[..0] == [];
    } else {
      ScannedNext(s[1..], k - 1, rset, read);
      assert s[1..][..k] == s[..k + 1][1..] && s[1..][..k - 1] == s[..k][1..];
    }
  }

  lemma {:induction false} ScannedFree(s: seq<Client>, rset: set<int>, read: int -> nat)
    requires forall i :: 0 <= i < |s| ==> Free(s[i])
    ensures Scanned(s, rset, read) == []
  {
    if s != [] {
      ScannedFree(s[1..], rset, read);
    }
  }

  lemma {:induction false} ScannedTo(s: seq<Client>, n: nat, rset: set<int>, read: int -> nat)
    requires n <= |s| && forall i :: n <= i < |s| ==> Free(s[i])
    ensures Scanned(s[..n], rset, read) == Scanned(s, rset, read)
    decreases n
  {
    if n == 0 {
      ScannedFree(s, rset, read);
    } else {
      ScannedTo(s[1..], n - 1, rset, read);
      assert s[1..][..n - 1] == s[..n][1..];
    }
  }

  /**
   A scan serves a descriptor exactly when it is a ready client's, under the uid in that client's slot, with the action
   its read decides; and the clients that remain are those not closed.
   */
  lemma {:induction false} ScanIsRight(s: seq<Client>, rset: set<int>, read: int -> nat, e: Event)
    ensures e in Scanned(s, rset, read) <==>
      exists i :: 0 <= i < |s| && !Free(s[i]) && s[i].fd in rset && e.fd == s[i].fd && e.uid == s[i].uid
               && e.action == if read(s[i].fd) == 0 then Close else Request(read(s[i].fd))
  {
    if s != [] {
      ScanIsRight(s[1..], rset, read, e);
      assert forall i :: 0 < i < |s| ==> s[i] == s[1..][i - 1];
    }
  }

  /** No descriptor is served twice in a scan. */
  lemma {:induction false} ScanOnce(s: seq<Client>, rset: set<int>, read: int -> nat)
    requires DistinctFds(s)
    ensures forall i, j :: 0 <= i < j < |Scanned(s, rset, read)| ==> Scanned(s, rset, read)[i].fd != Scanned(s, rset, read)[j].fd
  {
    if s != [] {
      ScanOnce(s[1..], rset, read);
      var rest := Scanned(s[1..], rset, read);
      forall j | 0 <= j < |rest| ensures !Free(s[0]) ==> rest[j].fd != s[0].fd {
        ScanIsRight(s[1..], rset, read, rest[j]);
        var i :| 0 <= i < |s[1..]| && !Free(s[1..][i]) && rest[j].fd == s[1..][i].fd;
        assert s[i + 1] == s[1..][i];
      }
    }
  }

  lemma SweptFds(s: seq<Client>, rset: set<int>, read: int -> nat)
    requires DistinctFds(s)
    ensures DistinctFds(Swept(s, rset, read))
    ensures Fds(Swept(s, rset, read)) == Fds(s) - set f | f in Fds(s) && f in rset && read(f) == 0
  {
    var t := Swept(s, rset, read);
    forall f ensures f in Fds(t) <==> f in Fds(s) && !(f in rset && read(f) == 0) {
      FdAt(s, f);
      FdAt(t, f);
      if f in Fds(s) {
        var i :| 0 <= i < |s| && !Free(s[i]) && s[i].fd == f;
        assert t[i] == if f in rset && read(f) == 0 then Client(-1, s[i].uid) else s[i];
      }
    }
  }

  /** The first part swept, the rest as it was. */
  function HalfSwept(s: seq<Client>, k: nat, rset: set<int>, read: int -> nat): (t: seq<Client>)
    requires k <= |s|
    ensures |t| == |s|
  {
    Swept(s[..k], rset, read) + s[k..]
  }

  lemma HalfNext(s: seq<Client>, k: nat, rset: set<int>, read: int -> nat)
    requires k < |s|
    ensures HalfSwept(s, k, rset, read)[k] == s[k]
    ensures HalfSwept(s, k + 1, rset, read)
         == HalfSwept(s, k, rset, read)[k := if !Free(s[k]) && s[k].fd in rset && read(s[k].fd) == 0 then Client(-1, s[k].uid) else s[k]]
  {
  }

  /**
   allset is the listener and the live clients; every live slot is at most maxi and every descriptor at most maxfd; each
   slot has the uid that was recorded for its connection.
   */
  ghost predicate TableOk(s: seq<Client>, listenfd: int, allset: set<int>, maxfd: int, maxi: int, uids: map<int, nat>) {
    && DistinctFds(s) && listenfd !in Fds(s) && allset == {listenfd} + Fds(s)
    && (forall f <- allset :: 0 <= f <= maxfd)
    && -1 <= maxi < |s| && (forall i :: maxi < i < |s| ==> Free(s[i]))
    && Recorded(s, uids)
  }

  lemma AcceptOk(s: seq<Client>, i: nat, clifd: int, uid: nat, listenfd: int, allset: set<int>, maxfd: int, maxi: int, uids: map<int, nat>)
    requires TableOk(s, listenfd, allset, maxfd, maxi, uids) && clifd >= 0 && clifd !in allset && i < |s| && Free(s[i])
    ensures TableOk(s[i := Client(clifd, uid)], listenfd, allset + {clifd}, if clifd > maxfd then clifd else maxfd,
                    if i > maxi then i else maxi, uids[clifd := uid])
  {
    Added(s, i, Client(clifd, uid));
    forall j | 0 <= j < |s| && !Free(s[j]) ensures s[j].fd != clifd {
      FdAt(s, s[j].fd);
    }
    hide DistinctFds, Fds, Used;
  }

  lemma GrownOk(s: seq<Client>, listenfd: int, allset: set<int>, maxfd: int, maxi: int, uids: map<int, nat>)
    requires TableOk(s, listenfd, allset, maxfd, maxi, uids)
    ensures TableOk(s + Slots(), listenfd, allset, maxfd, maxi, uids)
  {
    hide DistinctFds, Fds, Used;
    Grown(s);
  }

  lemma CloseOk(s: seq<Client>, i: nat, listenfd: int, allset: set<int>, maxfd: int, maxi: int, uids: map<int, nat>)
    requires TableOk(s, listenfd, allset, maxfd, maxi, uids) && i < |s| && !Free(s[i])
    ensures s[i].fd in Fds(s) && s[i].fd >= 0
    ensures TableOk(s[i := Client(-1, s[i].uid)], listenfd, allset - {s[i].fd}, maxfd, maxi, uids)
  {
    Removed(s, i);
    FdAt(s, s[i].fd);
    hide DistinctFds, Fds, Used;
  }

  class SelectServer {
    const clients: Clients
    const listenfd: int
    var allset: set<int>
    var maxfd: int
    var maxi: int
    /** The uid of each connection as it was accepted. */
    ghost var uids: map<int, nat>

    ghost predicate Valid()
      reads this, clients, clients.client
    {
      TableOk(clients.client[..], listenfd, allset, maxfd, maxi, uids)
    }

    constructor (listenfd: int)
      requires listenfd >= 0
      ensures Valid() && fresh(clients) && fresh(clients.client) && this.listenfd == listenfd && allset == {listenfd} && uids == map[]
    {
      this.listenfd := listenfd;
      allset, maxfd, maxi := {listenfd}, listenfd, -1;
      uids := map[];
      clients := new Clients();
    }

    /** A new connection takes the first free slot, and its uid with it. */
    method Accept(clifd: int, uid: nat)
      requires Valid() && clifd >= 0 && clifd !in allset
      modifies this, clients, clients.client
      ensures Valid() && (clients.client == old(clients.client) || fresh(clients.client))
      ensures allset == old(allset) + {clifd} && uids == old(uids)[clifd := uid]
      ensures Client(clifd, uid) in clients.client[..]
    {
      hide TableOk;
      ghost var s := clients.client[..];
      var i := clients.ClientAdd(clifd, uid);
      GrownOk(s, listenfd, allset, maxfd, maxi, uids);
      AcceptOk(if |clients.client[..]| == |s| then s else s + Slots(), i, clifd, uid, listenfd, allset, maxfd, maxi, uids);
      allset := allset + {clifd};
      if clifd > maxfd {
        maxfd := clifd;
      }
      if i > maxi {
        maxi := i;
      }
      uids := uids[clifd := uid];
      assert clients.client[..][i] == Client(clifd, uid);
    }

    /** The scan over the slots up to maxi. */
    method Scan(rset: set<int>, read: int -> nat) returns (served: seq<Event>)
      requires Valid()
      modifies this`allset, clients.client
      ensures Valid() && uids == old(uids)
      ensures served == Scanned(old(clients.client[..]), rset, read)
      ensures clients.client[..] == Swept(old(clients.client[..]), rset, read)
    {
      hide TableOk, Scanned, Swept, HalfSwept, DistinctFds;
      ghost var s := clients.client[..];
      served := [];
      HalfEnds(s, listenfd, allset, maxfd, maxi, uids, rset, read);
      for i := 0 to maxi + 1
        invariant Valid() && i <= |s|
        invariant clients.client[..] == HalfSwept(s, i, rset, read) && served == Scanned(s[..i], rset, read)
      {
        HalfNext(s, i, rset, read);
        ScannedNext(s, i, rset, read);
        ghost var t := clients.client[..];
        var clifd := clients.client[i].fd;
        SlotOk(t, i, listenfd, allset, maxfd, maxi, uids);
        if clifd >= 0 && clifd in rset {
          if read(clifd) == 0 {
            served := served + [Event(clifd, clients.client[i].uid, Close)];
            CloseOk(t, i, listenfd, allset, maxfd, maxi, uids);
            var ok := clients.ClientDel(clifd);
            ghost var k: nat :| k < |t| && t[k].fd == clifd && clients.client[..] == t[k := Client(-1, t[k].uid)];
            SameSlot(t, i, k, listenfd, allset, maxfd, maxi, uids);
            allset := allset - {clifd};
          } else {
            served := served + [Event(clifd, clients.client[i].uid, Request(read(clifd)))];
          }
        }
      }
    }

    /** One turn of the loop: a new connection, or a scan. `rset` is what select() leaves of allset. */
    method Round(rset: set<int>, clifd: int, uid: nat, read: int -> nat) returns (served: seq<Event>)
      requires Valid() && rset <= allset && clifd >= 0 && clifd !in allset
      modifies this, clients, clients.client
      ensures Valid()
      ensures listenfd in rset ==> served == [] && allset == old(allset) + {clifd} && uids == old(uids)[clifd := uid]
      ensures listenfd !in rset ==> served == Scanned(old(clients.client[..]), rset, read) && uids == old(uids)
      ensures listenfd !in rset ==> clients.client[..] == Swept(old(clients.client[..]), rset, read)
    {
      if listenfd in rset {
        Accept(clifd, uid);
        served := [];
      } else {
        served := Scan(rset, read);
      }
    }
  }

  lemma HalfEnds(s: seq<Client>, listenfd: int, allset: set<int>, maxfd: int, maxi: int, uids: map<int, nat>, rset: set<int>, read: int -> nat)
    requires TableOk(s, listenfd, allset, maxfd, maxi, uids)
    ensures -1 <= maxi < |s|
    ensures HalfSwept(s, 0, rset, read) == s && Scanned(s[..0], rset, read) == []
    ensures HalfSwept(s, maxi + 1, rset, read) == Swept(s, rset, read) && Scanned(s[..maxi + 1], rset, read) == Scanned(s, rset, read)
  {
    hide DistinctFds, Fds, Recorded, Swept, HalfSwept;
    ScannedTo(s, maxi + 1, rset, read);
    HalfWhole(s, maxi + 1, rset, read);
    HalfNone(s, rset, read);
  }

  lemma HalfNone(s: seq<Client>, rset: set<int>, read: int -> nat)
    ensures HalfSwept(s, 0, rset, read) == s
  {
  }

  lemma HalfWhole(s: seq<Client>, n: nat, rset: set<int>, read: int -> nat)
    requires n <= |s| && forall i :: n <= i < |s| ==> Free(s[i])
    ensures HalfSwept(s, n, rset, read) == Swept(s, rset, read)
  {
    var h := Swept(s[..n], rset, read);
    assert forall i :: 0 <= i < n ==> h[i] == Swept(s, rset, read)[i];
  }

  lemma SlotOk(t: seq<Client>, i: nat, listenfd: int, allset: set<int>, maxfd: int, maxi: int, uids: map<int, nat>)
    requires TableOk(t, listenfd, allset, maxfd, maxi, uids) && i < |t|
    ensures Free(t[i]) <==> t[i].fd < 0
  {
    FdAt(t, t[i].fd);
    hide DistinctFds, Fds, Recorded;
  }

  lemma SameSlot(t: seq<Client>, i: nat, k: nat, listenfd: int, allset: set<int>, maxfd: int, maxi: int, uids: map<int, nat>)
    requires TableOk(t, listenfd, allset, maxfd, maxi, uids) && i < |t| && k < |t| && t[i].fd == t[k].fd >= 0
    ensures i == k
  {
  }

  /** Each request in a scan is served under the uid recorded when its connection was accepted. */
  lemma ServedAsAccepted(s: seq<Client>, uids: map<int, nat>, rset: set<int>, read: int -> nat, e: Event)
    requires Recorded(s, uids) && e in Scanned(s, rset, read)
    ensures e.fd in uids && e.uid == uids[e.fd] && e.fd in rset && e.fd in Fds(s)
    ensures e.action == if read(e.fd) == 0 then Close else Request(read(e.fd))
  {
    ScanIsRight(s, rset, read, e);
    FdAt(s, e.fd);
  }
}
