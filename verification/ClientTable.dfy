/** The connection server's table of clients: an array that grows and whose free slots are used again. */
module ClientTable {
  const NALLOC := 10

  /** A slot; a descriptor of -1 marks it free, and what it then holds as uid is left over. */
  datatype Client = Client(fd: int, uid: nat)

  /** What is done for a ready descriptor: closed, or its request of n bytes handled. */
  datatype Action = Close | Request(n: nat)

  /** Something done in a scan: for which descriptor, under which uid. */
  datatype Event = Event(fd: int, uid: nat, action: Action)

  predicate Free(c: Client) {
    c.fd == -1
  }

  /** The descriptors in use. */
  ghost function Fds(s: seq<Client>): set<int> {
    set c | c in s && !Free(c) :: c.fd
  }

  ghost predicate DistinctFds(s: seq<Client>) {
    forall i, j :: 0 <= i < j < |s| && !Free(s[i]) && !Free(s[j]) ==> s[i].fd != s[j].fd
  }

  /** Each slot has the uid that was recorded when its connection was accepted. */
  ghost predicate Recorded(s: seq<Client>, uids: map<int, nat>) {
    forall i :: 0 <= i < |s| && !Free(s[i]) ==> s[i].fd in uids && uids[s[i].fd] == s[i].uid
  }

  /** How many slots are in use. */
  function Used(s: seq<Client>): (n: nat)
    ensures n <= |s|
  {
    if s == [] then 0 else (if Free(s[0]) then 0 else 1) + Used(s[1..])
  }

  predicate FirstFree(s: seq<Client>, i: nat) {
    i < |s| && Free(s[i]) && forall j :: 0 <= j < i ==> !Free(s[j])
  }

  /** The slots client_alloc() adds. */
  function Slots(): seq<Client> {
    seq(NALLOC, _ => Client(-1, 0))
  }

  lemma {:induction false} UsedSet(s: seq<Client>, i: nat, c: Client)
    requires i < |s|
    ensures Used(s[i := c]) == Used(s) - (if Free(s[i]) then 0 else 1) + if Free(c) then 0 else 1
  {
    if i == 0 {
      assert s[i := c][1..] == s[1..];
    } else {
      UsedSet(s[1..], i - 1, c);
      assert s[i := c][1..] == s[1..][i - 1 := c];
    }
  }

  lemma {:induction false} UsedMore(s: seq<Client>, t: seq<Client>)
    requires forall i :: 0 <= i < |t| ==> Free(t[i])
    ensures Used(s + t) == Used(s)
    decreases |s| + |t|
  {
    if s != [] {
      UsedMore(s[1..], t);
      assert (s + t)[1..] == s[1..] + t;
    } else if t != [] {
      assert s + t == t;
      UsedMore([], t[1..]);
      assert [] + t[1..] == t[1..];
    }
  }

  /** A descriptor put into a free slot. */
  lemma Added(s: seq<Client>, i: nat, c: Client)
    requires i < |s| && Free(s[i]) && !Free(c) && c.fd !in Fds(s) && DistinctFds(s)
    ensures Fds(s[i := c]) == Fds(s) + {c.fd} && DistinctFds(s[i := c]) && Used(s[i := c]) == Used(s) + 1
  {
    UsedSet(s, i, c);
    var t := s[i := c];
    forall f ensures f in Fds(t) <==> f in Fds(s) || f == c.fd {
      FdAt(s, f);
      FdAt(t, f);
      if f in Fds(s) {
        var j :| 0 <= j < |s| && !Free(s[j]) && s[j].fd == f;
        assert t[j] == s[j];
      }
      assert t[i] == c;
    }
    forall j, k | 0 <= j < k < |t| && !Free(t[j]) && !Free(t[k]) ensures t[j].fd != t[k].fd {
      FdAt(s, t[j].fd);
      FdAt(s, t[k].fd);
    }
  }

  /** The slot of a descriptor freed. */
  lemma Removed(s: seq<Client>, i: nat)
    requires i < |s| && !Free(s[i]) && DistinctFds(s)
    ensures
      var t := s[i := s[i].(fd := -1)];
      Fds(t) == Fds(s) - {s[i].fd} && DistinctFds(t) && Used(t) == Used(s) - 1
  {
    var t := s[i := s[i].(fd := -1)];
    UsedSet(s, i, t[i]);
    forall f ensures f in Fds(t) <==> f in Fds(s) && f != s[i].fd {
      FdAt(s, f);
      FdAt(t, f);
      if f in Fds(s) && f != s[i].fd {
        var j :| 0 <= j < |s| && !Free(s[j]) && s[j].fd == f;
        assert t[j] == s[j];
      }
    }
  }

  lemma FdAt(s: seq<Client>, f: int)
    ensures f in Fds(s) <==> exists i :: 0 <= i < |s| && !Free(s[i]) && s[i].fd == f
  {
    if f in Fds(s) {
      var c :| c in s && !Free(c) && c.fd == f;
    }
  }

  lemma Grown(s: seq<Client>)
    ensures Fds(s + Slots()) == Fds(s) && Used(s + Slots()) == Used(s) && (DistinctFds(s) ==> DistinctFds(s + Slots()))
  {
    var t := s + Slots();
    UsedMore(s, Slots());
    forall f ensures f in Fds(t) <==> f in Fds(s) {
      FdAt(s, f);
      FdAt(t, f);
      if f in Fds(s) {
        var i :| 0 <= i < |s| && !Free(s[i]) && s[i].fd == f;
        assert t[i] == s[i];
      }
    }
  }

  class Clients {
    var client: array<Client>

    constructor ()
      ensures fresh(client) && client.Length == 0
    {
      client := new Client[0];
    }

    /** client_alloc(): room for NALLOC more, all free. */
    method ClientAlloc()
      modifies this
      ensures fresh(client) && client[..] == old(client[..]) + Slots()
    {
      var size := client.Length;
      var grown := new Client[size + NALLOC](_ => Client(-1, 0));
      for i := 0 to size
        invariant client == old(client) && client[..] == old(client[..])
        invariant forall j :: 0 <= j < i ==> grown[j] == client[j]
        invariant forall j :: size <= j < grown.Length ==> grown[j] == Client(-1, 0)
      {
        grown[i] := client[i];
      }
      client := grown;
    }

    /** client_add(): the first free slot, in a table that has grown if there was none. */
    method ClientAdd(fd: int, uid: nat) returns (i: nat)
      requires fd >= 0
      modifies this, client
      ensures client == old(client) || fresh(client)
      ensures
        var s := if exists k: nat :: FirstFree(old(client[..]), k) then old(client[..]) else old(client[..]) + Slots();
        FirstFree(s, i) && client[..] == s[i := Client(fd, uid)]
    {
      ghost var s := client[..];
      i := FindFree();
      if i < client.Length {
        assert FirstFree(s, i);
      } else {
        ClientAlloc();
        i := FindFree();
        assert client[..][|s|] == Slots()[0];
      }
      client[i] := Client(fd, uid);
    }

    /** The search loop of client_add(). */
    method FindFree() returns (i: nat)
      ensures i <= client.Length && forall j :: 0 <= j < i ==> !Free(client[j])
      ensures i < client.Length ==> Free(client[i])
    {
      i := 0;
      while i < client.Length && client[i].fd != -1
        invariant i <= client.Length && forall j :: 0 <= j < i ==> !Free(client[j])
      {
        i := i + 1;
      }
    }

    /** client_del(): whether there was an entry for the descriptor; without one the server quits. */
    method ClientDel(fd: int) returns (ok: bool)
      requires fd >= 0
      modifies client
      ensures ok <==> fd in Fds(old(client[..]))
      ensures !ok ==> client[..] == old(client[..])
      ensures ok ==> exists i ::
                && 0 <= i < client.Length && old(client[i].fd) == fd && (forall j :: 0 <= j < i ==> old(client[j].fd) != fd)
                && client[..] == old(client[..])[i := Client(-1, old(client[i].uid))]
    {
      ghost var s := client[..];
      FdAt(s, fd);
      for i := 0 to client.Length
        invariant client[..] == s && forall j :: 0 <= j < i ==> client[j].fd != fd
      {
        if client[i].fd == fd {
          client[i] := client[i].(fd := -1);
          assert client[..] == s[i := Client(-1, s[i].uid)];
          return true;
        }
      }
      return false;
    }
  }
}
