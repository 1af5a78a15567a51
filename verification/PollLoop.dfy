/** The connection server's loop over poll(): one scan services the ready descriptors while it packs their array. */
module PollLoop {
  import opened Common
  import opened ClientTable

  /** An entry: a descriptor and what poll() reported for it. */
  datatype PollFd = PollFd(fd: int, hup: bool, in_: bool)

  predicate Ready(p: PollFd) {
    p.hup || p.in_
  }

  /** A hang-up closes; otherwise the read decides: end of file closes, data is a request. */
  function ActionFor(p: PollFd, read: int -> nat): Action {
    if p.hup || read(p.fd) == 0 then Close else Request(read(p.fd))
  }

  /** What is due for one entry: an action if it is ready. */
  ghost function DueFor(p: PollFd, read: int -> nat): multiset<(int, Action)> {
    if Ready(p) then multiset{(p.fd, ActionFor(p, read))} else multiset{}
  }

  ghost function Due(s: seq<PollFd>, read: int -> nat): multiset<(int, Action)> {
    if s == [] then multiset{} else DueFor(s[0], read) + Due(s[1..], read)
  }

  lemma {:induction false} DueJoin(s: seq<PollFd>, t: seq<PollFd>, read: int -> nat)
    ensures Due(s + t, read) == Due(s, read) + Due(t, read)
    decreases |s|
  {
    hide DueFor;
    if s == [] {
      assert s + t == t;
    } else {
      DueJoin(s[1..], t, read);
      assert (s + t)[1..] == s[1..] + t;
      Regroup(DueFor(s[0], read), Due(s[1..], read), Due(t, read));
    }
  }

  lemma DueFirst(p: PollFd, t: seq<PollFd>, read: int -> nat)
    ensures Due([p] + t, read) == DueFor(p, read) + Due(t, read)
  {
    assert ([p] + t)[1..] == t;
  }

  /** Which of the entries comes first makes no difference to what is due. */
  lemma DueTurned(p: PollFd, t: seq<PollFd>, read: int -> nat)
    ensures Due(t + [p], read) == Due([p] + t, read)
  {
    hide DueFor, Due;
    DueJoin(t, [p], read);
    DueJoin([p], t, read);
  }

  /** Entry i gone and the last one in its place. */
  function Packed(s: seq<PollFd>, i: nat): (t: seq<PollFd>)
    requires i < |s|
    ensures |t| == |s| - 1
  {
    if i < |s| - 1 then s[i := s[|s| - 1]][..|s| - 1] else s[..|s| - 1]
  }

  /** What was due from place i on is what is due for entry i and, after packing, from place i on. */
  lemma DuePacked(s: seq<PollFd>, i: nat, read: int -> nat)
    requires i < |s|
    ensures i <= |Packed(s, i)| && Packed(s, i)[..i] == s[..i]
    ensures Due(s[i..], read) == DueFor(s[i], read) + Due(Packed(s, i)[i..], read)
  {
    hide DueFor, Due;
    var rest := s[i + 1..];
    assert s[i..] == [s[i]] + rest;
    DueFirst(s[i], rest, read);
    if rest != [] {
      var last, mid := s[|s| - 1], rest[..|rest| - 1];
      assert rest == mid + [last];
      assert Packed(s, i)[i..] == [last] + mid;
      DueTurned(last, mid, read);
    } else {
      assert Packed(s, i)[i..] == rest;
    }
  }

  /** The descriptors of the entries. */
  ghost function Polled(s: seq<PollFd>): set<int> {
    set p | p in s :: p.fd
  }

  ghost predicate NoTwice(s: seq<PollFd>) {
    forall i, j :: 0 <= i < j < |s| ==> s[i].fd != s[j].fd
  }

  lemma PackedFds(s: seq<PollFd>, i: nat)
    requires i < |s| && NoTwice(s)
    ensures Polled(Packed(s, i)) == Polled(s) - {s[i].fd} && NoTwice(Packed(s, i)) && |Packed(s, i)| == |s| - 1
  {
    var t := Packed(s, i);
    assert forall j :: 0 <= j < |t| ==> t[j] == s[if j == i then |s| - 1 else j];
    forall f ensures f in Polled(t) <==> f in Polled(s) && f != s[i].fd {
      if f in Polled(t) {
        var j :| 0 <= j < |t| && t[j].fd == f;
        assert s[if j == i then |s| - 1 else j].fd == f;
      }
      if f in Polled(s) && f != s[i].fd {
        var j :| 0 <= j < |s| && s[j].fd == f;
        assert t[if j == |s| - 1 then i else j].fd == f;
      }
    }
  }

  lemma PolledAt(s: seq<PollFd>, i: nat)
    requires i < |s|
    ensures s[i].fd in Polled(s)
  {
  }

  lemma PushedFds(s: seq<PollFd>, p: PollFd)
    requires NoTwice(s) && p.fd !in Polled(s)
    ensures Polled(s + [p]) == Polled(s) + {p.fd} && NoTwice(s + [p])
  {
    var t := s + [p];
    forall j | 0 <= j < |s| ensures t[j].fd in Polled(s) {
      PolledAt(s, j);
    }
    forall f ensures f in Polled(t) <==> f in Polled(s) || f == p.fd {
      if f in Polled(s) {
        var j :| 0 <= j < |s| && s[j].fd == f;
        assert t[j].fd == f;
      }
      assert t[|s|] == p;
    }
  }

  /** The two tables name the same descriptors, each once. */
  ghost predicate Agree(table: seq<Client>, s: seq<PollFd>) {
    && DistinctFds(table) && NoTwice(s) && Fds(table) == Polled(s) && Used(table) == |s|
    && forall p <- s :: p.fd >= 0
  }

  lemma AgreeClosed(table: seq<Client>, k: nat, s: seq<PollFd>, i: nat)
    requires Agree(table, s) && i < |s| && k < |table| && table[k].fd == s[i].fd
    ensures Agree(table[k := Client(-1, table[k].uid)], Packed(s, i))
  {
    hide Polled, Fds, Used, DistinctFds, NoTwice;
    Removed(table, k);
    PackedFds(s, i);
    forall p <- Packed(s, i) ensures p in s {
    }
  }

  lemma AgreeAdded(table: seq<Client>, k: nat, s: seq<PollFd>, p: PollFd, uid: nat)
    requires Agree(table, s) && k < |table| && Free(table[k]) && p.fd >= 0 && p.fd !in Polled(s)
    ensures Agree(table[k := Client(p.fd, uid)], s + [p])
  {
    hide Polled, Fds, Used, DistinctFds, NoTwice;
    Added(table, k, Client(p.fd, uid));
    PushedFds(s, p);
  }

  lemma AgreeGrown(table: seq<Client>, s: seq<PollFd>)
    requires Agree(table, s)
    ensures Agree(table + Slots(), s)
  {
    hide Polled, Fds, Used, DistinctFds, NoTwice;
    Grown(table);
  }

  /** Each ready descriptor is due once, with one action; nothing else is due. */
  lemma {:induction false} DueOnce(s: seq<PollFd>, read: int -> nat, fd: int, a: Action)
    requires NoTwice(s)
    ensures Due(s, read)[(fd, a)] == if exists i :: 0 <= i < |s| && s[i].fd == fd && Ready(s[i]) && ActionFor(s[i], read) == a then 1 else 0
    decreases |s|
  {
    if s != [] {
      DueOnce(s[1..], read, fd, a);
      assert forall i :: 0 < i < |s| ==> s[i] == s[1..][i - 1];
      assert forall i :: 0 < i < |s| ==> s[i].fd != s[0].fd;
    }
  }

  /** Which action that is: a hang-up or the end of the file closes, and otherwise the request is handled as long as it is. */
  lemma DueIs(s: seq<PollFd>, read: int -> nat, fd: int, n: nat)
    requires NoTwice(s)
    ensures Due(s, read)[(fd, Close)]
         == if exists i :: 0 <= i < |s| && s[i].fd == fd && (s[i].hup || (s[i].in_ && read(fd) == 0)) then 1 else 0
    ensures Due(s, read)[(fd, Request(n))]
         == if exists i :: 0 <= i < |s| && s[i].fd == fd && !s[i].hup && s[i].in_ && n == read(fd) > 0 then 1 else 0
  {
    hide Due, NoTwice;
    DueOnce(s, read, fd, Close);
    DueOnce(s, read, fd, Request(n));
  }

  // ---- the scan as a function of where it begins ----

  /** The uids the slots hold, in use or left over. */
  function Uids(table: seq<Client>): (u: seq<nat>)
    ensures |u| == |table|
  {
    seq(|table|, i requires 0 <= i < |table| => table[i].uid)
  }

  /** What the scan does from entry i on: the entry at place i is handled under the uid in slot i. */
  function Events(u: seq<nat>, s: seq<PollFd>, i: nat, read: int -> nat): seq<Event>
    requires i <= |s| <= |u|
    decreases |s| - i
  {
    if i == |s| then []
    else if !Ready(s[i]) then Events(u, s, i + 1, read)
    else
      var a := ActionFor(s[i], read);
      [Event(s[i].fd, u[i], a)] + if a.Close? then Events(u, Packed(s, i), i, read) else Events(u, s, i + 1, read)
  }

  predicate Closes(p: PollFd, read: int -> nat) {
    Ready(p) && ActionFor(p, read).Close?
  }

  /** The entries it leaves. */
  function Left(s: seq<PollFd>, i: nat, read: int -> nat): seq<PollFd>
    requires i <= |s|
    decreases |s| - i
  {
    if i == |s| then s else if Closes(s[i], read) then Left(Packed(s, i), i, read) else Left(s, i + 1, read)
  }

  /** client_del() */
  function Freed(table: seq<Client>, fd: int): (t: seq<Client>)
    ensures |t| == |table|
  {
    seq(|table|, k requires 0 <= k < |table| => if table[k].fd == fd then Client(-1, table[k].uid) else table[k])
  }

  /** The table it leaves. */
  function Table(table: seq<Client>, s: seq<PollFd>, i: nat, read: int -> nat): (t: seq<Client>)
    requires i <= |s|
    ensures |t| == |table|
    decreases |s| - i
  {
    if i == |s| then table
    else if Closes(s[i], read) then Table(Freed(table, s[i].fd), Packed(s, i), i, read)
    else Table(table, s, i + 1, read)
  }

  /** What was done, under whatever uid. */
  function Done(served: seq<Event>): seq<(int, Action)> {
    seq(|served|, k requires 0 <= k < |served| => (served[k].fd, served[k].action))
  }

  lemma DoneMore(e: Event, rest: seq<Event>)
    ensures Done([e] + rest) == [(e.fd, e.action)] + Done(rest)
  {
  }

  lemma Tally(x: (int, Action), rest: seq<(int, Action)>)
    ensures multiset([x] + rest) == multiset{x} + multiset(rest)
  {
  }

  /** Each descriptor that poll() reported is serviced once, with the action due to it, whatever the packing moves. */
  lemma {:induction false} ScanDue(u: seq<nat>, s: seq<PollFd>, i: nat, read: int -> nat)
    requires i <= |s| <= |u|
    ensures multiset(Done(Events(u, s, i, read))) == Due(s[i..], read)
    decreases |s| - i
  {
    hide ActionFor, Packed, Done;
    if i == |s| {
      assert s[i..] == [];
      NoneDone();
    } else {
      assert s[i..] == [s[i]] + s[i + 1..];
      DueFirst(s[i], s[i + 1..], read);
      if !Ready(s[i]) {
        ScanDue(u, s, i + 1, read);
      } else {
        var a := ActionFor(s[i], read);
        var rest := if a.Close? then Events(u, Packed(s, i), i, read) else Events(u, s, i + 1, read);
        DoneMore(Event(s[i].fd, u[i], a), rest);
        Tally((s[i].fd, a), Done(rest));
        if a.Close? {
          DuePacked(s, i, read);
          ScanDue(u, Packed(s, i), i, read);
        } else {
          ScanDue(u, s, i + 1, read);
        }
      }
    }
  }

  lemma NoneDone()
    ensures Done([]) == []
  {
  }

  ghost function Closed(served: seq<Event>): set<int> {
    set e | e in served && e.action.Close? :: e.fd
  }

  lemma ClosedMore(e: Event, rest: seq<Event>)
    ensures Closed([e] + rest) == Closed(rest) + if e.action.Close? then {e.fd} else {}
  {
    forall f ensures f in Closed([e] + rest) <==> f in Closed(rest) || (e.action.Close? && f == e.fd) {
      if f in Closed(rest) {
        var y :| y in rest && y.action.Close? && y.fd == f;
        assert y in [e] + rest;
      }
      assert e in [e] + rest;
    }
  }

  /** The entries left are those not closed. */
  lemma {:induction false} LeftFds(u: seq<nat>, s: seq<PollFd>, i: nat, read: int -> nat)
    requires i <= |s| <= |u| && NoTwice(s)
    ensures Polled(Left(s, i, read)) == Polled(s) - Closed(Events(u, s, i, read))
    decreases |s| - i
  {
    hide Polled, NoTwice, Closed, Packed, ActionFor;
    if i == |s| {
      NoneClosed();
    } else if !Ready(s[i]) {
      LeftFds(u, s, i + 1, read);
    } else {
      var a := ActionFor(s[i], read);
      if a.Close? {
        ClosedMore(Event(s[i].fd, u[i], a), Events(u, Packed(s, i), i, read));
        PackedFds(s, i);
        LeftFds(u, Packed(s, i), i, read);
      } else {
        ClosedMore(Event(s[i].fd, u[i], a), Events(u, s, i + 1, read));
        LeftFds(u, s, i + 1, read);
      }
    }
  }

  lemma NoneClosed()
    ensures Closed([]) == {}
  {
  }

  // ---- whose request is handled as whose ----

  /** Slot i is that of entry i, and the other slots are free. */
  ghost predicate Aligned(table: seq<Client>, s: seq<PollFd>) {
    && |s| <= |table| && (forall i :: 0 <= i < |s| ==> table[i].fd == s[i].fd)
    && forall i :: |s| <= i < |table| ==> Free(table[i])
  }

  /** Every event has the uid recorded for its descriptor. */
  ghost predicate RightUids(served: seq<Event>, uids: map<int, nat>) {
    forall e <- served :: e.fd in uids && e.uid == uids[e.fd]
  }

  /** No entry but perhaps the last is going to be closed, so none is going to be moved. */
  ghost predicate Steady(s: seq<PollFd>, i: nat, read: int -> nat) {
    forall j :: i <= j < |s| - 1 ==> !Closes(s[j], read)
  }

  /** Freeing the slot of entry i and packing keeps the slots aligned exactly when i is the last entry. */
  lemma ClosedAligned(table: seq<Client>, s: seq<PollFd>, i: nat)
    requires Agree(table, s) && Aligned(table, s) && i < |s|
    ensures Aligned(Freed(table, s[i].fd), Packed(s, i)) <==> i == |s| - 1
  {
    hide Fds, Polled, Used;
    var t := Freed(table, s[i].fd);
    assert forall k :: 0 <= k < |table| && k != i ==> t[k] == table[k];
    if i < |s| - 1 {
      assert Packed(s, i)[i].fd == s[|s| - 1].fd >= 0 && t[i].fd == -1;
    }
  }

  lemma AcceptedAligned(table: seq<Client>, k: nat, s: seq<PollFd>, p: PollFd, uid: nat)
    requires Aligned(table, s) && (forall q <- s :: q.fd >= 0) && FirstFree(table, k)
    ensures Aligned(table[k := Client(p.fd, uid)], s + [p])
  {
    assert forall i :: 0 <= i < |s| ==> s[i] in s && !Free(table[i]);
    assert |s| < |table| ==> Free(table[|s|]);
    assert k == |s|;
  }

  /** From aligned slots, a scan that moves no entry handles everything under the recorded uids, and leaves them aligned. */
  lemma {:induction false} SteadyScan(table: seq<Client>, s: seq<PollFd>, i: nat, read: int -> nat, uids: map<int, nat>)
    requires Agree(table, s) && Aligned(table, s) && Recorded(table, uids) && Steady(s, i, read) && i <= |s|
    ensures RightUids(Events(Uids(table), s, i, read), uids) && Aligned(Table(table, s, i, read), Left(s, i, read))
    decreases |s| - i
  {
    hide Agree, Fds, Polled, Used, ActionFor, Packed;
    if i < |s| {
      EntryUid(table, s, i, uids);
      if Closes(s[i], read) {
        assert i == |s| - 1;
        ClosedAligned(table, s, i);
        assert Events(Uids(table), Packed(s, i), i, read) == [];
      } else {
        SteadyScan(table, s, i + 1, read, uids);
      }
    }
  }

  lemma EntryUid(table: seq<Client>, s: seq<PollFd>, i: nat, uids: map<int, nat>)
    requires Agree(table, s) && Aligned(table, s) && Recorded(table, uids) && i < |s|
    ensures s[i].fd in uids && table[i].uid == uids[s[i].fd]
  {
    hide Fds, Polled, Used;
    assert s[i] in s;
  }

  /** An entry out of place that the scan has passed stays so. */
  lemma {:induction false} StaysAstray(table: seq<Client>, s: seq<PollFd>, i: nat, read: int -> nat, p: nat)
    requires p < i <= |s| <= |table| && table[p].fd == -1
    ensures p < |Left(s, i, read)| && Left(s, i, read)[p] == s[p] && Table(table, s, i, read)[p].fd == -1
    decreases |s| - i
  {
    hide ActionFor, Ready;
    if i < |s| {
      if Closes(s[i], read) {
        StaysAstray(Freed(table, s[i].fd), Packed(s, i), i, read, p);
      } else {
        StaysAstray(table, s, i + 1, read, p);
      }
    }
  }

  /**
   The first entry but the last to be closed: the last one comes in its place, and is handled under the uid left in that
   slot if poll() reported something for it; if not, the slots are no longer aligned.
   */
  lemma {:induction false} Astray(table: seq<Client>, s: seq<PollFd>, i: nat, read: int -> nat) returns (j: nat)
    requires Agree(table, s) && Aligned(table, s) && !Steady(s, i, read) && i <= |s|
    ensures i <= j < |s| - 1 && Closes(s[j], read)
    ensures
      var last := s[|s| - 1];
      if Ready(last) then Event(last.fd, table[j].uid, ActionFor(last, read)) in Events(Uids(table), s, i, read)
      else !Aligned(Table(table, s, i, read), Left(s, i, read))
    decreases |s| - i
  {
    hide Agree, ActionFor;
    if Closes(s[i], read) {
      j := i;
      var t, q, last := Freed(table, s[i].fd), Packed(s, i), s[|s| - 1];
      assert q[i] == last;
      if Ready(last) {
        assert Events(Uids(table), q, i, read)[0] == Event(last.fd, table[i].uid, ActionFor(last, read));
      } else {
        AgreeFds(table, s, |s| - 1);
        AstrayTable(table, s, i);
        StaysAstray(t, q, i + 1, read, i);
      }
    } else {
      j := Astray(table, s, i + 1, read);
    }
  }

  lemma AgreeFds(table: seq<Client>, s: seq<PollFd>, i: nat)
    requires Agree(table, s) && i < |s|
    ensures s[i].fd >= 0
  {
  }

  lemma AstrayTable(table: seq<Client>, s: seq<PollFd>, i: nat)
    requires Aligned(table, s) && i < |s|
    ensures Freed(table, s[i].fd)[i].fd == -1
  {
  }

  /** Live slots with different uids. */
  ghost predicate DifferentUids(table: seq<Client>) {
    forall j, k :: 0 <= j < k < |table| && !Free(table[j]) && !Free(table[k]) ==> table[j].uid != table[k].uid
  }

  /**
   Whose request is handled as whose. From aligned slots, with no two clients of the same uid, a scan handles everything
   under the recorded uids and leaves the slots aligned exactly when no entry but perhaps the last is closed in it.
   */
  lemma UidsExactly(table: seq<Client>, s: seq<PollFd>, i: nat, read: int -> nat, uids: map<int, nat>)
    requires Agree(table, s) && Aligned(table, s) && Recorded(table, uids) && DifferentUids(table) && i <= |s|
    ensures
      RightUids(Events(Uids(table), s, i, read), uids) && Aligned(Table(table, s, i, read), Left(s, i, read))
      <==> Steady(s, i, read)
  {
    hide Agree, RightUids, Steady, Events, Table, Left, Uids, ActionFor;
    if Steady(s, i, read) {
      SteadyScan(table, s, i, read, uids);
    } else {
      var j := Astray(table, s, i, read);
      var n := |s| - 1;
      if Ready(s[n]) {
        EntryUid(table, s, n, uids);
        AgreeFds(table, s, n);
        AgreeFds(table, s, j);
        WrongUid(Events(Uids(table), s, i, read), uids, Event(s[n].fd, table[j].uid, ActionFor(s[n], read)));
      }
    }
  }

  lemma WrongUid(served: seq<Event>, uids: map<int, nat>, e: Event)
    requires e in served && e.fd in uids && e.uid != uids[e.fd]
    ensures !RightUids(served, uids)
  {
  }

  /** Where each event of the scan is handled. */
  function Places(s: seq<PollFd>, i: nat, read: int -> nat): seq<nat>
    requires i <= |s|
    decreases |s| - i
  {
    if i == |s| then []
    else if !Ready(s[i]) then Places(s, i + 1, read)
    else [i] + if Closes(s[i], read) then Places(Packed(s, i), i, read) else Places(s, i + 1, read)
  }

  /** Aligned or not, an event has the recorded uid exactly when the slot at its place has the uid of its client's slot. */
  lemma {:induction false} EventUid(table: seq<Client>, s: seq<PollFd>, i: nat, read: int -> nat, uids: map<int, nat>, n: nat) returns (k: nat)
    requires Polled(s) <= Fds(table) && Recorded(table, uids) && i <= |s| <= |table| && n < |Events(Uids(table), s, i, read)|
    ensures k < |table| && !Free(table[k]) && |Places(s, i, read)| == |Events(Uids(table), s, i, read)|
    ensures
      var e, p := Events(Uids(table), s, i, read)[n], Places(s, i, read)[n];
      && p < |table| && e.uid == table[p].uid && e.fd == table[k].fd && e.fd in uids
      && (e.uid == uids[e.fd] <==> table[p].uid == table[k].uid)
    decreases |s| - i
  {
    hide ActionFor, Fds, Polled, Packed;
    var q, i' := s, i + 1;
    if Closes(s[i], read) {
      q, i' := Packed(s, i), i;
      PackedSome(s, i);
    }
    SameLength(Uids(table), q, i', read);
    if !Ready(s[i]) {
      k := EventUid(table, q, i', read, uids, n);
    } else if n > 0 {
      k := EventUid(table, q, i', read, uids, n - 1);
    } else {
      PolledAt(s, i);
      FdAt(table, s[i].fd);
      k :| 0 <= k < |table| && !Free(table[k]) && table[k].fd == s[i].fd;
    }
  }

  lemma {:induction false} SameLength(u: seq<nat>, s: seq<PollFd>, i: nat, read: int -> nat)
    requires i <= |s| <= |u|
    ensures |Places(s, i, read)| == |Events(u, s, i, read)|
    decreases |s| - i
  {
    hide ActionFor;
    if i < |s| {
      if Closes(s[i], read) {
        SameLength(u, Packed(s, i), i, read);
      } else {
        SameLength(u, s, i + 1, read);
      }
    }
  }

  lemma PackedSome(s: seq<PollFd>, i: nat)
    requires i < |s|
    ensures Polled(Packed(s, i)) <= Polled(s)
  {
    forall p <- Packed(s, i) ensures p in s {
    }
  }

  /** Two clients, of uids 1000 and 2000: the first hangs up while the second sends a request, which is handled as 1000's. */
  lemma WrongUidHappens(read: int -> nat) returns (table: seq<Client>, s: seq<PollFd>, uids: map<int, nat>)
    requires read(5) == 7
    ensures Agree(table, s) && Aligned(table, s) && Recorded(table, uids) && DifferentUids(table)
    ensures |s| == |table| == 3 && 5 in uids && uids[5] == 2000
    ensures Events(Uids(table), s, 1, read) == [Event(4, 1000, Close), Event(5, 1000, Request(7))]
  {
    table := [Client(3, 0), Client(4, 1000), Client(5, 2000)];
    s := [PollFd(3, false, false), PollFd(4, true, false), PollFd(5, false, true)];
    uids := map[3 := 0, 4 := 1000, 5 := 2000];
    ThreeAgree(table, s);
    var q := Packed(s, 1);
    assert q == [s[0], s[2]];
    assert Events(Uids(table), q, 2, read) == [];
    assert Events(Uids(table), q, 1, read) == [Event(5, 1000, Request(7))];
  }

  lemma ThreeAgree(table: seq<Client>, s: seq<PollFd>)
    requires |table| == 3 == |s| && forall i :: 0 <= i < 3 ==> table[i].fd == s[i].fd == i + 3
    ensures Agree(table, s)
  {
    assert Used(table[3..]) == 0 && Used(table[2..]) == 1 && Used(table[1..]) == 2 by {
      assert table[2..][1..] == table[3..] && table[1..][1..] == table[2..];
    }
    assert Fds(table) == {3, 4, 5} by {
      assert table[0].fd == 3 && table[1].fd == 4 && table[2].fd == 5;
    }
    assert Polled(s) == {3, 4, 5} by {
      assert s[0].fd == 3 && s[1].fd == 4 && s[2].fd == 5;
    }
  }

  /** What poll() reports for the entries. */
  function Report(s: seq<PollFd>, hup: set<int>, ins: set<int>): (r: seq<PollFd>)
    ensures |r| == |s|
  {
    seq(|s|, i requires 0 <= i < |s| => PollFd(s[i].fd, s[i].fd in hup, s[i].fd in ins))
  }

  /** The entries of a scan: what poll() reports, and after them the connection accepted in the same turn. */
  function Scanned(s: seq<PollFd>, hup: set<int>, ins: set<int>, listenfd: int, clifd: int): seq<PollFd> {
    Report(s, hup, ins) + if listenfd in ins then [PollFd(clifd, false, false)] else []
  }

  class PollServer {
    const clients: Clients
    const listenfd: int
    var pollfd: array<PollFd>
    var numfd: nat
    /** The uid of each connection as it was accepted. */
    ghost var uids: map<int, nat>

    /** Clients and entries name the same descriptors; the listener is the first entry. */
    ghost predicate Valid()
      reads this, clients, clients.client, pollfd
    {
      && 1 <= numfd <= pollfd.Length && pollfd[0].fd == listenfd
      && Agree(clients.client[..], pollfd[..numfd]) && Recorded(clients.client[..], uids)
    }

    /** Each entry's place is that of its slot. */
    ghost predicate InPlace()
      requires Valid()
      reads this, clients, clients.client, pollfd
    {
      Aligned(clients.client[..], pollfd[..numfd])
    }

    constructor (listenfd: int)
      requires listenfd >= 0
      ensures Valid() && InPlace() && fresh(clients) && fresh(clients.client) && fresh(pollfd)
      ensures this.listenfd == listenfd && Polled(pollfd[..numfd]) == {listenfd} && uids == map[listenfd := 0]
    {
      this.listenfd := listenfd;
      clients := new Clients();
      pollfd := new PollFd[NALLOC](_ => PollFd(-1, false, false));
      numfd := 1;
      uids := map[listenfd := 0];
      new;
      ghost var none: seq<Client> := clients.client[..];
      var i := clients.ClientAdd(listenfd, 0);
      pollfd[0] := PollFd(listenfd, false, false);
      Grown(none);
      AgreeAdded(none + Slots(), i, [], pollfd[0], 0);
      AcceptedAligned(none + Slots(), i, [], pollfd[0], 0);
      assert pollfd[..1] == [] + [pollfd[0]];
    }

    /** grow_pollfd() */
    method GrowPollfd()
      modifies this`pollfd
      ensures fresh(pollfd) && pollfd.Length == old(pollfd.Length) + NALLOC && pollfd[..old(pollfd.Length)] == old(pollfd[..])
    {
      var grown := new PollFd[pollfd.Length + NALLOC](_ => PollFd(-1, false, false));
      for i := 0 to pollfd.Length
        invariant pollfd == old(pollfd) && pollfd[..] == old(pollfd[..])
        invariant grown[..i] == pollfd[..i]
      {
        grown[i] := pollfd[i];
        assert grown[..i + 1] == pollfd[..i + 1];
      }
      pollfd := grown;
    }

    /** A new connection; slots that are aligned stay so. */
    method Accept(clifd: int, uid: nat)
      requires Valid() && clifd >= 0 && clifd !in Polled(pollfd[..numfd])
      modifies this`pollfd, this`numfd, this`uids, pollfd, clients, clients.client
      ensures Valid() && (pollfd == old(pollfd) || fresh(pollfd)) && (clients.client == old(clients.client) || fresh(clients.client))
      ensures numfd == old(numfd) + 1 && pollfd[..numfd] == old(pollfd[..numfd]) + [PollFd(clifd, false, false)]
      ensures uids == old(uids)[clifd := uid]
      ensures old(InPlace()) ==> InPlace()
    {
      hide Agree, Aligned, FirstFree, Recorded;
      ghost var table, s := clients.client[..], pollfd[..numfd];
      var i := clients.ClientAdd(clifd, uid);
      ghost var grown := if |clients.client[..]| == |table| then table else table + Slots();
      AcceptOk(table, grown, i, s, PollFd(clifd, false, false), uid, uids);
      uids := uids[clifd := uid];
      if numfd == pollfd.Length {
        GrowPollfd();
      }
      pollfd[numfd] := PollFd(clifd, false, false);
      numfd := numfd + 1;
      assert pollfd[..numfd] == s + [PollFd(clifd, false, false)];
    }

    /**
     The scan: each descriptor that poll() reported is serviced once, with the action due to it, though closing one moves
     the last entry into its place. The uids are those of the slots at the places where the entries are then.
     */
    method Scan(read: int -> nat) returns (served: seq<Event>)
      requires Valid()
      modifies this`numfd, pollfd, clients.client
      ensures Valid() && uids == old(uids)
      ensures served == Events(Uids(old(clients.client[..])), old(pollfd[..numfd]), 1, read)
      ensures pollfd[..numfd] == Left(old(pollfd[..numfd]), 1, read)
      ensures clients.client[..] == Table(old(clients.client[..]), old(pollfd[..numfd]), 1, read)
    {
      hide Agree, Recorded, Events, Left, Table, Packed, Uids, Freed;
      served := [];
      ghost var all, table := pollfd[..numfd], clients.client[..];
      ghost var u := Uids(table);
      var i := 1;
      AgreeSizes(table, all);
      while i < numfd
        invariant Valid() && 1 <= i <= numfd <= |u| && Uids(clients.client[..]) == u
        invariant served + Events(u, pollfd[..numfd], i, read) == Events(u, all, 1, read)
        invariant Left(pollfd[..numfd], i, read) == Left(all, 1, read)
        invariant Table(clients.client[..], pollfd[..numfd], i, read) == Table(table, all, 1, read)
        decreases numfd - i
      {
        ghost var t, s, done := clients.client[..], pollfd[..numfd], served;
        var p := pollfd[i];
        AgreeSizes(t, s);
        Turn(u, t, s, i, read, done);
        if Ready(p) {
          var a := ActionFor(p, read);
          served := served + [Event(p.fd, clients.client[i].uid, a)];
          if a.Close? {
            CloseEntry(i);
            i := i - 1;
          }
        }
        i := i + 1;
      }
      AtEnd(u, clients.client[..], pollfd[..numfd], read);
    }

    /** client_del(), and packing the array. Slots that are aligned stay so exactly when the entry is the last. */
    method CloseEntry(i: nat)
      requires Valid() && 0 < i < numfd
      modifies this`numfd, pollfd, clients.client
      ensures Valid() && pollfd[..numfd] == Packed(old(pollfd[..numfd]), i) && numfd == old(numfd) - 1
      ensures clients.client[..] == Freed(old(clients.client[..]), old(pollfd[i].fd))
      ensures old(InPlace()) ==> (InPlace() <==> i == old(numfd) - 1)
    {
      hide Agree, Aligned, Recorded, Freed, Packed;
      ghost var table, s := clients.client[..], pollfd[..numfd];
      InTable(table, s, i);
      var ok := clients.ClientDel(pollfd[i].fd);
      ghost var k: nat :| k < |table| && table[k].fd == s[i].fd && clients.client[..] == table[k := Client(-1, table[k].uid)];
      FreedOk(table, s, i, k, uids);
      PackedIs(s, i);
      if i < numfd - 1 {
        pollfd[i] := pollfd[numfd - 1];
      }
      numfd := numfd - 1;
      assert pollfd[..numfd] == Packed(s, i);
    }

    /**
     One turn of the loop: what poll() reports, perhaps a new connection, then the scan. Each event is due and comes once;
     while the slots are aligned and no entry but the last is closed, each has the recorded uid.
     */
    method Round(hup: set<int>, ins: set<int>, clifd: int, uid: nat, read: int -> nat) returns (served: seq<Event>)
      requires Valid() && clifd >= 0 && clifd !in Polled(pollfd[..numfd])
      modifies this`pollfd, this`numfd, this`uids, pollfd, clients, clients.client
      ensures Valid() && uids == if listenfd in ins then old(uids)[clifd := uid] else old(uids)
      ensures multiset(Done(served)) == Due(Report(old(pollfd[1..numfd]), hup, ins), read)
      ensures Polled(pollfd[..numfd]) == old(Polled(pollfd[..numfd])) + (if listenfd in ins then {clifd} else {}) - Closed(served)
      ensures old(InPlace()) && Steady(Scanned(old(pollfd[..numfd]), hup, ins, listenfd, clifd), 1, read) ==>
                InPlace() && RightUids(served, uids)
    {
      hide Agree, Aligned, Recorded, Due, Closed, Steady, RightUids, Events, Left, Table, Done, Polled, NoTwice;
      ghost var s := pollfd[..numfd];
      Poll(hup, ins);
      Reported(clients.client[..], s, hup, ins);
      if pollfd[0].in_ {
        Accept(clifd, uid);
        PushedFds(Report(s, hup, ins), PollFd(clifd, false, false));
      }
      ghost var table, all := clients.client[..], pollfd[..numfd];
      assert all == Scanned(s, hup, ins, listenfd, clifd);
      AgreeSizes(table, all);
      ScanFacts(table, all, read, uids);
      RoundDue(s, hup, ins, listenfd, clifd, read);
      served := Scan(read);
    }

    /** poll(): `hup` and `ins` are the descriptors that have hung up and those with something to read. */
    method Poll(hup: set<int>, ins: set<int>)
      requires Valid()
      modifies pollfd
      ensures Valid() && pollfd[..numfd] == Report(old(pollfd[..numfd]), hup, ins)
      ensures old(InPlace()) ==> InPlace()
    {
      hide Agree, Recorded;
      ghost var s := pollfd[..numfd];
      Reported(clients.client[..], s, hup, ins);
      for i := 0 to numfd
        invariant forall j :: 0 <= j < i ==> pollfd[j] == Report(s, hup, ins)[j]
        invariant forall j :: i <= j < numfd ==> pollfd[j] == s[j]
      {
        pollfd[i] := PollFd(pollfd[i].fd, pollfd[i].fd in hup, pollfd[i].fd in ins);
      }
      assert pollfd[..numfd] == Report(s, hup, ins);
    }
  }

  lemma AcceptOk(table: seq<Client>, grown: seq<Client>, i: nat, s: seq<PollFd>, p: PollFd, uid: nat, uids: map<int, nat>)
    requires Agree(table, s) && Recorded(table, uids) && (grown == table || grown == table + Slots()) && FirstFree(grown, i)
    requires p.fd >= 0 && p.fd !in Polled(s)
    ensures
      var t := grown[i := Client(p.fd, uid)];
      Agree(t, s + [p]) && Recorded(t, uids[p.fd := uid]) && (Aligned(table, s) ==> Aligned(t, s + [p]))
  {
    AgreeGrown(table, s);
    AgreeAdded(grown, i, s, p, uid);
    hide Used, DistinctFds, NoTwice, Polled;
    assert Aligned(table, s) ==> Aligned(grown, s);
    if Aligned(table, s) {
      AcceptedAligned(grown, i, s, p, uid);
    }
    assert Recorded(grown, uids);
    forall k | 0 <= k < |grown| && !Free(grown[k]) ensures grown[k].fd != p.fd {
      FdAt(grown, grown[k].fd);
    }
  }

  lemma AgreeSizes(table: seq<Client>, s: seq<PollFd>)
    requires Agree(table, s)
    ensures |s| <= |table| == |Uids(table)|
  {
  }

  lemma FreedOk(table: seq<Client>, s: seq<PollFd>, i: nat, k: nat, uids: map<int, nat>)
    requires Agree(table, s) && Recorded(table, uids) && i < |s| && k < |table| && table[k].fd == s[i].fd
    ensures
      var t := table[k := Client(-1, table[k].uid)];
      && t == Freed(table, s[i].fd) && Agree(t, Packed(s, i)) && Recorded(t, uids)
      && (Aligned(table, s) ==> (Aligned(t, Packed(s, i)) <==> i == |s| - 1))
  {
    hide Agree, Aligned, Packed;
    AgreeClosed(table, k, s, i);
    FreedIs(table, k, s, i);
    if Aligned(table, s) {
      ClosedAligned(table, s, i);
    }
  }

  lemma FreedIs(table: seq<Client>, k: nat, s: seq<PollFd>, i: nat)
    requires Agree(table, s) && i < |s| && k < |table| && table[k].fd == s[i].fd
    ensures table[k := Client(-1, table[k].uid)] == Freed(table, s[i].fd)
  {
    hide Used, NoTwice, Polled, Fds;
    assert s[i] in s;
  }

  lemma FreedUids(table: seq<Client>, fd: int)
    ensures Uids(Freed(table, fd)) == Uids(table)
  {
  }

  lemma PackedIs(s: seq<PollFd>, i: nat)
    requires i < |s|
    ensures forall j :: 0 <= j < |s| - 1 ==> Packed(s, i)[j] == s[if j == i then |s| - 1 else j]
  {
  }

  /** A turn of the loop does what the functions of the scan do at place i. */
  lemma Turn(u: seq<nat>, t: seq<Client>, s: seq<PollFd>, i: nat, read: int -> nat, done: seq<Event>)
    requires i < |s| <= |t| && u == Uids(t)
    ensures
      var a := ActionFor(s[i], read);
      var more := done + [Event(s[i].fd, t[i].uid, a)];
      if !Ready(s[i]) then
        && done + Events(u, s, i, read) == done + Events(u, s, i + 1, read)
        && Left(s, i, read) == Left(s, i + 1, read) && Table(t, s, i, read) == Table(t, s, i + 1, read)
      else if a.Close? then
        && done + Events(u, s, i, read) == more + Events(u, Packed(s, i), i, read)
        && Left(s, i, read) == Left(Packed(s, i), i, read)
        && Table(t, s, i, read) == Table(Freed(t, s[i].fd), Packed(s, i), i, read) && Uids(Freed(t, s[i].fd)) == u
      else
        && done + Events(u, s, i, read) == more + Events(u, s, i + 1, read)
        && Left(s, i, read) == Left(s, i + 1, read) && Table(t, s, i, read) == Table(t, s, i + 1, read)
  {
    hide ActionFor, Packed, Freed, Uids;
    FreedUids(t, s[i].fd);
    SlotUid(t, i);
  }

  lemma SlotUid(table: seq<Client>, i: nat)
    requires i < |table|
    ensures Uids(table)[i] == table[i].uid
  {
  }

  lemma AtEnd(u: seq<nat>, t: seq<Client>, s: seq<PollFd>, read: int -> nat)
    requires |s| <= |u|
    ensures Events(u, s, |s|, read) == [] && Left(s, |s|, read) == s && Table(t, s, |s|, read) == t
  {
  }

  /** What Scan will do, as a turn of the loop promises it. */
  lemma ScanFacts(table: seq<Client>, s: seq<PollFd>, read: int -> nat, uids: map<int, nat>)
    requires Agree(table, s) && Recorded(table, uids) && 1 <= |s| <= |table|
    ensures
      var served := Events(Uids(table), s, 1, read);
      && multiset(Done(served)) == Due(s[1..], read) && Polled(Left(s, 1, read)) == Polled(s) - Closed(served)
      && (Aligned(table, s) && Steady(s, 1, read) ==> RightUids(served, uids) && Aligned(Table(table, s, 1, read), Left(s, 1, read)))
  {
    ScanDue(Uids(table), s, 1, read);
    LeftFds(Uids(table), s, 1, read);
    hide Done, Due, Closed, Polled, NoTwice, Aligned, Steady, RightUids, Events, Left, Table, Recorded;
    if Aligned(table, s) && Steady(s, 1, read) {
      SteadyScan(table, s, 1, read, uids);
    }
  }

  /** The connection accepted in the same turn is not due. */
  lemma RoundDue(s: seq<PollFd>, hup: set<int>, ins: set<int>, listenfd: int, clifd: int, read: int -> nat)
    requires |s| >= 1
    ensures Due(Scanned(s, hup, ins, listenfd, clifd)[1..], read) == Due(Report(s[1..], hup, ins), read)
  {
    hide Due;
    var r := Report(s[1..], hup, ins);
    assert Report(s, hup, ins)[1..] == r;
    if listenfd in ins {
      assert Scanned(s, hup, ins, listenfd, clifd)[1..] == r + [PollFd(clifd, false, false)];
      NotDue(r, PollFd(clifd, false, false), read);
    } else {
      assert Scanned(s, hup, ins, listenfd, clifd)[1..] == r;
    }
  }

  lemma NotDue(s: seq<PollFd>, p: PollFd, read: int -> nat)
    requires !Ready(p)
    ensures Due(s + [p], read) == Due(s, read)
  {
    DueTurned(p, s, read);
    DueFirst(p, s, read);
  }

  lemma InTable(table: seq<Client>, s: seq<PollFd>, i: nat)
    requires Agree(table, s) && i < |s|
    ensures i < |table| && s[i].fd in Fds(table) && s[i].fd >= 0 && NoTwice(s)
  {
    PolledAt(s, i);
    hide Fds, Polled, DistinctFds, NoTwice, Used;
  }

  lemma Reported(table: seq<Client>, s: seq<PollFd>, hup: set<int>, ins: set<int>)
    requires Agree(table, s)
    ensures Agree(table, Report(s, hup, ins)) && Polled(Report(s, hup, ins)) == Polled(s) && NoTwice(Report(s, hup, ins))
  {
    hide Fds, Used, DistinctFds;
    var r := Report(s, hup, ins);
    forall f ensures f in Polled(r) <==> f in Polled(s) {
      if f in Polled(s) {
        var i :| 0 <= i < |s| && s[i].fd == f;
        assert r[i].fd == f;
      }
      if f in Polled(r) {
        var i :| 0 <= i < |r| && r[i].fd == f;
        assert s[i].fd == f;
      }
    }
  }
}
