/** The invariant is kept, step by step, and each step is a step of the one-lock table or none. */
module FooProof {
  import opened Common
  import opened FooSpec
  import opened FooThreads
  import opened FooInvariant

  /** How a step moves the two kinds of lock, and the thread's holdings with them. */
  lemma LocksMove(s: State, t: nat, ch: Choice)
    requires t < |s.thr| && Enabled(s, t, ch)
    ensures
      var s', pc, pc' := Next(s, t, ch), s.thr[t], Next(s, t, ch).thr[t];
      && s'.thr == s.thr[t := pc']
      && (if HoldsHash(pc) == HoldsHash(pc') then s'.hash == s.hash
          else if HoldsHash(pc') then s.hash.None? && s'.hash == Some(t) else s'.hash == None)
      && (if HoldsF(pc) == HoldsF(pc') then s'.flock == s.flock
          else if HoldsF(pc) == None then HoldsF(pc').value !in s.flock && s'.flock == s.flock[HoldsF(pc').value := t]
          else HoldsF(pc') == None && s'.flock == s.flock - {HoldsF(pc).value})
  {
    hide HashOf, HeapAfter, HeadsAfter, RefsAfter, Head, At, MayCall, Start;
    StartPlain(ch.op, ch.r);
  }

  lemma StartPlain(op: Op, r: nat)
    ensures !HoldsHash(Start(op, r)) && HoldsF(Start(op, r)) == None && Outside(Start(op, r)) == None
  {
  }

  lemma LocksKept(s: State, t: nat, ch: Choice)
    requires LocksOk(s) && t < |s.thr| && Enabled(s, t, ch)
    ensures LocksOk(Next(s, t, ch))
  {
    hide Next, Enabled, HoldsHash, HoldsF;
    LocksMove(s, t, ch);
  }

  /** A call begins with the caller's reference, a made or found object brings a new one, and a call's end lets go of it. */
  lemma UsesMove(s: State, t: nat, ch: Choice)
    requires t < |s.thr| && Enabled(s, t, ch)
    ensures
      var pc, pc' := s.thr[t], Next(s, t, ch).thr[t];
      if pc.Idle? then pc' == Start(ch.op, ch.r)
      else if (pc.AllocMalloc? && ch.p != 0) || pc.FindInc? then
        Uses(pc) == None && Uses(pc') == Some(ch.r) && pc'.p == RefsAfter(s, pc, ch)[ch.r] && ch.r !in s.refs && !InHold(pc')
      else Uses(pc') == None || (Uses(pc') == Uses(pc) && pc'.p == pc.p && InHold(pc') == InHold(pc))
  {
    hide HashOf, HeapAfter, HeadsAfter, HashAfter, FlockAfter, Head, At, MayCall, Start;
  }

  /** What a step does to the references. */
  lemma RefsMove(s: State, t: nat, ch: Choice)
    requires t < |s.thr| && Enabled(s, t, ch)
    ensures
      var pc, pc', refs' := s.thr[t], Next(s, t, ch).thr[t], Next(s, t, ch).refs;
      || refs' == s.refs
      || (ch.r !in s.refs && refs' == s.refs[ch.r := if ch.r in refs' then refs'[ch.r] else 0])
      || (Uses(pc).Some? && !InHold(pc) && Uses(pc') == None && refs' == s.refs - {Uses(pc).value})
  {
    hide HashOf, HeapAfter, HeadsAfter, HashAfter, FlockAfter, Head, At, MayCall, Start;
  }

  lemma UsesKept(s: State, t: nat, ch: Choice)
    requires UsesOk(s) && t < |s.thr| && Enabled(s, t, ch)
    ensures UsesOk(Next(s, t, ch))
  {
    UsesMove(s, t, ch);
    RefsMove(s, t, ch);
    StartUses(s, t, ch);
    RefsBring(s, t, ch);
    var s' := Next(s, t, ch);
    assert s'.thr == s.thr[t := s'.thr[t]];
    hide Next, Enabled, Uses, InHold, Start, RefsAfter;
  }

  lemma RefsBring(s: State, t: nat, ch: Choice)
    requires t < |s.thr|
    ensures Next(s, t, ch).refs == RefsAfter(s, s.thr[t], ch)
    ensures (s.thr[t].AllocMalloc? && ch.p != 0) || s.thr[t].FindInc? ==> ch.r in Next(s, t, ch).refs
    ensures s.thr[t].Idle? ==> Next(s, t, ch).refs == s.refs
  {
  }

  /** The reference a caller brings. */
  lemma StartUses(s: State, t: nat, ch: Choice)
    requires t < |s.thr| && s.thr[t].Idle? ==> Enabled(s, t, ch)
    requires t < |s.thr|
    ensures
      s.thr[t].Idle? && Uses(Start(ch.op, ch.r)).Some? ==>
        && Uses(Start(ch.op, ch.r)) == Some(ch.r) && ch.r in s.refs && s.refs[ch.r] == Start(ch.op, ch.r).p
        && forall u | 0 <= u < |s.thr| && u != t && Uses(s.thr[u]) == Some(ch.r) :: InHold(s.thr[u]) && InHold(Start(ch.op, ch.r))
  {
  }

  lemma Member(refs: map<nat, nat>, r: nat, p: nat)
    requires r in refs && refs[r] == p
    ensures r in RefsTo(refs, p) && |RefsTo(refs, p)| >= 1
  {
    assert {r} <= RefsTo(refs, p);
  }

  lemma OnlyMember(refs: map<nat, nat>, r: nat, q: nat, p: nat)
    requires r in refs && refs[r] == p && q in refs && refs[q] == p && |RefsTo(refs, p)| == 1
    ensures r == q
  {
    var m := RefsTo(refs, p);
    assert r in m && q in m;
    assert |m - {r}| == 0;
  }

  /** An object some thread uses a reference to is in memory; and unless that thread has it outside, it is in the table. */
  lemma UsedFacts(s: State, a: Abs, u: nat)
    requires Inv(s, a) && u < |s.thr| && Uses(s.thr[u]).Some?
    ensures s.thr[u].p in s.heap && s.thr[u].p != 0 && s.heap[s.thr[u].p].count >= 1
    ensures Outside(s.thr[u]).None? ==> s.thr[u].p in a.t.count
  {
    hide LocksOk, SafeOk, BucketsOk, ThreadOk;
    var p, r := s.thr[u].p, Uses(s.thr[u]).value;
    Member(s.refs, r, p);
    if p !in a.t.count {
      var v := a.out[p];
      OutsideUses(s.thr[v]);
      if v != u {
        OnlyMember(s.refs, r, Uses(s.thr[v]).value, p);
      }
    }
  }

  lemma OutsideUses(pc: Pc)
    requires Outside(pc).Some?
    ensures Uses(pc).Some? && !InHold(pc) && pc.p == Outside(pc).value
  {
  }

  /** Two threads with an object outside, or about to be freed and used, are one. */
  lemma OutsideAlone(s: State, a: Abs, u: nat, v: nat)
    requires Inv(s, a) && u < |s.thr| && v < |s.thr| && Outside(s.thr[u]).Some?
    requires Uses(s.thr[v]).Some? && s.thr[v].p == s.thr[u].p
    ensures u == v
  {
    hide LocksOk, SafeOk, BucketsOk, ThreadOk, MemoryOk;
    OutsideUses(s.thr[u]);
    if u != v {
      OnlyMember(s.refs, Uses(s.thr[u]).value, Uses(s.thr[v]).value, s.thr[u].p);
    }
  }

  lemma InvTable(s: State, a: Abs)
    requires Inv(s, a)
    ensures TableOk(a.t) && a.t.count.Keys <= s.heap.Keys && 0 !in s.heap
  {
    hide LocksOk, SafeOk, ThreadOk, OutOk, UsesOk, CountsOk, TableOk, Links;
  }

  lemma FoundLive(t: Table<nat>, id: int, p: nat)
    requires TableOk(t) && Lookup(t, id) == Some(p)
    ensures p in t.count && t.id[p] == id
  {
    LookupIsNewest(t, id);
  }

  lemma CursorLive(s: State, a: Abs, id: int, c: nat, n: nat)
    requires Inv(s, a) && Cursor(a, id, c, n)
    ensures c in a.t.count && c in s.heap && c != 0 && c in a.t.id && s.heap[c].id == a.t.id[c] && HashOf(a.t.id[c]) == HashOf(id)
    ensures s.heap[c].next == Target(a.t.buckets[HashOf(id)], n + 1)
  {
    hide LocksOk, SafeOk, ThreadOk, OutOk, UsesOk, CountsOk, Ordered, HashOf;
    assert In(a.t.buckets, HashOf(id), c);
    assert Links(s.heap, s.fh[HashOf(id)], a.t.buckets[HashOf(id)]);
  }

  /** Every pointer a step follows points into memory. */
  lemma NoWildPointer(s: State, a: Abs, t: nat)
    requires Inv(s, a) && t < |s.thr|
    ensures Touches(s.thr[t]) != 0 ==> Touches(s.thr[t]) in s.heap
    ensures Uses(s.thr[t]).Some? || HoldsF(s.thr[t]).Some? ==> s.thr[t].p in s.heap
  {
    hide Inv, HashOf, TableOk, Touches, Uses, HoldsF, Lookup;
    var pc := s.thr[t];
    InvTable(s, a);
    ThreadFacts(s, a, t);
    TouchKinds(pc);
    if Uses(pc).Some? {
      UsedFacts(s, a, t);
    }
    if HoldsF(pc).Some? {
      HeldFacts(s, a, t);
    }
    if pc.FindWalk? {
      CursorLive(s, a, pc.id, pc.c, pc.n);
    } else if pc.FindFLock? || pc.FindInc? {
      FoundLive(a.t, pc.id, pc.p);
    } else if pc.ReleWalk? {
      CursorLive(s, a, s.heap[pc.p].id, pc.c, pc.n);
    }
  }

  /** What a step follows is the cursor of a walk, or the object of the call. */
  lemma TouchKinds(pc: Pc)
    ensures HoldsF(pc).Some? ==> pc.p == HoldsF(pc).value
    ensures pc.FindWalk? || pc.ReleWalk? ==> Touches(pc) == pc.c
    ensures !pc.FindWalk? && !pc.ReleWalk? && Touches(pc) != 0 ==>
      (Uses(pc).Some? || HoldsF(pc).Some? || pc.FindFLock? || pc.FindInc?) && Touches(pc) == pc.p
  {
  }

  lemma ThreadFacts(s: State, a: Abs, t: nat)
    requires Inv(s, a) && t < |s.thr|
    ensures ThreadOk(s, a, s.thr[t])
  {
    hide LocksOk, SafeOk, ThreadOk, OutOk, UsesOk, CountsOk, MemoryOk, BucketsOk;
  }

  lemma HeldFacts(s: State, a: Abs, t: nat)
    requires Inv(s, a) && t < |s.thr| && HoldsF(s.thr[t]).Some?
    ensures HoldsF(s.thr[t]).value in s.flock && s.flock[HoldsF(s.thr[t]).value] == t && HoldsF(s.thr[t]).value in s.heap
  {
    hide ThreadOk, OutOk, UsesOk, CountsOk, MemoryOk, BucketsOk;
  }
}
