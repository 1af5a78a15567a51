/** What clients told the print daemon, read off the moves of a run: the connection each thread is serving, move by move. */
module SpoolTold {
  import opened Common
  import opened PrintQueue
  import opened Spooler

  ghost predicate Leads(s: State, moves: seq<Move>, s': State)
    decreases |moves|
  {
    if moves == [] then s' == s else Enabled(s, moves[0]) && Leads(Next(s, moves[0]), moves[1..], s')
  }

  function After(s: State, moves: seq<Move>): State
    decreases |moves|
  {
    if moves == [] then s else Next(After(s, moves[..|moves| - 1]), moves[|moves| - 1])
  }

  lemma {:induction false} AfterFirst(s: State, moves: seq<Move>)
    requires moves != []
    ensures After(s, moves) == After(Next(s, moves[0]), moves[1..])
    decreases |moves|
  {
    hide Next;
    if |moves| > 1 {
      AfterFirst(s, moves[..|moves| - 1]);
      assert moves[..|moves| - 1][1..] == moves[1..][..|moves| - 2];
    } else {
      assert moves[..0] == [] && moves[1..] == [];
      assert After(s, []) == s;
    }
  }

  /** A run up to its last move, and the last move. */
  lemma {:induction false} LeadsLast(s: State, moves: seq<Move>, s': State)
    requires Leads(s, moves, s')
    ensures s' == After(s, moves)
    ensures moves != [] ==>
      var t := After(s, moves[..|moves| - 1]);
      Leads(s, moves[..|moves| - 1], t) && Enabled(t, moves[|moves| - 1]) && s' == Next(t, moves[|moves| - 1])
    decreases |moves|
  {
    hide Next, Enabled;
    if |moves| == 1 {
      assert moves[..0] == [];
      assert After(s, []) == s && moves[1..] == [];
    } else if |moves| > 1 {
      var rest, early := moves[1..], moves[..|moves| - 1];
      LeadsLast(Next(s, moves[0]), rest, s');
      AfterFirst(s, moves);
      AfterFirst(s, early);
      assert early[1..] == rest[..|rest| - 1] && early[0] == moves[0];
    }
  }

  /** The moves of thread c since it took up the connection it is serving. */
  function Own(s: State, moves: seq<Move>, c: nat): seq<Move>
    decreases |moves|
  {
    if moves == [] then []
    else
      var n := |moves| - 1;
      var t, m := After(s, moves[..n]), moves[n];
      if m.Crash? then []
      else if m.ByClient? && m.c == c && c < |t.d.clients| then
        if ClientNext(t.d, t.d.clients[c], m).Idle? then [] else Own(s, moves[..n], c) + [m]
      else Own(s, moves[..n], c)
  }

  /** The pieces of the file, one after another. */
  function Pieces(ms: seq<Move>): seq<nat> {
    if ms == [] then [] else Pieces(ms[..|ms| - 1]) + (if ms[|ms| - 1].ByClient? then ms[|ms| - 1].piece else [])
  }

  /** Each brings another piece. */
  predicate Sending(ms: seq<Move>) {
    forall i :: 0 <= i < |ms| ==> ms[i].ByClient? && ms[i].ok && ms[i].more && ms[i].piece != []
  }

  predicate PostScript(piece: seq<nat>) {
    |piece| >= 4 && piece[0] == '%' as nat && piece[1] == '!' as nat && piece[2] == 'P' as nat && piece[3] == 'S' as nat
  }

  /** The request as it is kept: PR_TEXT, the lowest flag, is set if there is a file and it does not begin as PostScript does. */
  predicate Marked(req: Req, ms: seq<Move>, kept: Req) {
    && kept.size == req.size && kept.usernm == req.usernm && kept.jobnm == req.jobnm
    && (ms == [] || (ms[0].ByClient? && PostScript(ms[0].piece)) ==> kept.flags == req.flags)
    && (ms != [] && ms[0].ByClient? && !PostScript(ms[0].piece) ==> kept.flags % 2 == 1 && kept.flags / 2 == req.flags / 2)
  }

  /** The request of the first move and, from the fourth on, the whole file, of which `last` moves tell nothing. */
  predicate Heard(own: seq<Move>, last: nat, req: Req, data: seq<nat>) {
    && |own| >= 3 + last && own[0].ByClient? && Sending(own[3..|own| - last])
    && data == Pieces(own[3..|own| - last]) && Marked(own[0].req, own[3..|own| - last], req)
  }

  /** What a thread holds of its connection is what it has been told in it. */
  predicate Told(pc: ClientPc, own: seq<Move>) {
    match pc
    case NewNumber(req) => |own| == 1 && own[0].ByClient? && own[0].req == req
    case CreatData(_, req) => |own| == 2 && own[0].ByClient? && own[0].req == req
    case Store(_, req, got) => Heard(own, 0, req, got)
    case CreatReq(_, req, got) => Heard(own, 1, req, got)
    case WriteReq(_, req, got) => Heard(own, 2, req, got)
    case _ => true
  }

  lemma StartsTold(own: seq<Move>, req: Req)
    requires |own| == 3 && own[0].ByClient? && own[0].req == req
    ensures Heard(own, 0, req, [])
  {
    assert own[3..] == [];
  }

  lemma MoreTold(own: seq<Move>, m: Move, req: Req, got: seq<nat>)
    requires Heard(own, 0, req, got) && m.ByClient? && m.ok && m.more && m.piece != []
    ensures Heard(own + [m], 0, if got == [] then Flagged(req, m.piece) else req, got + m.piece)
  {
    var ms, more := own[3..], (own + [m])[3..];
    assert more == ms + [m] && more[..|more| - 1] == ms;
    assert own[3..|own|] == ms && (own + [m])[3..|own| + 1] == more;
    if ms == [] {
      FlaggedMarks(req, m, own[0].req);
    } else {
      NotEmpty(ms);
      assert more[0] == ms[0];
    }
  }

  lemma FlaggedMarks(req: Req, m: Move, req0: Req)
    requires Marked(req0, [], req) && m.ByClient?
    ensures Marked(req0, [m], Flagged(req, m.piece))
  {
    var p := m.piece;
    if |p| >= 4 {
      assert p[..4] == [p[0], p[1], p[2], p[3]];
    }
  }

  lemma NotEmpty(ms: seq<Move>)
    requires Sending(ms) && ms != []
    ensures Pieces(ms) != []
  {
  }

  lemma EndTold(own: seq<Move>, m: Move, last: nat, req: Req, got: seq<nat>)
    requires Heard(own, last, req, got)
    ensures Heard(own + [m], last + 1, req, got)
  {
    assert (own + [m])[3..|own| + 1 - (last + 1)] == own[3..|own| - last];
  }

  /** One move of the thread itself. */
  lemma ToldNext(d: Daemon, pc: ClientPc, m: Move, own: seq<Move>)
    requires m.ByClient? && Told(pc, own) && (pc.Idle? ==> own == []) && (m.more ==> m.piece != [])
    ensures !ClientNext(d, pc, m).Idle? ==> Told(ClientNext(d, pc, m), own + [m])
  {
    hide Heard, Flagged;
    match pc
    case Idle => assert own + [m] == [m];
    case CreatData(_, req) =>
      if m.ok {
        StartsTold(own + [m], req);
      }
    case Store(_, req, got) =>
      if m.ok && m.more {
        MoreTold(own, m, req, got);
      } else if m.ok {
        EndTold(own, m, 0, req, got);
      }
    case CreatReq(_, req, got) =>
      if m.ok {
        EndTold(own, m, 1, req, got);
      }
    case _ =>
  }

  /** In every run, every thread holds what it has been told. */
  lemma {:induction false} AllTold(s: State, moves: seq<Move>, s': State, c: nat)
    requires Initial(s) && Leads(s, moves, s') && c < |s'.d.clients|
    ensures Told(s'.d.clients[c], Own(s, moves, c)) && (s'.d.clients[c].Idle? ==> Own(s, moves, c) == [])
    decreases |moves|
  {
    hide Leads, Told, Next, Enabled, Initial;
    LeadsLast(s, moves, s');
    if moves == [] {
      BeginsIdle(s, c);
    } else {
      var n := |moves| - 1;
      var t, m := After(s, moves[..n]), moves[n];
      NextClients(t, m, c);
      if !m.Crash? {
        AllTold(s, moves[..n], t, c);
        if m.ByClient? && m.c == c {
          ToldNext(t.d, t.d.clients[c], m, Own(s, moves[..n], c));
        }
      }
      IdleTold(s'.d.clients[c], Own(s, moves, c));
    }
  }

  lemma BeginsIdle(s: State, c: nat)
    requires Initial(s) && c < |s.d.clients|
    ensures s.d.clients[c].Idle? && Told(s.d.clients[c], []) && After(s, []) == s
  {
  }

  lemma IdleTold(pc: ClientPc, own: seq<Move>)
    ensures pc.Idle? ==> Told(pc, own)
  {
  }

  /** Where a move takes thread c. */
  lemma NextClients(s: State, m: Move, c: nat)
    requires Enabled(s, m) && c < |Next(s, m).d.clients|
    ensures c < |s.d.clients|
    ensures
      Next(s, m).d.clients[c] ==
        if m.Crash? then Idle else if m.ByClient? && m.c == c then ClientNext(s.d, s.d.clients[c], m) else s.d.clients[c]
    ensures m.ByClient? && m.more ==> m.piece != []
  {
    hide ClientNext, ClientData, ClientReqs, PrinterNext, PrinterQueue, PrinterHistory;
  }

  // ---- accepted jobs ----

  /** Move k is the one in which thread c had the request of the job written, after hearing just this request and file. */
  ghost predicate Accepted(s: State, moves: seq<Move>, k: nat, c: nat, id: nat, req: Req, data: seq<nat>) {
    && k < |moves| && moves[k].ByClient? && moves[k].c == c && moves[k].ok && c < |After(s, moves[..k]).d.clients|
    && After(s, moves[..k]).d.clients[c] == WriteReq(id, req, data)
    && Heard(Own(s, moves[..k], c), 2, req, data)
  }

  /** Every accepted job is one that a client has asked for, whole: its data are the pieces the client sent. */
  lemma {:induction false} SentTold(s: State, moves: seq<Move>, s': State, id: nat) returns (k: nat, c: nat)
    requires Initial(s) && Leads(s, moves, s') && id in s'.h.sent
    ensures Accepted(s, moves, k, c, id, s'.h.sent[id].0, s'.h.sent[id].1)
    decreases |moves|
  {
    hide Leads, Told, Next, Enabled, Initial, Heard;
    k, c := 0, 0;
    LeadsLast(s, moves, s');
    if moves == [] {
      NothingSent(s, id);
    } else {
      var n := |moves| - 1;
      var t, m := After(s, moves[..n]), moves[n];
      NextSent(t, m);
      if m.ByClient? && t.d.clients[m.c].WriteReq? && m.ok && t.d.clients[m.c].id == id {
        k, c := n, m.c;
        AllTold(s, moves[..n], t, c);
        WriteTold(t.d.clients[c], Own(s, moves[..n], c));
      } else {
        k, c := SentTold(s, moves[..n], t, id);
        assert moves[..n][..k] == moves[..k] && moves[..n][k] == moves[k];
      }
    }
  }

  lemma NothingSent(s: State, id: nat)
    requires Initial(s)
    ensures id !in s.h.sent
  {
  }

  lemma WriteTold(pc: ClientPc, own: seq<Move>)
    requires pc.WriteReq? && Told(pc, own)
    ensures Heard(own, 2, pc.req, pc.got)
  {
    hide Heard;
  }

  /** A job is accepted by the write of its request, and in no other way. */
  lemma NextSent(s: State, m: Move)
    requires Enabled(s, m)
    ensures m.ByClient? ==> m.c < |s.d.clients|
    ensures
      Next(s, m).h.sent ==
        if m.ByClient? && s.d.clients[m.c].WriteReq? && m.ok
        then s.h.sent[s.d.clients[m.c].id := (s.d.clients[m.c].req, s.d.clients[m.c].got)]
        else s.h.sent
  {
    hide ClientNext, ClientData, ClientReqs, PrinterNext, PrinterQueue;
  }
}
