/** Passing a descriptor or an error over a socket: text, then a null byte and a status byte. */
module FdProtocol {
  import opened Common

  // ---- sending ----

  /** The results of write(), by how much there is left to write: a failure, nothing, or a part. */
  type Writes = int -> int

  ghost predicate Possible(took: Writes, n: int) {
    forall left | 0 < left <= n :: -1 <= took(left) <= left
  }

  /** No write() fails or takes nothing. */
  ghost predicate AllTake(took: Writes, n: int) {
    forall left | 0 < left <= n :: took(left) > 0
  }

  /**
   writen(): writes in as many pieces as it takes. `file` is what the other side will see: it gets the first r bytes and
   no others; -1 says that the very first write() failed, and a count short of everything that a later one did, there.
   */
  method Writen(file: seq<Byte>, data: seq<Byte>, took: Writes) returns (r: int, file': seq<Byte>)
    requires Possible(took, |data|)
    ensures -1 <= r <= |data|
    ensures file' == file + if r > 0 then data[..r] else []
    ensures r == -1 <==> data != [] && took(|data|) < 0
    ensures 0 <= r < |data| ==> took(|data| - r) <= 0
    ensures AllTake(took, |data|) ==> r == |data|
  {
    var nleft := |data|;
    file' := file;
    while nleft > 0
      invariant 0 <= nleft <= |data| && file' == file + data[..|data| - nleft]
      invariant nleft < |data| ==> took(|data|) > 0
    {
      var nwritten := took(nleft);
      if nwritten < 0 {
        if nleft == |data| {
          return -1, file';
        } else {
          break;
        }
      } else if nwritten == 0 {
        break;
      }
      var done := |data| - nleft;
      file' := file' + data[done..done + nwritten];
      nleft := nleft - nwritten;
    }
    r := |data| - nleft;
  }

  /** The status byte: the low byte of the negated code, but never 0 for an error. */
  method StatusOf(fd: int) returns (status: Byte)
    ensures status == Status(fd)
  {
    if fd < 0 {
      status := (-fd) % 256;
      if status == 0 {
        status := 1;
      }
    } else {
      status := 0;
    }
  }

  /** What recv_fd() makes of a code: the code itself where one byte can say it. */
  function Received(code: int): (r: int)
    ensures -255 <= r <= -1
  {
    if code >= 0 || code % 256 == 0 then -1 else -((-code) % 256)
  }

  function Status(fd: int): (s: Byte)
    ensures s == 0 <==> fd >= 0
  {
    if fd >= 0 then 0 else -Received(fd)
  }

  /** Error codes from -255 to -1 come through as they are; the others lose all but their low byte. */
  lemma ReceivedCodes(code: int)
    ensures -255 <= code <= -1 ==> Received(code) == code
    ensures code >= 0 ==> Received(code) == -1
    ensures code % 256 == 0 ==> Received(code) == -1
    ensures code < 0 && code % 256 != 0 ==> (Received(code) - code) % 256 == 0
  {
    if code < 0 && code % 256 != 0 {
      assert (-code) % 256 == -code - 256 * ((-code) / 256);
    }
  }

  /** send_fd(): the two-byte trailer, of which sendmsg() takes `sent` bytes; the descriptor itself goes in the control part. */
  method SendFd(file: seq<Byte>, fd: int, sent: int) returns (r: int, file': seq<Byte>, ctl: Option<int>)
    requires -1 <= sent <= 2
    ensures r == if sent == 2 then 0 else -1
    ensures file' == file + if sent > 0 then [0, Status(fd)][..sent] else []
    ensures ctl == if fd >= 0 then Some(fd) else None
  {
    var status := StatusOf(fd);
    ctl := if fd >= 0 then Some(fd) else None;
    var buf := [0, status];
    file' := file + if sent > 0 then buf[..sent] else [];
    r := if sent != 2 then -1 else 0;
  }

  /** send_err(): the message, then the code as a negative number. */
  method SendErr(file: seq<Byte>, errcode: int, msg: seq<Byte>, took: Writes, sent: int) returns (r: int, file': seq<Byte>)
    requires Possible(took, |msg|) && -1 <= sent <= 2
    ensures r == 0 || r == -1
    ensures r == 0 ==> sent == 2 && file' == file + msg + [0, Status(if errcode >= 0 then -1 else errcode)]
    ensures AllTake(took, |msg|) && sent == 2 ==> r == 0
    ensures file <= file' <= file + msg + [0, Status(if errcode >= 0 then -1 else errcode)]
  {
    file' := file;
    if |msg| > 0 {
      var n: int;
      n, file' := Writen(file', msg, took);
      if n != |msg| {
        return -1, file';
      }
    }
    var ctl;
    r, file', ctl := SendFd(file', if errcode >= 0 then -1 else errcode, sent);
  }

  // ---- receiving ----

  datatype Outcome =
    | Descriptor(fd: int)   // recv_fd() returns the new descriptor
    | Error(r: int)         // or minus the status
    | Failed                // or -1: end of file, or userfunc did not take everything
    | FormatError           // or the program ends: a null byte out of place
    | NoDescriptor          // or the program ends: status 0 without a descriptor

  /** What one read is: plain data, data and the trailer, or neither. */
  datatype Piece = Data | Trailer(status: Byte) | Malformed

  predicate NulFree(s: seq<Byte>) {
    forall i :: 0 <= i < |s| ==> s[i] != 0
  }

  function PieceOf(buf: seq<Byte>): Piece {
    if NulFree(buf) then Data
    else if |buf| >= 2 && NulFree(buf[..|buf| - 2]) && buf[|buf| - 2] == 0 then Trailer(buf[|buf| - 1])
    else Malformed
  }

  /** The data before the trailer, if there is one. */
  function Payload(buf: seq<Byte>): seq<Byte> {
    if PieceOf(buf).Trailer? then buf[..|buf| - 2] else buf
  }

  /** The scan of one buffer for the null byte. `nr` shrinks when the trailer is found. */
  method ScanBuf(buf: seq<Byte>) returns (piece: Piece, nr: nat)
    ensures piece == PieceOf(buf)
    ensures !piece.Malformed? ==> nr == |Payload(buf)| && buf[..nr] == Payload(buf)
    ensures nr <= |buf|
  {
    piece := Data;
    nr := |buf|;
    var ptr := 0;
    while ptr < nr
      invariant nr <= |buf| && (piece.Data? ==> nr == |buf| && ptr <= nr && NulFree(buf[..ptr]))
      invariant !piece.Data? ==> ptr >= nr && piece.Trailer? && piece == PieceOf(buf) && nr == |buf| - 2
      decreases |buf| - ptr
    {
      ptr := ptr + 1;
      if buf[ptr - 1] == 0 {
        if ptr != nr - 1 {
          if ptr < nr - 1 {
            assert buf[..nr - 2][ptr - 1] == 0;
          }
          return Malformed, nr;
        }
        piece := Trailer(buf[ptr]);
        assert NulFree(buf[..ptr - 1]);
        nr := nr - 2;
      } else {
        assert buf[..ptr] == buf[..ptr - 1] + [buf[ptr - 1]];
      }
    }
    if piece.Data? {
      assert buf[..ptr] == buf;
    }
  }

  /** Whether userfunc, having been handed `given`, takes all of what it is handed next. */
  type Takes = (seq<Byte>, seq<Byte>) -> bool

  /** What recv_fd() does with the reads it gets and the descriptor that comes with the trailer, and what userfunc is handed in all. */
  function Receive(bufs: seq<seq<Byte>>, ctl: Option<int>, given: seq<Byte>, takes: Takes): (Outcome, seq<Byte>) {
    if bufs == [] || bufs[0] == [] then (Failed, given)
    else
      var data := Payload(bufs[0]);
      match PieceOf(bufs[0])
      case Malformed => (FormatError, given)
      case Trailer(status) =>
        if status == 0 && ctl.None? then (NoDescriptor, given)
        else if data != [] && !takes(given, data) then (Failed, given + data)
        else (if status == 0 then Descriptor(ctl.value) else Error(-(status as int)), given + data)
      case Data =>
        if !takes(given, data) then (Failed, given + data) else Receive(bufs[1..], ctl, given + data, takes)
  }

  /** Whether userfunc takes all it is handed, up to the end of what the reads hold for it. */
  predicate TakesAll(bufs: seq<seq<Byte>>, given: seq<Byte>, takes: Takes) {
    bufs == [] || bufs[0] == [] || PieceOf(bufs[0]).Malformed? ||
    (var data := Payload(bufs[0]);
     && (data != [] ==> takes(given, data))
     && (PieceOf(bufs[0]).Data? ==> TakesAll(bufs[1..], given + data, takes)))
  }

  function Flat(bufs: seq<seq<Byte>>): seq<Byte> {
    if bufs == [] then [] else bufs[0] + Flat(bufs[1..])
  }

  /** recv_fd(): `given` is what userfunc has been handed. */
  method RecvFd(bufs: seq<seq<Byte>>, ctl: Option<int>, takes: Takes) returns (outcome: Outcome, given: seq<Byte>)
    ensures (outcome, given) == Receive(bufs, ctl, [], takes)
  {
    hide PieceOf, Payload;
    given := [];
    var i := 0;
    assert bufs[0..] == bufs;
    while true
      invariant i <= |bufs|
      invariant Receive(bufs, ctl, [], takes) == Receive(bufs[i..], ctl, given, takes)
      decreases |bufs| - i
    {
      if i == |bufs| || bufs[i] == [] {
        assert i < |bufs| ==> bufs[i..][0] == bufs[i];
        outcome := Failed;
        return;
      }
      assert bufs[i..][0] == bufs[i] && bufs[i..][1..] == bufs[i + 1..];
      var status: int, newfd: int := -1, -1;
      var piece, nr := ScanBuf(bufs[i]);
      if piece.Malformed? {
        outcome := FormatError;
        return;
      }
      if piece.Trailer? {
        status := piece.status;
        if status == 0 {
          if ctl.None? {
            outcome := NoDescriptor;
            return;
          }
          newfd := ctl.value;
        } else {
          newfd := -(piece.status as int);
        }
      }
      PieceFacts(bufs[i]);
      var data := bufs[i][..nr];
      if nr > 0 {
        var before := given;
        given := given + data;
        if !takes(before, data) {
          outcome := Failed;
          return;
        }
      } else {
        assert given + data == given;
      }
      if status >= 0 {
        outcome := if status == 0 then Descriptor(newfd) else Error(newfd);
        return;
      }
      i := i + 1;
    }
  }

  lemma PieceFacts(buf: seq<Byte>)
    ensures PieceOf(buf).Data? ==> Payload(buf) == buf
  {
  }

  // ---- the round trip ----

  ghost predicate NonEmpty(bufs: seq<seq<Byte>>) {
    forall i :: 0 <= i < |bufs| ==> bufs[i] != []
  }

  /**
   However a message and its trailer are cut into reads, the trailer is whole exactly when the last read has two bytes.
   Then, if userfunc takes all it is handed, it is handed the message and the code or descriptor comes back; if it does
   not, -1 comes back. A trailer that is cut is a format error.
   */
  lemma {:induction false} RoundTrip(msg: seq<Byte>, fd: int, bufs: seq<seq<Byte>>, ctl: Option<int>, given: seq<Byte>, takes: Takes)
    requires NulFree(msg) && Flat(bufs) == msg + [0, Status(fd)] && NonEmpty(bufs)
    requires fd >= 0 ==> ctl == Some(fd)
    ensures bufs != []
    ensures !TakesAll(bufs, given, takes) ==> Receive(bufs, ctl, given, takes).0 == Failed
    ensures TakesAll(bufs, given, takes) && |bufs[|bufs| - 1]| >= 2 ==>
      Receive(bufs, ctl, given, takes) == (if fd >= 0 then Descriptor(fd) else Error(Received(fd)), given + msg)
    ensures TakesAll(bufs, given, takes) && |bufs[|bufs| - 1]| < 2 ==> Receive(bufs, ctl, given, takes).0 == FormatError
    decreases |bufs|
  {
    hide PieceOf, Payload, NulFree, Status;
    var st := Status(fd);
    assert bufs != [];
    var first, rest := bufs[0], bufs[1..];
    StatusByte(fd);
    if rest == [] {
      assert Flat(rest) == [] && first == msg + [0, st];
      WholeTrailer(msg, st);
    } else if |first| <= |msg| {
      assert first == msg[..|first|] by {
        assert forall i :: 0 <= i < |first| ==> first[i] == Flat(bufs)[i] == msg[i];
      }
      var msg' := msg[|first|..];
      assert Flat(rest) == msg' + [0, st] by {
        assert Flat(rest) == Flat(bufs)[|first|..];
      }
      assert rest[|rest| - 1] == bufs[|bufs| - 1];
      PlainPiece(msg, |first|);
      RoundTrip(msg', fd, rest, ctl, given + first, takes);
      assert (given + first) + msg' == given + msg;
    } else {
      SplitTrailer(msg, st, first, rest);
    }
  }

  /** A stream that ends before its trailer, with the last read or with a read of nothing, is a failure, not a format error. */
  lemma {:induction false} EndsEarly(bufs: seq<seq<Byte>>, more: seq<seq<Byte>>, ctl: Option<int>, given: seq<Byte>, takes: Takes)
    requires NulFree(Flat(bufs)) && NonEmpty(bufs) && (more == [] || more[0] == [])
    ensures Receive(bufs + more, ctl, given, takes).0 == Failed
    ensures TakesAll(bufs, given, takes) ==> Receive(bufs + more, ctl, given, takes).1 == given + Flat(bufs)
    decreases |bufs|
  {
    hide PieceOf, Payload, NulFree;
    if bufs == [] {
      assert bufs + more == more && given + [] == given;
    } else {
      var first, rest := bufs[0], bufs[1..];
      assert (bufs + more)[1..] == rest + more && (bufs + more)[0] == first;
      assert Flat(bufs)[..|first|] == first && Flat(bufs)[|first|..] == Flat(rest);
      PlainPiece(Flat(bufs), |first|);
      EndsEarly(rest, more, ctl, given + first, takes);
      assert (given + first) + Flat(rest) == given + Flat(bufs);
    }
  }

  /** A trailer that announces a descriptor which does not come with it. */
  lemma NoneComes(msg: seq<Byte>, given: seq<Byte>, takes: Takes)
    requires NulFree(msg)
    ensures Receive([msg + [0, 0]], None, given, takes) == (NoDescriptor, given)
  {
    hide NulFree;
    WholeTrailer(msg, 0);
  }

  lemma StatusByte(fd: int)
    ensures if fd >= 0 then Status(fd) == 0 else Status(fd) == -Received(fd) && Status(fd) != 0
  {
  }

  lemma WholeTrailer(msg: seq<Byte>, st: Byte)
    requires NulFree(msg)
    ensures PieceOf(msg + [0, st]) == Trailer(st) && Payload(msg + [0, st]) == msg
  {
    var buf := msg + [0, st];
    assert buf[..|buf| - 2] == msg && buf[|msg|] == 0;
  }

  lemma PlainPiece(msg: seq<Byte>, n: nat)
    requires NulFree(msg) && n <= |msg|
    ensures PieceOf(msg[..n]) == Data && Payload(msg[..n]) == msg[..n] && NulFree(msg[n..])
  {
  }

  /** A read that goes past the message without ending the stream holds the null byte alone: the trailer has been split. */
  lemma SplitTrailer(msg: seq<Byte>, st: Byte, first: seq<Byte>, rest: seq<seq<Byte>>)
    requires NulFree(msg) && first + Flat(rest) == msg + [0, st] && rest != [] && |first| > |msg| && NonEmpty(rest)
    ensures PieceOf(first) == Malformed && |rest[|rest| - 1]| == 1
  {
    var all := first + Flat(rest);
    LastIn(rest);
    assert |first| == |msg| + 1;
    assert first[|msg|] == all[|msg|] == 0;
    assert first[..|msg|] == msg by {
      assert forall i :: 0 <= i < |msg| ==> first[i] == all[i] == msg[i];
    }
    if |first| >= 2 {
      assert first[|first| - 2] == msg[|msg| - 1];
    }
  }

  lemma {:induction false} LastIn(bufs: seq<seq<Byte>>)
    requires bufs != [] && NonEmpty(bufs)
    ensures 1 <= |bufs[|bufs| - 1]| <= |Flat(bufs)|
  {
    var rest := bufs[1..];
    assert |Flat(bufs)| == |bufs[0]| + |Flat(rest)|;
    if |bufs| > 1 {
      LastIn(rest);
      assert rest[|rest| - 1] == bufs[|bufs| - 1];
    }
  }

  /** An error sent is the error received, and userfunc is handed exactly the message. */
  lemma ErrorRoundTrip(msg: seq<Byte>, errcode: int, bufs: seq<seq<Byte>>, takes: Takes)
    requires NulFree(msg) && NonEmpty(bufs) && TakesAll(bufs, [], takes)
    requires Flat(bufs) == msg + [0, Status(if errcode >= 0 then -1 else errcode)]
    ensures bufs != [] && (|bufs[|bufs| - 1]| >= 2 ==> Receive(bufs, None, [], takes) == (Error(Received(errcode)), msg))
  {
    hide Receive, TakesAll, Flat;
    var code := if errcode >= 0 then -1 else errcode;
    ReceivedCodes(code);
    RoundTrip(msg, code, bufs, None, [], takes);
    assert [] + msg == msg;
  }
}
