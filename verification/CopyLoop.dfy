/**
 Copying a file through eight buffers with asynchronous reads and writes that complete in any order, each block
 translated on the way. What aio_error() reports is left to chance, except that aio_suspend() returns only when some
 operation it was given has completed.
 */
module CopyLoop {
  import opened Common

  const BSZ := 4096
  const NBUF := 8

  // ---- translate() ----

  /** The letter 13 places on, going round the alphabet that starts at `base`. */
  function Turned(base: Byte, c: Byte): (r: Byte)
    requires base + 26 <= 256 && base <= c < base + 26
    ensures base <= r < base + 26
  {
    base + (c - base + 13) % 26
  }

  function Rot13(c: Byte): Byte {
    if 'a' as int <= c <= 'z' as int then Turned('a' as int, c)
    else if 'A' as int <= c <= 'Z' as int then Turned('A' as int, c)
    else c
  }

  /** Translating twice gives the byte back, and what it does to letters keeps their case. */
  lemma Rot13Inverse(c: Byte)
    ensures Rot13(Rot13(c)) == c
    ensures 'a' as int <= c <= 'z' as int <==> 'a' as int <= Rot13(c) <= 'z' as int
    ensures 'A' as int <= c <= 'Z' as int <==> 'A' as int <= Rot13(c) <= 'Z' as int
  {
    if 'a' as int <= c <= 'z' as int {
      TurnedTwice('a' as int, c);
    } else if 'A' as int <= c <= 'Z' as int {
      TurnedTwice('A' as int, c);
    }
  }

  lemma TurnedTwice(base: Byte, c: Byte)
    requires base + 26 <= 256 && base <= c < base + 26
    ensures Turned(base, Turned(base, c)) == c && Turned(base, c) != c
  {
  }

  /** A letter of the first half of the alphabet moves 13 on, one of the second 13 back, and nothing else moves. */
  lemma Rot13Moves(c: Byte)
    ensures 'a' as int <= c <= 'm' as int || 'A' as int <= c <= 'M' as int ==> Rot13(c) == c + 13
    ensures 'n' as int <= c <= 'z' as int || 'N' as int <= c <= 'Z' as int ==> Rot13(c) == c - 13
    ensures !('a' as int <= c <= 'z' as int) && !('A' as int <= c <= 'Z' as int) ==> Rot13(c) == c
  {
  }

  method Translate(c: Byte) returns (r: Byte)
    ensures r == Rot13(c)
    ensures 'a' as int <= c <= 'm' as int || 'A' as int <= c <= 'M' as int ==> r == c + 13
    ensures 'n' as int <= c <= 'z' as int || 'N' as int <= c <= 'Z' as int ==> r == c - 13
    ensures !('a' as int <= c <= 'z' as int) && !('A' as int <= c <= 'Z' as int) ==> r == c
  {
    r := c;
    if 'a' as int <= r <= 'z' as int || 'A' as int <= r <= 'Z' as int {
      if r >= 'n' as int {
        r := r - 13;
      } else if r >= 'a' as int {
        r := r + 13;
      } else if r >= 'N' as int {
        r := r - 13;
      } else {
        r := r + 13;
      }
    }
  }

  function Map13(s: seq<Byte>): (r: seq<Byte>)
    ensures |r| == |s| && forall i :: 0 <= i < |s| ==> r[i] == Rot13(s[i])
  {
    seq(|s|, i requires 0 <= i < |s| => Rot13(s[i]))
  }

  /** Translating a translated file gives the file. */
  lemma CopyTwice(s: seq<Byte>)
    ensures Map13(Map13(s)) == s
  {
    forall i | 0 <= i < |s| ensures Map13(Map13(s))[i] == s[i] {
      Rot13Inverse(s[i]);
    }
  }

  // ---- the output file ----

  /** Bytes written at an offset; a gap before them reads as zeros. */
  function WriteAt(file: seq<Byte>, off: nat, data: seq<Byte>): (r: seq<Byte>)
    ensures |r| == if data == [] || off + |data| <= |file| then |file| else off + |data|
    ensures forall i :: 0 <= i < |data| ==> r[off + i] == data[i]
    ensures forall i :: 0 <= i < |file| && !(off <= i < off + |data|) ==> r[i] == file[i]
  {
    if data == [] then file
    else
      var f := if |file| < off then file + seq(off - |file|, _ => 0) else file;
      f[..off] + data + if off + |data| <= |file| then f[off + |data|..] else []
  }

  // ---- the buffers ----

  datatype RwOp = Unused | ReadPending | WritePending

  /** A buffer; `done` once its operation has completed. */
  datatype Buf = Buf(op: RwOp, last: bool, offset: nat, nbytes: nat, data: seq<Byte>, done: bool)

  function Busy(s: seq<Buf>): nat {
    if s == [] then 0 else (if s[0].op.Unused? then 0 else 1) + Busy(s[1..])
  }

  /** Steps still to come from the buffers: a write for each pending read, and a completion for each. */
  function Work(s: seq<Buf>): nat {
    if s == [] then 0 else Weight(s[0].op) + Work(s[1..])
  }

  function Weight(op: RwOp): nat {
    match op
    case Unused => 0
    case ReadPending => 2
    case WritePending => 1
  }

  lemma {:induction false} SetBuf(s: seq<Buf>, i: nat, b: Buf)
    requires i < |s|
    ensures Busy(s[i := b]) == Busy(s) - (if s[i].op.Unused? then 0 else 1) + (if b.op.Unused? then 0 else 1)
    ensures Work(s[i := b]) == Work(s) - Weight(s[i].op) + Weight(b.op)
  {
    if i == 0 {
      assert s[i := b][1..] == s[1..];
    } else {
      SetBuf(s[1..], i - 1, b);
      assert s[i := b][1..] == s[1..][i - 1 := b];
    }
  }

  lemma {:induction false} BusyAny(s: seq<Buf>)
    ensures Busy(s) == 0 <==> forall i :: 0 <= i < |s| ==> s[i].op.Unused?
    ensures Busy(s) == 0 ==> Work(s) == 0
  {
    if s != [] {
      BusyAny(s[1..]);
      assert forall i :: 0 < i < |s| ==> s[i] == s[1..][i - 1];
    }
  }

  /** Block k of the file. */
  function Block(input: seq<Byte>, k: nat): (r: seq<Byte>)
    requires BSZ * k < |input|
    ensures |r| == Min(BSZ, |input| - BSZ * k) > 0
  {
    input[BSZ * k..Min(BSZ * k + BSZ, |input|)]
  }

  function Blocks(size: nat): nat {
    (size + BSZ - 1) / BSZ
  }

  ghost predicate BufOk(input: seq<Byte>, off: nat, written: set<nat>, b: Buf) {
    b.op.Unused? ||
    (var k := b.offset / BSZ;
     && b.offset == BSZ * k < off && b.offset < |input| && k !in written
     && (b.last <==> b.offset + BSZ >= |input|)
     && (b.op.ReadPending? ==> b.nbytes == BSZ)
     && (b.op.WritePending? ==> b.data == Map13(Block(input, k)) && b.nbytes == |b.data|))
  }

  ghost predicate Apart(s: seq<Buf>) {
    forall i, j | 0 <= i < j < |s| && !s[i].op.Unused? && !s[j].op.Unused? :: s[i].offset != s[j].offset
  }

  ghost predicate Pending(s: seq<Buf>, k: nat) {
    exists i :: 0 <= i < |s| && !s[i].op.Unused? && s[i].offset == BSZ * k
  }

  /** The written blocks are right, and every block before `off` is written or pending. */
  ghost predicate FileOk(input: seq<Byte>, off: nat, written: set<nat>, s: seq<Buf>, output: seq<Byte>) {
    && |output| <= |input|
    && (forall k <- written :: BSZ * k < |input| && BSZ * k < off && BlockOk(input, output, k))
    && (forall k: nat :: BSZ * k < off && BSZ * k < |input| ==> k in written || Pending(s, k))
  }

  ghost predicate BlockOk(input: seq<Byte>, output: seq<Byte>, k: nat)
    requires BSZ * k < |input|
  {
    && BSZ * k + |Block(input, k)| <= |output|
    && forall j :: 0 <= j < |Block(input, k)| ==> output[BSZ * k + j] == Rot13(Block(input, k)[j])
  }

  /** The state of the copy: pending blocks are disjoint and with the written ones cover what has been asked for. */
  ghost predicate Ok(input: seq<Byte>, off: nat, written: set<nat>, s: seq<Buf>, output: seq<Byte>, numop: nat) {
    && |s| == NBUF && off % BSZ == 0 && off < |input| + BSZ
    && numop == Busy(s) && Apart(s)
    && (forall i :: 0 <= i < |s| ==> BufOk(input, off, written, s[i]) && (off < |input| ==> !s[i].last))
    && FileOk(input, off, written, s, output)
  }

  /** Strictly smaller after every read issued, every read completed and every write completed. */
  ghost function Measure(input: seq<Byte>, off: nat, s: seq<Buf>): nat {
    Work(s) + 3 * if off < |input| then Blocks(|input| - off) else 0
  }

  // ---- the three things a turn can do ----

  function Issued(b: Buf, off: nat, size: nat): Buf {
    b.(op := ReadPending, offset := off, last := b.last || off + BSZ >= size, nbytes := BSZ, done := false)
  }

  lemma IssueOk(input: seq<Byte>, off: nat, written: set<nat>, s: seq<Buf>, output: seq<Byte>, numop: nat, i: nat)
    requires Ok(input, off, written, s, output, numop) && i < |s| && s[i].op.Unused? && off < |input|
    ensures
      var s' := s[i := Issued(s[i], off, |input|)];
      && Ok(input, off + BSZ, written, s', output, numop + 1) && Measure(input, off + BSZ, s') < Measure(input, off, s)
  {
    hide Busy, Work, BlockOk;
    var b := Issued(s[i], off, |input|);
    var s' := s[i := b];
    SetBuf(s, i, b);
    assert b.offset / BSZ * BSZ == off;
    forall k: nat | BSZ * k < off + BSZ && BSZ * k < |input| ensures k in written || Pending(s', k) {
      if BSZ * k < off {
        if Pending(s, k) {
          var j :| 0 <= j < |s| && !s[j].op.Unused? && s[j].offset == BSZ * k;
          assert s'[j] == s[j];
        }
      } else {
        assert s'[i].offset == BSZ * k;
      }
    }
  }

  function Filled(input: seq<Byte>, b: Buf): Buf
    requires b.offset < |input| && b.offset % BSZ == 0
  {
    var d := Map13(Block(input, b.offset / BSZ));
    b.(op := WritePending, nbytes := |d|, data := d, done := false)
  }

  lemma ReadOk(input: seq<Byte>, off: nat, written: set<nat>, s: seq<Buf>, output: seq<Byte>, numop: nat, i: nat)
    requires Ok(input, off, written, s, output, numop) && i < |s| && s[i].op.ReadPending?
    ensures s[i].offset < |input| && s[i].offset % BSZ == 0
    ensures
      var s' := s[i := Filled(input, s[i])];
      && Ok(input, off, written, s', output, numop) && Measure(input, off, s') < Measure(input, off, s)
  {
    hide Busy, Work, BlockOk;
    var b := Filled(input, s[i]);
    var s' := s[i := b];
    SetBuf(s, i, b);
    forall k: nat | Pending(s, k) ensures Pending(s', k) {
      var j :| 0 <= j < |s| && !s[j].op.Unused? && s[j].offset == BSZ * k;
      assert s'[j].offset == s[j].offset && !s'[j].op.Unused?;
    }
  }

  lemma WriteOk(input: seq<Byte>, off: nat, written: set<nat>, s: seq<Buf>, output: seq<Byte>, numop: nat, i: nat)
    requires Ok(input, off, written, s, output, numop) && i < |s| && s[i].op.WritePending?
    ensures numop > 0
    ensures
      var s' := s[i := s[i].(op := Unused)];
      && Ok(input, off, written + {s[i].offset / BSZ}, s', WriteAt(output, s[i].offset, s[i].data), numop - 1)
      && Measure(input, off, s') < Measure(input, off, s)
  {
    hide Busy, Work, BlockOk, WriteAt;
    var b := s[i].(op := Unused);
    var s', k0 := s[i := b], s[i].offset / BSZ;
    SetBuf(s, i, b);
    BusyOne(s, i);
    assert BufOk(input, off, written, s[i]);
    var output' := WriteAt(output, s[i].offset, s[i].data);
    WrittenOk(input, output, k0);
    forall k <- written ensures BlockOk(input, output', k) {
      OthersStay(input, output, k, k0);
    }
    forall k: nat | BSZ * k < off && BSZ * k < |input| ensures k in written + {k0} || Pending(s', k) {
      if Pending(s, k) {
        var j :| 0 <= j < |s| && !s[j].op.Unused? && s[j].offset == BSZ * k;
        if j != i {
          assert s'[j] == s[j];
        }
      }
    }
    forall j | 0 <= j < |s'| ensures BufOk(input, off, written + {k0}, s'[j]) {
      assert BufOk(input, off, written, s[j]);
      if j != i && !s[j].op.Unused? {
        assert s[j].offset != s[i].offset;
      }
    }
  }

  lemma BusyOne(s: seq<Buf>, i: nat)
    requires i < |s| && !s[i].op.Unused?
    ensures Busy(s) > 0
  {
    BusyAny(s);
  }

  lemma WrittenOk(input: seq<Byte>, output: seq<Byte>, k: nat)
    requires BSZ * k < |input| && |output| <= |input|
    ensures
      var o := WriteAt(output, BSZ * k, Map13(Block(input, k)));
      BlockOk(input, o, k) && |o| <= |input|
  {
    hide WriteAt;
    var d := Map13(Block(input, k));
    var o := WriteAt(output, BSZ * k, d);
    forall j | 0 <= j < |d| ensures o[BSZ * k + j] == Rot13(Block(input, k)[j]) {
      assert o[BSZ * k + j] == d[j];
    }
  }

  /** Writing one block leaves the others as they are. */
  lemma OthersStay(input: seq<Byte>, output: seq<Byte>, k: nat, k0: nat)
    requires BSZ * k < |input| && BSZ * k0 < |input| && |output| <= |input|
    requires BlockOk(input, output, k)
    ensures BlockOk(input, WriteAt(output, BSZ * k0, Map13(Block(input, k0))), k)
  {
    hide WriteAt;
    if k == k0 {
      WrittenOk(input, output, k);
    } else {
      var d := Map13(Block(input, k0));
      var o := WriteAt(output, BSZ * k0, d);
      forall x | BSZ * k <= x < BSZ * k + |Block(input, k)| ensures o[x] == output[x] {
        assert !(BSZ * k0 <= x < BSZ * k0 + |d|);
      }
    }
  }

  /** With nothing pending and everything asked for, the output is the translated input. */
  lemma AllWritten(input: seq<Byte>, off: nat, written: set<nat>, s: seq<Buf>, output: seq<Byte>)
    requires Ok(input, off, written, s, output, 0) && off >= |input|
    ensures output == Map13(input)
  {
    BusyAny(s);
    hide Map13, BlockOk, Ok, BufOk, Apart;
    forall i | 0 <= i < |input| ensures i < |output| && output[i] == Rot13(input[i]) {
      ByteWritten(input, off, written, s, output, i);
    }
    if |input| > 0 {
      ByteWritten(input, off, written, s, output, |input| - 1);
    }
    OkLength(input, off, written, s, output);
  }

  lemma OkLength(input: seq<Byte>, off: nat, written: set<nat>, s: seq<Buf>, output: seq<Byte>)
    requires Ok(input, off, written, s, output, 0)
    ensures |output| <= |input|
  {
    hide Busy, BlockOk, BufOk, Apart;
  }

  lemma ByteWritten(input: seq<Byte>, off: nat, written: set<nat>, s: seq<Buf>, output: seq<Byte>, i: nat)
    requires Ok(input, off, written, s, output, 0) && off >= |input| > i
    ensures i < |output| && output[i] == Rot13(input[i])
  {
    BusyAny(s);
    hide Busy, BlockOk, BufOk, Apart;
    var k := i / BSZ;
    assert BSZ * k < off && BSZ * k < |input|;
    assert !Pending(s, k);
    InBlock(input, output, k, i);
  }

  lemma InBlock(input: seq<Byte>, output: seq<Byte>, k: nat, i: nat)
    requires i < |input| && k == i / BSZ && BSZ * k < |input| && BlockOk(input, output, k)
    ensures i < |output| && output[i] == Rot13(input[i])
  {
    var j := i - BSZ * k;
    assert Block(input, k)[j] == input[i] && output[BSZ * k + j] == Rot13(Block(input, k)[j]);
  }

  // ---- main() ----

  class Copier {
    const input: seq<Byte>
    const bufs: array<Buf>
    var off: nat
    var numop: nat
    var output: seq<Byte>
    ghost var written: set<nat>

    ghost predicate Valid()
      reads this, bufs
    {
      bufs.Length == NBUF && Ok(input, off, written, bufs[..], output, numop)
    }

    /** Buffer k's turn will get something done: its operation has completed, or it is free and there is more to read. */
    predicate Ready(k: nat)
      requires k < bufs.Length
      reads this, bufs
    {
      if bufs[k].op.Unused? then off < |input| else bufs[k].done
    }

    ghost function ToDo(): nat
      reads this, bufs
    {
      Measure(input, off, bufs[..])
    }

    constructor (input: seq<Byte>)
      ensures Valid() && this.input == input && off == 0 && numop == 0 && fresh(bufs)
    {
      this.input := input;
      off, numop, output, written := 0, 0, [], {};
      bufs := new Buf[NBUF](_ => Buf(Unused, false, 0, 0, [], false));
      new;
      BusyAny(bufs[..]);
    }

    /** translate() on the first n bytes of a buffer. */
    method TranslateData(d: seq<Byte>) returns (r: seq<Byte>)
      ensures r == Map13(d)
    {
      r := d;
      for j := 0 to |d|
        invariant |r| == |d|
        invariant forall x :: 0 <= x < j ==> r[x] == Rot13(d[x])
        invariant forall x :: j <= x < |d| ==> r[x] == d[x]
      {
        var c := Translate(r[j]);
        r := r[j := c];
      }
    }

    /** One buffer's turn in the scan. An operation that has completed is always seen; others may complete just now. */
    method Turn(i: nat)
      requires Valid() && i < NBUF
      modifies this`off, this`numop, this`output, this`written, bufs
      ensures Valid()
      ensures ToDo() < old(ToDo()) || (ToDo() == old(ToDo()) && off == old(off) && numop == old(numop) && bufs[..] == old(bufs[..]))
      ensures old(Ready(i)) ==> ToDo() < old(ToDo())
      ensures forall j :: 0 <= j < NBUF && j != i ==> bufs[j] == old(bufs[j])
    {
      hide Ok, Measure;
      Sizes(input, off, written, bufs[..], output, numop);
      ghost var s := bufs[..];
      var b := bufs[i];
      var completed: bool := *;
      if b.done {
        completed := true;
      }
      match b.op
      case Unused =>
        if off < |input| {
          IssueOk(input, off, written, s, output, numop, i);
          bufs[i] := Issued(b, off, |input|);
          off := off + BSZ;
          numop := numop + 1;
          assert bufs[..] == s[i := Issued(b, off - BSZ, |input|)];
        }
      case ReadPending =>
        if completed {
          ReadOk(input, off, written, s, output, numop, i);
          NoShortRead(input, off, written, s, output, numop, i);
          var n := Min(b.nbytes, |input| - b.offset);
          assert n == BSZ || b.last;
          var d := TranslateData(input[b.offset..b.offset + n]);
          bufs[i] := b.(op := WritePending, nbytes := n, data := d, done := false);
          assert bufs[..] == s[i := Filled(input, b)];
        }
      case WritePending =>
        if completed {
          WriteOk(input, off, written, s, output, numop, i);
          output := WriteAt(output, b.offset, b.data);
          written := written + {b.offset / BSZ};
          bufs[i] := b.(op := Unused);
          numop := numop - 1;
          assert bufs[..] == s[i := b.(op := Unused)];
        }
    }

    /**
     One scan over the buffers. It gets something done when an operation has completed, or when a buffer is free and
     there is more to read.
     */
    method Scan(ghost k: nat)
      requires Valid() && k < NBUF
      modifies this`off, this`numop, this`output, this`written, bufs
      ensures Valid()
      ensures ToDo() < old(ToDo()) || (ToDo() == old(ToDo()) && off == old(off) && numop == old(numop))
      ensures old(Ready(k)) ==> ToDo() < old(ToDo())
    {
      hide Ok, Measure;
      for i := 0 to NBUF
        invariant Valid() && ToDo() <= old(ToDo())
        invariant ToDo() < old(ToDo()) || (off == old(off) && numop == old(numop) && bufs[..] == old(bufs[..]))
        invariant old(Ready(k)) ==> ToDo() < old(ToDo()) || i <= k
      {
        Turn(i);
      }
    }

    /** aio_suspend(): some pending operation, any of them, has completed when it returns. */
    method Suspend() returns (ghost k: nat)
      requires Valid() && numop > 0
      modifies bufs
      ensures Valid() && ToDo() == old(ToDo())
      ensures k < NBUF && !bufs[k].op.Unused? && bufs[k].done
    {
      hide Ok, Measure;
      Sizes(input, off, written, bufs[..], output, numop);
      BusyAny(bufs[..]);
      var i: nat :| i < NBUF && !bufs[i].op.Unused?;
      k := i;
      ghost var s := bufs[..];
      DoneOk(input, off, written, s, output, numop, i);
      bufs[i] := bufs[i].(done := true);
      assert bufs[..] == s[i := s[i].(done := true)];
    }
  }

  lemma DoneOk(input: seq<Byte>, off: nat, written: set<nat>, s: seq<Buf>, output: seq<Byte>, numop: nat, i: nat)
    requires Ok(input, off, written, s, output, numop) && i < |s|
    ensures
      var s' := s[i := s[i].(done := true)];
      Ok(input, off, written, s', output, numop) && Measure(input, off, s') == Measure(input, off, s)
  {
    hide Busy, Work, BlockOk;
    var s' := s[i := s[i].(done := true)];
    SetBuf(s, i, s'[i]);
    forall k: nat | Pending(s, k) ensures Pending(s', k) {
      var j :| 0 <= j < |s| && !s[j].op.Unused? && s[j].offset == BSZ * k;
      assert s'[j].offset == s[j].offset && s'[j].op == s[j].op;
    }
  }

  lemma NothingLeft(input: seq<Byte>, off: nat, written: set<nat>, s: seq<Buf>, output: seq<Byte>)
    requires Ok(input, off, written, s, output, 0)
    ensures s[0].op.Unused?
    ensures off >= |input| ==> Measure(input, off, s) == 0
  {
    BusyAny(s);
  }

  /** Whatever order the operations complete in, the copy ends, and the output is the input translated. */
  method Copy(input: seq<Byte>) returns (output: seq<Byte>)
    ensures output == Map13(input) && |output| == |input|
    ensures
      forall i :: 0 <= i < |input| ==>
        var c := input[i];
        output[i] == if 'a' as int <= c <= 'm' as int || 'A' as int <= c <= 'M' as int then c + 13
                     else if 'n' as int <= c <= 'z' as int || 'N' as int <= c <= 'Z' as int then c - 13
                     else c
  {
    hide Ok, Measure, Map13, Rot13;
    var c := new Copier(input);
    ghost var k: nat := 0;
    while true
      invariant c.Valid() && c.input == input && k < NBUF && fresh(c.bufs) && fresh(c)
      invariant c.numop == 0 || c.Ready(k)
      decreases c.ToDo()
    {
      Sizes(input, c.off, c.written, c.bufs[..], c.output, c.numop);
      if c.numop == 0 {
        NothingLeft(input, c.off, c.written, c.bufs[..], c.output);
        k := 0;
      }
      c.Scan(k);
      if c.numop == 0 {
        if c.off >= |input| {
          break;
        }
      } else {
        k := c.Suspend();
      }
    }
    AllWritten(input, c.off, c.written, c.bufs[..], c.output);
    output := c.output;
    Moved(input);
  }

  lemma Moved(input: seq<Byte>)
    ensures
      forall i :: 0 <= i < |input| ==>
        var c := input[i];
        Map13(input)[i] == if 'a' as int <= c <= 'm' as int || 'A' as int <= c <= 'M' as int then c + 13
                           else if 'n' as int <= c <= 'z' as int || 'N' as int <= c <= 'Z' as int then c - 13
                           else c
  {
    hide Rot13;
    forall i | 0 <= i < |input|
      ensures
        var c := input[i];
        Map13(input)[i] == if 'a' as int <= c <= 'm' as int || 'A' as int <= c <= 'M' as int then c + 13
                           else if 'n' as int <= c <= 'z' as int || 'N' as int <= c <= 'Z' as int then c - 13
                           else c
    {
      Rot13Moves(input[i]);
    }
  }

  lemma Sizes(input: seq<Byte>, off: nat, written: set<nat>, s: seq<Buf>, output: seq<Byte>, numop: nat)
    requires Ok(input, off, written, s, output, numop)
    ensures |s| == NBUF && numop == Busy(s)
  {
  }

  /** A read is short only for the last block. */
  lemma NoShortRead(input: seq<Byte>, off: nat, written: set<nat>, s: seq<Buf>, output: seq<Byte>, numop: nat, i: nat)
    requires Ok(input, off, written, s, output, numop) && i < |s| && s[i].op.ReadPending?
    ensures s[i].offset < |input| && s[i].nbytes == BSZ && s[i].offset % BSZ == 0
    ensures s[i].last || |input| - s[i].offset > BSZ
    ensures input[s[i].offset..s[i].offset + Min(BSZ, |input| - s[i].offset)] == Block(input, s[i].offset / BSZ)
  {
    assert BufOk(input, off, written, s[i]);
  }
}
