/** A stream over a buffer in memory. */
module MemStream {
  import opened Common

  // ---- the type argument ----

  /** MS_READ, MS_WRITE, MS_APPEND, MS_TRUNCATE */
  datatype Flags = Flags(read: bool, write: bool, append: bool, truncate: bool) {
    predicate None() {
      this == NO_FLAGS
    }

    predicate Both() {
      read && write
    }
  }

  const NO_FLAGS := Flags(false, false, false, false)

  /** A type is r, w or a, followed by any number of + and b. */
  predicate GoodType(s: string) {
    |s| > 0 && s[0] in "rwa" && forall i :: 0 < i < |s| ==> s[i] in "+b"
  }

  function TypeFlags(s: string): Flags
    requires GoodType(s)
  {
    var plus := '+' in s[1..];
    Flags(s[0] == 'r' || plus, s[0] == 'w' || plus, s[0] == 'a', s[0] == 'w')
  }

  /** type_to_flags(): no flags for a string that is not a type. */
  method TypeToFlags(s: string) returns (flags: Flags)
    ensures GoodType(s) ==> flags == TypeFlags(s) && !flags.None()
    ensures !GoodType(s) ==> flags.None()
  {
    flags := NO_FLAGS;
    for i := 0 to |s|
      invariant i == 0 ==> flags.None()
      invariant i > 0 ==> !flags.None() && GoodType(s[..i]) && flags == TypeFlags(s[..i])
    {
      ghost var before := s[..i];
      assert s[..i + 1] == before + [s[i]];
      match s[i]
      case 'r' =>
        if !flags.None() {
          NotType(s, i);
          return NO_FLAGS;
        }
        flags := flags.(read := true);
      case 'w' =>
        if !flags.None() {
          NotType(s, i);
          return NO_FLAGS;
        }
        flags := flags.(write := true, truncate := true);
      case 'a' =>
        if !flags.None() {
          NotType(s, i);
          return NO_FLAGS;
        }
        flags := flags.(append := true);
      case '+' =>
        if flags.None() {
          NotType(s, i);
          return NO_FLAGS;
        }
        Longer(before, s[i]);
        flags := flags.(read := true, write := true);
      case 'b' =>
        if flags.None() {
          NotType(s, i);
          return NO_FLAGS;
        }
        Longer(before, s[i]);
      case _ =>
        NotType(s, i);
        return NO_FLAGS;
    }
    assert s[..|s|] == s;
  }

  lemma NotType(s: string, i: nat)
    requires i < |s| && (if i == 0 then s[i] !in "rwa" else s[i] !in "+b")
    ensures !GoodType(s)
  {
  }

  lemma Longer(s: string, c: char)
    requires GoodType(s) && c in "+b"
    ensures GoodType(s + [c])
    ensures TypeFlags(s + [c]) == if c == '+' then TypeFlags(s).(read := true, write := true) else TypeFlags(s)
  {
    assert (s + [c])[1..] == s[1..] + [c];
  }

  /** find_end(): the place of the first null byte, or the length. */
  method FindEnd(buf: array<Byte>) returns (off: nat)
    ensures off <= buf.Length && (forall i :: 0 <= i < off ==> buf[i] != 0) && (off < buf.Length ==> buf[off] == 0)
  {
    off := 0;
    while off < buf.Length
      invariant off <= buf.Length && forall i :: 0 <= i < off ==> buf[i] != 0
    {
      if buf[off] == 0 {
        break;
      }
      off := off + 1;
    }
  }

  // ---- a bounded byte sequence with a position ----

  /** The bytes of the stream, where it is, and the most it can hold. */
  datatype Bytes = Bytes(s: seq<Byte>, pos: nat, cap: nat)

  ghost predicate BytesOk(b: Bytes) {
    b.pos <= |b.s| <= b.cap
  }

  /** Reading gives what is there and moves past it. */
  function Read(b: Bytes, len: nat): (seq<Byte>, Bytes)
    requires b.pos <= |b.s|
  {
    var n := Min(len, |b.s| - b.pos);
    (b.s[b.pos..b.pos + n], b.(pos := b.pos + n))
  }

  /** How much of the data fits at `off`. */
  function Fits(b: Bytes, off: nat, data: seq<Byte>): nat
    requires off <= b.cap
  {
    Min(|data|, b.cap - off)
  }

  /** Writing at `off` replaces what is there, and extends the bytes when it passes their end. */
  function Write(b: Bytes, off: nat, data: seq<Byte>): Bytes
    requires off <= |b.s| <= b.cap
  {
    var n := Fits(b, off, data);
    Bytes(b.s[..off] + data[..n] + (if off + n <= |b.s| then b.s[off + n..] else []), off + n, b.cap)
  }

  /** The null byte after a write to a stream that cannot be read: at the position, or over the last byte of a full buffer. */
  function Terminated(b: Bytes): Bytes
    requires b.pos <= b.cap && b.cap > 0
  {
    var at := if b.pos < b.cap then b.pos else b.cap - 1;
    if at < |b.s| then b.(s := b.s[at := 0]) else b
  }

  datatype Whence = Set | End | Cur

  function SeekTo(b: Bytes, pos: int, whence: Whence): int {
    match whence
    case Set => pos
    case End => |b.s| + pos
    case Cur => b.pos + pos
  }

  // ---- the stream ----

  datatype Op = ReadOp(len: nat) | WriteOp(data: seq<Byte>) | SeekOp(pos: int, whence: Whence)

  /** What a call returns: bytes, a count or position, or an error. */
  datatype Result = Data(bytes: seq<Byte>) | Number(n: int) | Error

  /** What a call does to a stream open with the flags. */
  function Apply(b: Bytes, flags: Flags, op: Op): (Result, Bytes)
    requires b.pos <= |b.s| <= b.cap && b.cap > 0
  {
    match op
    case ReadOp(len) => if !flags.read then (Error, b) else (Data(Read(b, len).0), Read(b, len).1)
    case WriteOp(data) =>
      if !flags.append && !flags.write then (Error, b)
      else
        var off := if flags.append then |b.s| else b.pos;
        (Number(Fits(b, off, data)), if flags.read then Write(b, off, data) else Terminated(Write(b, off, data)))
    case SeekOp(pos, whence) =>
      var off := SeekTo(b, pos, whence);
      if off < 0 || off > |b.s| then (Error, b) else (Number(off), b.(pos := off))
  }

  lemma Spliced(buf: seq<Byte>, vsize: nat, off: nat, d: seq<Byte>)
    requires off <= vsize <= |buf| && off + |d| <= |buf|
    ensures
      var end := off + |d|;
      (buf[..off] + d + buf[end..])[..if end > vsize then end else vsize]
      == buf[..vsize][..off] + d + if end <= vsize then buf[..vsize][end..] else []
  {
  }

  class Stream {
    const buf: array<Byte>
    const rsize: nat
    var vsize: nat
    var curpos: nat
    const flags: Flags

    ghost predicate Valid()
      reads this
    {
      curpos <= vsize <= rsize == buf.Length && rsize > 0
    }

    /** The bytes between the start of the buffer and the virtual size, with the position. */
    ghost function Contents(): Bytes
      requires Valid()
      reads this, buf
    {
      Bytes(buf[..vsize], curpos, rsize)
    }

    constructor (buf: array<Byte>, vsize: nat, curpos: nat, flags: Flags)
      ensures this.buf == buf && rsize == buf.Length && this.vsize == vsize && this.curpos == curpos && this.flags == flags
    {
      this.buf, this.rsize, this.vsize, this.curpos, this.flags := buf, buf.Length, vsize, curpos, flags;
    }

    /** mstream_read() */
    method MRead(len: nat) returns (r: Result)
      requires Valid()
      modifies this`curpos
      ensures Valid() && (r, Contents()) == Apply(old(Contents()), flags, ReadOp(len))
      ensures r == Error <==> !flags.read
      ensures r != Error ==> r == Data(buf[old(curpos)..curpos]) && (curpos == old(curpos) + len || curpos == vsize <= old(curpos) + len)
    {
      if !flags.read {
        return Error;
      }
      if curpos >= vsize {
        assert buf[..vsize][curpos..curpos] == [];
        return Data([]);
      }
      var nr := Min(len, vsize - curpos);
      assert buf[..vsize][curpos..curpos + nr] == buf[curpos..curpos + nr];
      r := Data(buf[curpos..curpos + nr]);
      curpos := curpos + nr;
    }

    /** mstream_write() */
    method MWrite(data: seq<Byte>) returns (r: Result)
      requires Valid()
      modifies this`curpos, this`vsize, buf
      ensures Valid() && (r, Contents()) == Apply(old(Contents()), flags, WriteOp(data))
      ensures r == Error <==> !flags.append && !flags.write
      ensures
        var off := if flags.append then old(vsize) else old(curpos);
        r != Error ==> r == Number(curpos - off) && (curpos == off + |data| || curpos == rsize <= off + |data|)
    {
      if !flags.append && !flags.write {
        return Error;
      }
      ghost var b := Contents();
      var off := if flags.append then vsize else curpos;
      var nw := Min(|data|, rsize - off);
      Put(off, data, nw);
      if (flags.write || flags.append) && !flags.read {
        Terminate();
      }
      r := Number(nw);
    }

    /** The data copied, and a null byte after it where it extends a stream that can also be read. */
    method Put(off: nat, data: seq<Byte>, nw: nat)
      requires Valid() && off <= vsize && nw == Min(|data|, rsize - off)
      modifies this`curpos, this`vsize, buf
      ensures Valid() && Contents() == Write(old(Contents()), off, data)
    {
      Spliced(buf[..], vsize, off, data[..nw]);
      Copy(off, data[..nw]);
      ghost var after := buf[..];
      curpos := off + nw;
      if curpos > vsize {
        vsize := curpos;
        if flags.Both() && vsize < rsize {
          buf[vsize] := 0;
        }
      }
      assert buf[..vsize] == after[..vsize];
    }

    /** The null byte after a write to a stream that cannot be read. */
    method Terminate()
      requires Valid()
      modifies buf
      ensures Valid() && Contents() == Terminated(old(Contents()))
    {
      if curpos < rsize {
        buf[curpos] := 0;
      } else {
        buf[rsize - 1] := 0;
      }
      assert Contents().s == Terminated(old(Contents())).s;
    }

    /** memcpy() into the buffer. */
    method Copy(off: nat, data: seq<Byte>)
      requires off + |data| <= buf.Length
      modifies buf
      ensures buf[..] == old(buf[..off]) + data + old(buf[off + |data|..])
    {
      for i := 0 to |data|
        invariant forall j :: 0 <= j < buf.Length ==> buf[j] == if off <= j < off + i then data[j - off] else old(buf[j])
      {
        buf[off + i] := data[i];
      }
    }

    /** mstream_seek() */
    method MSeek(pos: int, whence: Whence) returns (r: Result)
      requires Valid()
      modifies this`curpos
      ensures Valid() && (r, Contents()) == Apply(old(Contents()), flags, SeekOp(pos, whence))
      ensures
        var from := if whence == Set then 0 else if whence == Cur then old(curpos) else vsize;
        if 0 <= from + pos <= vsize then r == Number(from + pos) && curpos == from + pos else r == Error && curpos == old(curpos)
    {
      var off;
      match whence {
        case Set => off := pos;
        case End => off := vsize + pos;
        case Cur => off := curpos + pos;
      }
      if off < 0 || off > vsize {
        return Error;
      }
      curpos := off;
      r := Number(off);
    }

    /** Any sequence of calls. */
    method Run(ops: seq<Op>) returns (results: seq<Result>)
      requires Valid()
      modifies this`curpos, this`vsize, buf
      ensures Valid() && (results, Contents()) == RunSpec(old(Contents()), flags, ops)
    {
      results := [];
      ghost var b := Contents();
      for i := 0 to |ops|
        invariant Valid() && (results, Contents()) == RunSpec(b, flags, ops[..i])
      {
        assert ops[..i + 1][..i] == ops[..i];
        var r;
        match ops[i] {
          case ReadOp(len) => r := MRead(len);
          case WriteOp(data) => r := MWrite(data);
          case SeekOp(pos, whence) => r := MSeek(pos, whence);
        }
        results := results + [r];
      }
      assert ops[..|ops|] == ops;
    }
  }

  /** The calls one after another on the byte sequence. */
  function RunSpec(b: Bytes, flags: Flags, ops: seq<Op>): (res: (seq<Result>, Bytes))
    requires b.pos <= |b.s| <= b.cap && b.cap > 0
    ensures res.1.pos <= |res.1.s| <= res.1.cap == b.cap && |res.0| == |ops|
    decreases |ops|
  {
    if ops == [] then ([], b)
    else
      var (rs, m) := RunSpec(b, flags, ops[..|ops| - 1]);
      var (r, e) := Apply(m, flags, ops[|ops| - 1]);
      (rs + [r], e)
  }

  /** Two reads one after the other give what one of both lengths gives, and end at the same place. */
  lemma ReadsJoin(b: Bytes, flags: Flags, m: nat, n: nat)
    requires BytesOk(b) && b.cap > 0 && flags.read
    ensures
      var (r1, b1) := Apply(b, flags, ReadOp(m));
      var (r2, b2) := Apply(b1, flags, ReadOp(n));
      && r1.Data? && r2.Data? && Apply(b, flags, ReadOp(m + n)) == (Data(r1.bytes + r2.bytes), b2)
      && b2.pos == b.pos + |r1.bytes| + |r2.bytes| && (b2.pos < |b.s| ==> |r1.bytes| == m && |r2.bytes| == n)
  {
    var k := Min(m, |b.s| - b.pos);
    var j := Min(n, |b.s| - (b.pos + k));
    assert b.s[b.pos..b.pos + k + j] == b.s[b.pos..b.pos + k] + b.s[b.pos + k..b.pos + k + j];
  }

  /** A seek goes where a seek from the start with the sum goes: from the current place, and from the end. */
  lemma SeeksAgree(b: Bytes, flags: Flags, d: int)
    requires BytesOk(b) && b.cap > 0
    ensures Apply(b, flags, SeekOp(d, Cur)) == Apply(b, flags, SeekOp(b.pos + d, Set))
    ensures Apply(b, flags, SeekOp(d, End)) == Apply(b, flags, SeekOp(|b.s| + d, Set))
    ensures 0 <= d <= |b.s| ==> Apply(b, flags, SeekOp(d, Set)) == (Number(d), b.(pos := d))
    ensures !(0 <= d <= |b.s|) ==> Apply(b, flags, SeekOp(d, Set)) == (Error, b)
  {
  }

  /** What is written to a stream open for both is read back from where it went, and all other bytes stay. */
  lemma WriteThenRead(b: Bytes, flags: Flags, data: seq<Byte>)
    requires BytesOk(b) && b.cap > 0 && flags.Both()
    ensures
      var off := if flags.append then |b.s| else b.pos;
      var n := Fits(b, off, data);
      var b1 := Apply(b, flags, WriteOp(data)).1;
      && BytesOk(b1) && b1.cap == b.cap
      && Apply(b1, flags, SeekOp(off, Set)) == (Number(off), b1.(pos := off))
      && Apply(b1.(pos := off), flags, ReadOp(n)).0 == Data(data[..n]) && (n == |data| || off + n == b.cap)
      && (forall i :: 0 <= i < |b.s| && !(off <= i < off + n) ==> b1.s[i] == b.s[i])
      && |b1.s| == if off + n > |b.s| then off + n else |b.s|
  {
    var off := if flags.append then |b.s| else b.pos;
    var n := Fits(b, off, data);
    var b1 := Write(b, off, data);
    assert b1.s[off..off + n] == data[..n];
  }

  lemma TerminatedBytes(b: Bytes)
    requires BytesOk(b) && b.cap > 0
    ensures
      var at := if b.pos < b.cap then b.pos else b.cap - 1;
      Terminated(b) != b <==> at < |b.s| && b.s[at] != 0
    ensures |Terminated(b).s| == |b.s| && Terminated(b).pos == b.pos
  {
    var at := if b.pos < b.cap then b.pos else b.cap - 1;
    if at < |b.s| {
      assert Terminated(b).s[at] == 0;
      if b.s[at] == 0 {
        assert Terminated(b).s == b.s;
      }
    }
  }

  /**
   A write to a stream that cannot be read leaves something else than what was written over what was there, because of
   the null byte after it, exactly when the write ends before the end of the stream at a byte that is not null, or fills
   the buffer, and so loses its last byte, and that is not null.
   */
  lemma TerminatorSpoils(b: Bytes, flags: Flags, data: seq<Byte>)
    requires BytesOk(b) && b.cap > 0 && !flags.read && (flags.append || flags.write)
    ensures
      var off := if flags.append then |b.s| else b.pos;
      var n := Fits(b, off, data);
      && Apply(b, flags, WriteOp(data)).0 == Number(n)
      && (Apply(b, flags, WriteOp(data)).1 != Write(b, off, data) <==>
            if off + n < b.cap then off + n < |b.s| && b.s[off + n] != 0
            else (if n > 0 then data[n - 1] else b.s[b.cap - 1]) != 0)
  {
    var off := if flags.append then |b.s| else b.pos;
    TerminatedBytes(Write(b, off, data));
  }

  /** An empty stream opened for writing: three bytes, back to the start, one byte. The second of the three is gone. */
  lemma SpoilHappens()
    ensures
      var ops := [WriteOp([1, 2, 3]), SeekOp(0, Set), WriteOp([9])];
      GoodType("w") && RunSpec(Bytes([], 0, 8), TypeFlags("w"), ops).1.s == [9, 0, 3]
  {
    var b, f := Bytes([], 0, 8), TypeFlags("w");
    var w, k, v := WriteOp([1, 2, 3]), SeekOp(0, Set), WriteOp([9]);
    var ops := [w, k, v];
    assert ops[..2] == [w, k] && [w, k][..1] == [w] && [w][..0] == [];
    var b1, b2 := Bytes([1, 2, 3], 3, 8), Bytes([1, 2, 3], 0, 8);
    assert Apply(b, f, w).1 == b1;
    assert Apply(b1, f, k).1 == b2;
    assert Write(b2, 0, [9]).s == [9, 2, 3];
    assert Apply(b2, f, v).1.s == [9, 0, 3];
    assert RunSpec(b, f, [w]).1 == b1;
    assert RunSpec(b, f, [w, k]).1 == b2;
  }

  /** fmemopen() */
  method Fmemopen(buf: array?<Byte>, size: nat, type_: string) returns (ms: Stream?)
    requires buf != null ==> buf.Length == size
    ensures ms == null <==> size == 0 || !GoodType(type_) || (buf == null && !TypeFlags(type_).Both())
    ensures ms != null ==>
      && ms.Valid() && fresh(ms) && ms.flags == TypeFlags(type_) && ms.rsize == size
      && (ms.flags.read <==> type_[0] == 'r' || '+' in type_) && (ms.flags.write <==> type_[0] == 'w' || '+' in type_)
      && (ms.flags.append <==> type_[0] == 'a') && (ms.flags.truncate <==> type_[0] == 'w')
      && (if buf == null then fresh(ms.buf) else ms.buf == buf)
      && (ms.flags.truncate ==> ms.vsize == 0 && ms.curpos == 0)
      && (!ms.flags.append && !ms.flags.truncate ==> ms.vsize == size && ms.curpos == 0)
      && (ms.flags.append ==> ms.curpos == ms.vsize && (buf == null ==> ms.vsize == 0))
      && (ms.flags.append && buf != null ==>
            (forall i :: 0 <= i < ms.vsize ==> buf[i] != 0) && (ms.vsize < size ==> buf[ms.vsize] == 0))
  {
    if size == 0 {
      return null;
    }
    var flags := TypeToFlags(type_);
    if flags.None() {
      return null;
    }
    var curpos := 0;
    var b: array<Byte>;
    if buf == null {
      if !flags.Both() {
        return null;
      }
      b := new Byte[size];
    } else {
      b := buf;
      if flags.append {
        curpos := FindEnd(b);
      }
    }
    var vsize := if flags.append then curpos else if flags.truncate then 0 else size;
    ms := new Stream(b, vsize, curpos, flags);
  }
}
