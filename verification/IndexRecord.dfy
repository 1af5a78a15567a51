/** The text of one index record: its printed form and how it is read back. */
module IndexRecord {
  import opened Common
  import opened Decimal

  const PTR_SZ := 7
  const PTR_MAX := 9999999
  const IDXLEN_SZ := 4
  const IDXLEN_MIN := 6
  const IDXLEN_MAX := 1024
  const DATLEN_MIN := 2
  const DATLEN_MAX := 1024
  const SEP := ':'

  /** What a C caller can pass as a string: bytes other than NUL. */
  predicate IsCString(s: string) {
    forall c <- s :: '\0' < c < 256 as char
  }

  type CString = s: string | IsCString(s) witness ""

  /** Everything in an index record except its chain pointer. */
  datatype Body = Body(key: CString, datoff: nat, datlen: nat)

  /** The length the program prints in the record (db->idxlen): key, offset, length, two separators, newline. */
  function IdxLen(b: Body): (n: nat)
    ensures n >= 5
  {
    |b.key| + DigitCount(b.datoff) + DigitCount(b.datlen) + 3
  }

  /** The variable part of the record. */
  function Text(b: Body): (t: string)
    ensures |t| == IdxLen(b) && t[|t| - 1] == '\n'
  {
    b.key + [SEP] + Digits(b.datoff) + [SEP] + Digits(b.datlen) + "\n"
  }

  /** The bytes of the whole record: chain pointer, length, text. */
  function Size(b: Body): (n: nat)
    ensures n > PTR_SZ + IDXLEN_SZ
  {
    PTR_SZ + IDXLEN_SZ + IdxLen(b)
  }

  predicate LengthOk(b: Body) {
    IDXLEN_MIN <= IdxLen(b) <= IDXLEN_MAX
  }

  predicate DataLengthOk(datlen: int) {
    DATLEN_MIN <= datlen <= DATLEN_MAX
  }

  function PtrField(v: nat): string {
    RightJustified(PTR_SZ, v)
  }

  function LenField(len: nat): string {
    RightJustified(IDXLEN_SZ, len)
  }

  lemma FieldSizes(v: nat, len: nat)
    ensures |PtrField(v)| == PTR_SZ <==> v <= PTR_MAX
    ensures |LenField(len)| == IDXLEN_SZ <==> len < 10000
  {
    FieldWidth(PTR_SZ, v);
    FieldWidth(IDXLEN_SZ, len);
    assert Pow10(4) == 10000;
    assert Pow10(7) == 1000 * Pow10(4);
  }

  lemma PtrFieldReads(v: nat)
    ensures Atol(PtrField(v)) == v
  {
    AtolRightJustified(PTR_SZ, v, []);
    assert PtrField(v) + [] == PtrField(v);
  }

  lemma LenFieldReads(len: nat)
    ensures Atol(LenField(len)) == len
  {
    AtolRightJustified(IDXLEN_SZ, len, []);
    assert LenField(len) + [] == LenField(len);
  }

  /** strchr(): the index of the first c, or |s| when there is none. */
  function IndexOf(s: string, c: char): (i: nat)
    ensures i <= |s|
    ensures forall k :: 0 <= k < i ==> s[k] != c
    ensures i < |s| ==> s[i] == c
  {
    if s == [] || s[0] == c then 0 else 1 + IndexOf(s[1..], c)
  }

  /** Cutting at the first separator undoes the concatenation. */
  lemma SplitAtFirst(a: string, b: string)
    requires SEP !in a
    ensures IndexOf(a + [SEP] + b, SEP) == |a|
    ensures (a + [SEP] + b)[..|a|] == a
    ensures (a + [SEP] + b)[|a| + 1..] == b
  {
    var s := a + [SEP] + b;
    assert s[|a|] == SEP;
    assert forall k :: 0 <= k < |a| ==> s[k] == a[k];
  }

  /** How _db_readidx takes the text apart; None where it ends the program. */
  function Parse(t: string): Option<Body> {
    if t == [] || t[|t| - 1] != '\n' then None
    else
      var line := t[..|t| - 1];
      var i := IndexOf(line, SEP);
      if i == |line| then None
      else
        var rest := line[i + 1..];
        var j := IndexOf(rest, SEP);
        if j == |rest| || SEP in rest[j + 1..] then None
        else
          var datoff, datlen := Atol(rest[..j]), Atol(rest[j + 1..]);
          if datoff < 0 || datlen <= 0 || datlen > DATLEN_MAX || !IsCString(line[..i]) then None
          else Some(Body(line[..i], datoff, datlen))
  }

  lemma DigitsRoundTrip(n: nat)
    ensures Atol(Digits(n)) == n
    ensures SEP !in Digits(n)
  {
    AtolRightJustified(0, n, []);
    assert Digits(n) + [] == Digits(n);
  }

  /** The line of a record, without its newline, split at the key. */
  lemma LineOf(b: Body) returns (line: string, tail: string)
    ensures Text(b) == line + "\n"
    ensures line == b.key + [SEP] + tail
    ensures tail == Digits(b.datoff) + [SEP] + Digits(b.datlen)
  {
    tail := Digits(b.datoff) + [SEP] + Digits(b.datlen);
    line := b.key + [SEP] + tail;
    assert Text(b) == line + "\n";
  }

  /** Printing then reading gives the record back when the key has no separator in it ... */
  lemma TextRoundTrip(b: Body)
    requires 1 <= b.datlen <= DATLEN_MAX
    requires SEP !in b.key
    ensures Parse(Text(b)) == Some(b)
  {
    var line, tail := LineOf(b);
    assert Text(b)[..|Text(b)| - 1] == line;
    SplitAtFirst(b.key, tail);
    DigitsRoundTrip(b.datoff);
    DigitsRoundTrip(b.datlen);
    SplitAtFirst(Digits(b.datoff), Digits(b.datlen));
  }

  /** ... and ends the program whenever the key has one. */
  lemma SeparatorInKey(b: Body)
    requires SEP in b.key
    ensures Parse(Text(b)) == None
  {
    var line, tail := LineOf(b);
    assert Text(b)[..|Text(b)| - 1] == line;
    var i := IndexOf(b.key, SEP);
    var x, y := b.key[..i], b.key[i + 1..];
    var rest := y + [SEP] + tail;
    assert line == x + [SEP] + rest;
    SplitAtFirst(x, rest);
    AfterFirst(y, tail);
  }

  /** A text with two separators still has one after its first. */
  lemma AfterFirst(y: string, tail: string)
    requires SEP in tail
    ensures
      var rest := y + [SEP] + tail;
      var j := IndexOf(rest, SEP);
      j < |rest| && SEP in rest[j + 1..]
  {
    var rest := y + [SEP] + tail;
    if SEP in y {
      var j := IndexOf(y, SEP);
      var u, v := y[..j], y[j + 1..];
      assert rest == u + [SEP] + (v + [SEP] + tail);
      SplitAtFirst(u, v + [SEP] + tail);
    } else {
      SplitAtFirst(y, tail);
    }
  }

  /** What is in the file: a pointer, a length and the text of a record, as they are printed. */
  lemma PrintedRecord()
    ensures PtrField(2046) == "   2046" && LenField(10) == "  10" && Text(Body("Alpha", 70, 6)) == "Alpha:70:6\n"
  {
    assert Digits(2046) == "2046" by {
      assert Digits(20) == "20" && Digits(204) == "204";
    }
    assert Blanks(3) == "   " && Blanks(2) == "  ";
    assert Digits(10) == "10" && Digits(70) == "70" && Digits(6) == "6";
  }
}
