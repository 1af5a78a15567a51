/** The bytes of the two files, and the reads and writes the program makes in them. */
module DbBytes {
  import opened Common
  import opened Decimal
  import opened IndexRecord
  import opened DbStore
  import opened Links

  /** write() of s at offset o; past the end of the file it extends it. */
  function Overwrite(f: string, o: nat, s: string): (g: string)
    requires o <= |f|
    ensures |g| == Max(|f|, o + |s|)
    ensures g[o..o + |s|] == s
  {
    f[..o] + s + if o + |s| <= |f| then f[o + |s|..] else []
  }

  lemma OutsideWrite(f: string, o: nat, s: string, x: nat, y: nat)
    requires o <= |f| && x <= y <= |f|
    requires y <= o || o + |s| <= x
    ensures Overwrite(f, o, s)[x..y] == f[x..y]
  {
  }

  lemma OverlaidSlice(f: string, o: nat, s: string, x: nat, y: nat)
    requires o <= |f| && x <= y <= |s|
    ensures Overwrite(f, o, s)[o + x..o + y] == s[x..y]
  {
    assert Overwrite(f, o, s)[o..o + |s|][x..y] == Overwrite(f, o, s)[o + x..o + y];
  }

  /** The bytes of a record after its chain pointer. */
  function Tail(b: Body): string {
    LenField(IdxLen(b)) + Text(b)
  }

  function RecordBytes(v: nat, b: Body): string {
    PtrField(v) + Tail(b)
  }

  lemma RecordSize(v: nat, b: Body)
    requires v <= PTR_MAX && LengthOk(b)
    ensures |PtrField(v)| == PTR_SZ && |Tail(b)| == Size(b) - PTR_SZ && |RecordBytes(v, b)| == Size(b)
  {
    FieldSizes(v, IdxLen(b));
  }

  predicate FieldAt(f: string, l: nat, v: nat) {
    l + PTR_SZ <= |f| && f[l..l + PTR_SZ] == PtrField(v)
  }

  predicate TailAt(f: string, o: nat, b: Body) {
    o + Size(b) <= |f| && f[o + PTR_SZ..o + Size(b)] == Tail(b)
  }

  /** The index file holds these pointer fields and records, and nothing else. */
  ghost predicate IndexBytes(f: string, s: Files) {
    && |f| == s.iend && BASE <= |f| && f[BASE - 1] == '\n'
    && (forall l <- s.ptr :: FieldAt(f, l, s.ptr[l]))
    && (forall o <- s.body :: TailAt(f, o, s.body[o]))
  }

  predicate DataAt(f: string, d: nat, t: string) {
    d + |t| + 1 <= |f| && f[d..d + |t| + 1] == t + "\n"
  }

  ghost predicate DataBytes(f: string, s: Files) {
    && |f| == s.dend
    && forall d <- s.dat :: DataAt(f, d, s.dat[d])
  }

  lemma FileLengths(f: string, g: string, s: Files)
    requires IndexBytes(f, s) && DataBytes(g, s)
    ensures |f| == s.iend && |g| == s.dend
  {
  }

  /** Each file is described by its own part of the state. */
  lemma SameIndex(f: string, s: Files, t: Files)
    requires IndexBytes(f, s) && t.ptr == s.ptr && t.body == s.body && t.iend == s.iend
    ensures IndexBytes(f, t)
  {
  }

  lemma SameData(f: string, s: Files, t: Files)
    requires DataBytes(f, s) && t.dat == s.dat && t.dend == s.dend
    ensures DataBytes(f, t)
  {
  }

  /** _db_readptr(): None where the read comes up short. */
  function ReadPtr(f: string, l: nat): Option<int> {
    if l + PTR_SZ <= |f| then Some(Atol(f[l..l + PTR_SZ])) else None
  }

  lemma ReadPtrBytes(f: string, s: Files, l: nat)
    requires IndexBytes(f, s) && l in s.ptr
    ensures ReadPtr(f, l) == Some(s.ptr[l])
  {
    assert FieldAt(f, l, s.ptr[l]);
    PtrFieldReads(s.ptr[l]);
  }

  /** The first read of _db_readidx(): chain pointer and length; None where the program would stop with a message. */
  function ReadHdr(f: string, o: nat): Option<(int, nat)> {
    if o + PTR_SZ + IDXLEN_SZ > |f| then None
    else
      var len := Atol(f[o + PTR_SZ..o + PTR_SZ + IDXLEN_SZ]);
      if len < IDXLEN_MIN || len > IDXLEN_MAX then None else Some((Atol(f[o..o + PTR_SZ]), len))
  }

  /** The second: the record, of the length read first; None where the program would stop. */
  function ReadText(f: string, o: nat, len: nat): Option<Body> {
    var start := o + PTR_SZ + IDXLEN_SZ;
    if start + len > |f| then None else Parse(f[start..start + len])
  }

  lemma ReadHdrBytes(f: string, s: Files, o: nat)
    requires FilesOk(s) && IndexBytes(f, s) && o in s.body
    ensures o in s.ptr && ReadHdr(f, o) == Some((s.ptr[o], IdxLen(s.body[o])))
  {
    hide FilesOk, PtrField, LenField;
    RecordFacts(s, o);
    AllRecordFacts(s);
    var b := s.body[o];
    assert FieldAt(f, o, s.ptr[o]) && TailAt(f, o, b);
    RecordSize(s.ptr[o], b);
    FieldSizes(0, IdxLen(b));
    PtrFieldReads(s.ptr[o]);
    LenFieldReads(IdxLen(b));
    var t := f[o + PTR_SZ..o + Size(b)];
    assert f[o + PTR_SZ..o + PTR_SZ + IDXLEN_SZ] == t[..IDXLEN_SZ] == LenField(IdxLen(b));
  }

  /** The text reads back as the record exactly when the key has no separator in it. */
  lemma ReadTextBytes(f: string, s: Files, o: nat)
    requires FilesOk(s) && IndexBytes(f, s) && o in s.body
    ensures ReadText(f, o, IdxLen(s.body[o])) == if KeyOk(s.body[o].key) then Some(s.body[o]) else None
  {
    hide FilesOk, Parse, Text, PtrField, LenField;
    RecordFacts(s, o);
    var b := s.body[o];
    assert TailAt(f, o, b);
    FieldSizes(0, IdxLen(b));
    var t := f[o + PTR_SZ..o + Size(b)];
    assert f[o + PTR_SZ + IDXLEN_SZ..o + Size(b)] == t[IDXLEN_SZ..] == Text(b);
    if KeyOk(b.key) {
      TextRoundTrip(b);
    } else {
      SeparatorInKey(b);
    }
  }

  /** _db_readdat(). */
  function ReadDat(f: string, d: nat, len: nat): Option<string> {
    if len == 0 || d + len > |f| || f[d + len - 1] != '\n' then None
    else Some(f[d..d + len - 1])
  }

  lemma ReadDatBytes(f: string, s: Files, d: nat)
    requires DataBytes(f, s) && d in s.dat
    ensures ReadDat(f, d, |s.dat[d]| + 1) == Some(s.dat[d])
  {
    assert DataAt(f, d, s.dat[d]);
    var t := f[d..d + |s.dat[d]| + 1];
    assert t[..|s.dat[d]|] == f[d..d + |s.dat[d]|];
    assert t[|s.dat[d]|] == '\n';
  }

  lemma FieldsApart(s: Files, l: nat, m: nat)
    requires FilesOk(s) && l in s.ptr && m in s.ptr && l != m
    ensures l + PTR_SZ <= m || m + PTR_SZ <= l
    ensures m in s.body ==> l + PTR_SZ <= m || m + Size(s.body[m]) <= l
  {
    hide DataTiles, ExtentsOk, BodiesOk, IsRoot, Size;
    if l !in s.body || m !in s.body {
      RootsApart(l, m);
    }
  }

  lemma RootsApart(l: nat, m: nat)
    ensures IsRoot(l) && IsRoot(m) && l != m ==> l + PTR_SZ <= m || m + PTR_SZ <= l
    ensures IsRoot(l) ==> l + PTR_SZ < BASE
    ensures IsRoot(m) ==> m + PTR_SZ < BASE
  {
  }

  /** Bytes outside a write keep the field, the record tail and the newline they hold. */
  lemma KeepField(f: string, o: nat, s: string, m: nat, v: nat)
    requires o <= |f| && FieldAt(f, m, v) && (m + PTR_SZ <= o || o + |s| <= m)
    ensures FieldAt(Overwrite(f, o, s), m, v)
  {
    OutsideWrite(f, o, s, m, m + PTR_SZ);
  }

  lemma KeepTail(f: string, o: nat, s: string, m: nat, b: Body)
    requires o <= |f| && TailAt(f, m, b) && (m + Size(b) <= o || o + |s| <= m + PTR_SZ)
    ensures TailAt(Overwrite(f, o, s), m, b)
  {
    OutsideWrite(f, o, s, m + PTR_SZ, m + Size(b));
  }

  lemma KeepNewline(f: string, o: nat, s: string)
    requires BASE <= |f| && o <= |f| && f[BASE - 1] == '\n' && (o + |s| < BASE || BASE <= o)
    ensures Overwrite(f, o, s)[BASE - 1] == '\n'
  {
  }

  /** Writing one pointer field changes that field and no other byte the lists or records depend on. */
  lemma WritePtrBytes(f: string, s: Files, l: nat, v: nat)
    requires FilesOk(s) && IndexBytes(f, s) && l in s.ptr && v <= PTR_MAX
    ensures l <= |f| && IndexBytes(Overwrite(f, l, PtrField(v)), SetPtr(s, l, v))
  {
    hide FilesOk, PtrField, Overwrite, Tail;
    FieldSizes(v, 0);
    assert FieldAt(f, l, s.ptr[l]);
    var g, t := Overwrite(f, l, PtrField(v)), SetPtr(s, l, v);
    assert |g| == t.iend;
    forall m <- t.ptr ensures FieldAt(g, m, t.ptr[m]) {
      if m != l {
        FieldsApart(s, l, m);
        KeepField(f, l, PtrField(v), m, s.ptr[m]);
      }
    }
    forall o <- t.body ensures TailAt(g, o, t.body[o]) {
      if o != l {
        RecordFacts(s, o);
        FieldsApart(s, l, o);
      }
      KeepTail(f, l, PtrField(v), o, s.body[o]);
    }
    HeadersApart(s, l);
    KeepNewline(f, l, PtrField(v));
  }

  lemma HeadersApart(s: Files, l: nat)
    requires FilesOk(s) && l in s.ptr
    ensures l + PTR_SZ < BASE || BASE <= l
  {
  }

  /** A record being rewritten or appended shares no byte with another field or record. */
  lemma RecordsApart(s: Files, o: nat, n: nat, m: nat)
    requires FilesOk(s) && m in s.ptr && m != o
    requires (o in s.body && n == Size(s.body[o])) || (o == s.iend && n > 0)
    ensures m + PTR_SZ <= o || o + n <= m
    ensures m in s.body ==> m + Size(s.body[m]) <= o || o + n <= m
  {
    if m !in s.body {
      HeadersApart(s, m);
    }
  }

  /** Rewriting a record at its own length, or appending one, changes that record and nothing else. */
  lemma WriteIdxBytes(f: string, s: Files, o: nat, v: nat, b: Body)
    requires FilesOk(s) && IndexBytes(f, s) && v <= PTR_MAX && BodyOk(b)
    requires (o in s.body && Size(b) == Size(s.body[o])) || o == s.iend
    ensures o <= |f| && IndexBytes(Overwrite(f, o, RecordBytes(v, b)), SetRec(s, o, v, b))
  {
    hide ExtentsOk, IsCString;
    RecordSize(v, b);
    var r := RecordBytes(v, b);
    var g, t := Overwrite(f, o, r), SetRec(s, o, v, b);
    RecordEnd(s, o, b);
    RecordHere(f, o, v, b);
    forall m <- t.ptr ensures FieldAt(g, m, t.ptr[m]) {
      if m != o {
        RecordsApart(s, o, Size(b), m);
        KeepField(f, o, r, m, s.ptr[m]);
      }
    }
    forall x <- t.body ensures TailAt(g, x, t.body[x]) {
      if x != o {
        RecordsApart(s, o, Size(b), x);
        KeepTail(f, o, r, x, s.body[x]);
      }
    }
    KeepNewline(f, o, r);
  }

  lemma RecordEnd(s: Files, o: nat, b: Body)
    requires FilesOk(s)
    requires (o in s.body && Size(b) == Size(s.body[o])) || o == s.iend
    ensures BASE <= o <= s.iend
    ensures forall x <- s.body :: x in s.ptr
  {
  }

  lemma RecordHere(f: string, o: nat, v: nat, b: Body)
    requires o <= |f| && v <= PTR_MAX && LengthOk(b)
    ensures FieldAt(Overwrite(f, o, RecordBytes(v, b)), o, v) && TailAt(Overwrite(f, o, RecordBytes(v, b)), o, b)
  {
    RecordSize(v, b);
    var r := RecordBytes(v, b);
    OverlaidSlice(f, o, r, 0, PTR_SZ);
    assert r[..PTR_SZ] == PtrField(v);
    OverlaidSlice(f, o, r, PTR_SZ, |r|);
    assert r[PTR_SZ..] == Tail(b);
  }

  /** Overwriting a data extent at its own length, or appending one. */
  lemma WriteDatBytes(f: string, s: Files, d: nat, t: CString)
    requires FilesOk(s) && DataBytes(f, s)
    requires (d in s.dat && |t| == |s.dat[d]|) || d == s.dend
    ensures d <= |f| && DataBytes(Overwrite(f, d, t + "\n"), SetDat(s, d, t))
  {
    var g := Overwrite(f, d, t + "\n");
    forall x <- s.dat | x != d ensures DataAt(g, x, s.dat[x]) {
      assert DataAt(f, x, s.dat[x]);
      OutsideWrite(f, d, t + "\n", x, x + |s.dat[x]| + 1);
    }
  }

  /** The index file db_open() writes into an empty database. */
  function InitialIndex(n: nat): (f: string) {
    if n == 0 then "" else PtrField(0) + InitialIndex(n - 1)
  }

  lemma {:induction false} InitialFields(n: nat, k: nat)
    requires k < n
    ensures |InitialIndex(n)| == n * PTR_SZ
    ensures InitialIndex(n)[k * PTR_SZ..k * PTR_SZ + PTR_SZ] == PtrField(0)
  {
    FieldSizes(0, 0);
    var rest := InitialIndex(n - 1);
    assert InitialIndex(n) == PtrField(0) + rest;
    if n > 1 {
      InitialFields(n - 1, if k > 0 then k - 1 else 0);
    }
    if k > 0 {
      assert InitialIndex(n)[k * PTR_SZ..k * PTR_SZ + PTR_SZ] == rest[(k - 1) * PTR_SZ..(k - 1) * PTR_SZ + PTR_SZ];
    }
  }

  lemma {:induction false} InitialIndexGrows(n: nat)
    ensures InitialIndex(n + 1) == InitialIndex(n) + PtrField(0)
  {
    if n == 0 {
      assert PtrField(0) + "" == "" + PtrField(0);
    } else {
      InitialIndexGrows(n - 1);
      assert InitialIndex(n + 1) == PtrField(0) + InitialIndex(n);
      assert PtrField(0) + (InitialIndex(n - 1) + PtrField(0)) == (PtrField(0) + InitialIndex(n - 1)) + PtrField(0);
    }
  }

  function EmptyFiles(): Files {
    Files(map l: nat | 0 <= l < BASE && IsRoot(l) :: 0, map[], BASE, map[], 0)
  }

  function EmptyLists(): Lists {
    Lists(seq(NHASH, _ => []), [], map[])
  }

  /** A fresh database is well formed. */
  lemma EmptyListsOk()
    ensures FilesOk(EmptyFiles()) && ListsOk(EmptyFiles().ptr, EmptyFiles().body, EmptyLists(), {})
  {
    var s, a := EmptyFiles(), EmptyLists();
    forall h | 0 <= h < NHASH ensures Linked(s.ptr, HeadLoc(h), a.chains[h]) {
      HeadIsRoot(h);
      assert HeadLoc(h) in s.ptr;
    }
    assert FREE_OFF in s.ptr;
    assert forall l :: l in s.ptr <==> IsRoot(l);
  }

  lemma EmptyData()
    ensures DataBytes("", EmptyFiles()) && Contents(EmptyFiles(), EmptyLists()) == map[]
    ensures |EmptyFiles().body| == |EmptyLists().at| == |EmptyLists().free| == 0
  {
  }

  /** What db_open() writes is the index of an empty database. */
  lemma EmptyIndexBytes(n: nat)
    requires n == NHASH + 1
    ensures IndexBytes(InitialIndex(n) + "\n", EmptyFiles())
  {
    var f, s := InitialIndex(n) + "\n", EmptyFiles();
    InitialFields(n, 0);
    forall l <- s.ptr ensures FieldAt(f, l, 0) {
      InitialFields(n, l / PTR_SZ);
      assert f[l..l + PTR_SZ] == InitialIndex(n)[l..l + PTR_SZ];
    }
  }
}
