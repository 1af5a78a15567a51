/**
 The database at the level of records: a table of pointer fields, the records at their offsets,
 the data extents, and the lists that run through the pointer fields.
 */
module DbStore {
  import opened Common
  import opened IndexRecord
  import opened Links

  const NHASH := 137
  const FREE_OFF := 0
  const HASH_OFF := PTR_SZ
  /** Offset of the first index record, after the pointers and their newline. */
  const BASE := (NHASH + 1) * PTR_SZ + 1

  function SignedChar(c: char): int {
    if c < 128 as char then c as int else c as int - 256
  }

  /** _db_hash(): the sum of each (signed) character times its 1-based index, in an unsigned long. */
  function HashFrom(key: string, i: nat): nat {
    if key == [] then 0
    else
      var rest: string := key[1..];
      (SignedChar(key[0]) * i + HashFrom(rest, i + 1)) % 0x1_0000_0000_0000_0000
  }

  lemma HashStep(key: string, i: nat)
    requires key != []
    ensures HashFrom(key, i) == (SignedChar(key[0]) * i + HashFrom(key[1..], i + 1)) % 0x1_0000_0000_0000_0000
    ensures HashFrom([], i) == 0 && HashFrom([], i + 1) == 0
  {
  }

  /** As the loop does it: each further character adds itself times its index. */
  lemma {:induction false} HashAdds(key: string, c: char, i: nat)
    ensures HashFrom(key + [c], i) == (HashFrom(key, i) + SignedChar(c) * (i + |key|)) % 0x1_0000_0000_0000_0000
    decreases |key|
  {
    hide HashFrom, SignedChar;
    HashStep(key + [c], i);
    if key == [] {
      assert key + [c] == [c] && (key + [c])[1..] == [] && key == [];
      assert i + |key| == i;
    } else {
      var rest := key[1..];
      assert (key + [c])[1..] == rest + [c];
      HashStep(key, i);
      HashAdds(rest, c, i + 1);
      assert i + 1 + |rest| == i + |key|;
      SumModulo(SignedChar(key[0]) * i, HashFrom(rest, i + 1), SignedChar(c) * (i + |key|));
    }
  }

  lemma SumModulo(a: int, b: int, x: int)
    ensures (a + (b + x) % 0x1_0000_0000_0000_0000) % 0x1_0000_0000_0000_0000
         == ((a + b) % 0x1_0000_0000_0000_0000 + x) % 0x1_0000_0000_0000_0000
  {
  }

  function Hash(key: CString): (h: nat)
    ensures h < NHASH
  {
    HashFrom(key, 1) % NHASH
  }

  function HeadLoc(h: nat): nat {
    h * PTR_SZ + HASH_OFF
  }

  predicate IsRoot(l: nat) {
    l % PTR_SZ == 0 && l < NHASH * PTR_SZ + PTR_SZ
  }

  lemma HeadIsRoot(h: nat)
    requires h < NHASH
    ensures IsRoot(HeadLoc(h)) && HeadLoc(h) != FREE_OFF && HeadLoc(h) + PTR_SZ < BASE
  {
  }

  lemma HeadsDiffer(g: nat, h: nat)
    requires g != h
    ensures HeadLoc(g) != HeadLoc(h)
  {
  }

  /** Both files: pointer fields and records of the index, data strings at their offsets. */
  datatype Files = Files(ptr: map<nat, nat>, body: map<nat, Body>, iend: nat, dat: map<nat, CString>, dend: nat)

  function Max(a: nat, b: nat): nat {
    if a < b then b else a
  }

  function SetPtr(f: Files, l: nat, v: nat): Files {
    f.(ptr := f.ptr[l := v])
  }

  function SetRec(f: Files, o: nat, v: nat, b: Body): Files {
    f.(ptr := f.ptr[o := v], body := f.body[o := b], iend := Max(f.iend, o + Size(b)))
  }

  function SetDat(f: Files, d: nat, s: CString): Files {
    f.(dat := f.dat[d := s], dend := Max(f.dend, d + |s| + 1))
  }

  /** A key that can be read back once it is stored; the program stores any. */
  predicate KeyOk(key: CString) {
    SEP !in key
  }

  predicate BodyOk(b: Body) {
    LengthOk(b) && DataLengthOk(b.datlen)
  }

  /** Records lie side by side: each one ends where another starts or at the end of the file. */
  ghost predicate IndexTiles(body: map<nat, Body>, iend: nat) {
    && (BASE in body || BASE == iend)
    && (forall o <- body :: BASE <= o && o + Size(body[o]) <= iend)
    && (forall a, b | a in body && b in body && a < b :: a + Size(body[a]) <= b)
    && (forall o <- body :: o + Size(body[o]) in body || o + Size(body[o]) == iend)
  }

  ghost predicate DataTiles(dat: map<nat, CString>, dend: nat) {
    && (0 in dat || 0 == dend)
    && (forall d <- dat :: d + |dat[d]| + 1 <= dend)
    && (forall c, d | c in dat && d in dat && c < d :: c + |dat[c]| + 1 <= d)
    && (forall d <- dat :: d + |dat[d]| + 1 in dat || d + |dat[d]| + 1 == dend)
  }

  /** There is a pointer field for each root and each record, and it fits its field. */
  ghost predicate PointersOk(ptr: map<nat, nat>, body: map<nat, Body>) {
    && (forall l :: l in ptr <==> IsRoot(l) || l in body)
    && (forall l <- ptr :: ptr[l] <= PTR_MAX)
  }

  ghost predicate BodiesOk(body: map<nat, Body>) {
    forall o <- body :: BodyOk(body[o])
  }

  ghost predicate FilesOk(f: Files) {
    && BASE <= f.iend
    && PointersOk(f.ptr, f.body)
    && BodiesOk(f.body)
    && IndexTiles(f.body, f.iend)
    && DataTiles(f.dat, f.dend)
    && ExtentsOk(f.body, f.dat)
  }

  /** Every record has its own data extent, of the length the record says. */
  ghost predicate ExtentsOk(body: map<nat, Body>, dat: map<nat, CString>) {
    && (forall o <- body :: body[o].datoff in dat && body[o].datlen == |dat[body[o].datoff]| + 1)
    && (forall a, b | a in body && b in body && a != b :: body[a].datoff != body[b].datoff)
  }

  lemma IndexTilesRewrite(body: map<nat, Body>, iend: nat, o: nat, b: Body)
    requires IndexTiles(body, iend) && o in body && Size(b) == Size(body[o])
    ensures IndexTiles(body[o := b], iend) && o + Size(b) <= iend
  {
    assert forall x <- body[o := b] :: x in body && Size(body[o := b][x]) == Size(body[x]);
  }

  lemma ExtentsRewrite(body: map<nat, Body>, dat: map<nat, CString>, o: nat, b: Body)
    requires ExtentsOk(body, dat) && o in body && b.datoff == body[o].datoff && b.datlen == body[o].datlen
    ensures ExtentsOk(body[o := b], dat)
  {
    assert forall x <- body[o := b] :: body[o := b][x].datoff == body[x].datoff && body[o := b][x].datlen == body[x].datlen;
  }

  lemma IndexTilesAppend(body: map<nat, Body>, iend: nat, b: Body)
    requires IndexTiles(body, iend) && BASE <= iend
    ensures iend !in body && IndexTiles(body[iend := b], iend + Size(b))
  {
  }

  lemma RecordFacts(f: Files, o: nat)
    requires FilesOk(f) && o in f.body
    ensures BASE <= o <= f.iend && o in f.ptr && BodyOk(f.body[o])
    ensures f.body[o].datoff in f.dat && f.body[o].datlen == |f.dat[f.body[o].datoff]| + 1
  {
  }

  lemma RootFacts(f: Files, h: nat)
    requires FilesOk(f) && h < NHASH
    ensures FREE_OFF in f.ptr && HeadLoc(h) in f.ptr
  {
    HeadIsRoot(h);
  }

  lemma AllRecordFacts(f: Files)
    requires FilesOk(f)
    ensures forall o <- f.body :: BASE <= o && o in f.ptr
    ensures forall l <- f.ptr :: f.ptr[l] <= PTR_MAX
  {
  }

  lemma SetPtrOk(f: Files, l: nat, v: nat)
    requires FilesOk(f) && l in f.ptr && v <= PTR_MAX
    ensures FilesOk(SetPtr(f, l, v))
  {
  }

  /** Rewriting a record with one of the same length that keeps its data extent. */
  lemma RewriteOk(f: Files, o: nat, v: nat, b: Body)
    requires FilesOk(f) && o in f.body && v <= PTR_MAX
    requires BodyOk(b) && Size(b) == Size(f.body[o])
    requires b.datoff == f.body[o].datoff && b.datlen == f.body[o].datlen
    ensures FilesOk(SetRec(f, o, v, b)) && SetRec(f, o, v, b).iend == f.iend
  {
    IndexTilesRewrite(f.body, f.iend, o, b);
    ExtentsRewrite(f.body, f.dat, o, b);
  }

  lemma AppendRecOk(f: Files, v: nat, b: Body)
    requires FilesOk(f) && v <= PTR_MAX && BodyOk(b)
    requires b.datoff in f.dat && b.datlen == |f.dat[b.datoff]| + 1
    requires forall o <- f.body :: f.body[o].datoff != b.datoff
    ensures FilesOk(SetRec(f, f.iend, v, b)) && f.iend !in f.body
  {
    hide DataTiles, IndexTiles, LengthOk, Size;
    IndexTilesAppend(f.body, f.iend, b);
  }

  lemma OverwriteDatOk(f: Files, d: nat, s: CString)
    requires FilesOk(f) && d in f.dat && |s| == |f.dat[d]|
    ensures FilesOk(SetDat(f, d, s)) && SetDat(f, d, s).dend == f.dend
  {
    hide IndexTiles, PointersOk, BodiesOk;
  }

  lemma AppendDatOk(f: Files, s: CString)
    requires FilesOk(f)
    ensures FilesOk(SetDat(f, f.dend, s)) && f.dend !in f.dat
  {
    hide IndexTiles, PointersOk, BodiesOk;
  }

  function BlankString(n: nat): (s: CString)
    ensures |s| == n && forall c <- s :: c == ' '
  {
    seq(n, _ => ' ')
  }

  predicate AllBlank(s: string) {
    forall c <- s :: c == ' '
  }

  /** The lists, and which live key sits at which offset. */
  datatype Lists = Lists(chains: seq<seq<nat>>, free: seq<nat>, at: map<CString, nat>)

  predicate Live(body: map<nat, Body>, a: Lists, o: nat) {
    o in body && body[o].key in a.at && a.at[body[o].key] == o
  }

  /** All lists follow the pointer fields and end in 0. */
  ghost predicate AllLinked(ptr: map<nat, nat>, a: Lists) {
    && |a.chains| == NHASH
    && (forall h :: 0 <= h < NHASH ==> Linked(ptr, HeadLoc(h), a.chains[h]))
    && Linked(ptr, FREE_OFF, a.free)
  }

  predicate OnChain(a: Lists, h: nat, o: nat)
    requires |a.chains| == NHASH && h < NHASH
  {
    o in a.chains[h]
  }

  /**
   Every record is on the one chain its key hashes to, or on the free list, or in the hands of a caller (`own`);
   live keys are unique.
   */
  ghost predicate Placed(body: map<nat, Body>, a: Lists, own: set<nat>) {
    && |a.chains| == NHASH
    && (forall h, o | 0 <= h < NHASH && OnChain(a, h, o) :: Live(body, a, o) && Hash(body[o].key) == h && o !in own)
    && (forall k <- a.at :: a.at[k] in body && body[a.at[k]].key == k && OnChain(a, Hash(k), a.at[k]))
    && (forall o <- a.free :: o in body && AllBlank(body[o].key) && !Live(body, a, o) && o !in own)
    && (forall o <- body :: o in a.free || o in own || Live(body, a, o))
    && own <= body.Keys
  }

  ghost predicate ListsOk(ptr: map<nat, nat>, body: map<nat, Body>, a: Lists, own: set<nat>) {
    |a.chains| == NHASH && AllLinked(ptr, a) && Placed(body, a, own)
  }

  /** The data a record stands for. */
  ghost function DataOf(f: Files, o: nat): CString {
    if o in f.body && f.body[o].datoff in f.dat then f.dat[f.body[o].datoff] else ""
  }

  /** What the database holds: the data of each live key. */
  ghost function Contents(f: Files, a: Lists): map<CString, CString> {
    map k | k in a.at :: DataOf(f, a.at[k])
  }

  /** Walking a chain: the record at place k, its field, and the field before it. */
  lemma ChainFacts(f: Files, a: Lists, own: set<nat>, h: nat, k: nat)
    requires FilesOk(f) && ListsOk(f.ptr, f.body, a, own) && h < NHASH && k <= |a.chains[h]|
    ensures
      var c := a.chains[h];
      var l := Field(HeadLoc(h), c, k);
      && l in f.ptr && f.ptr[l] == Target(c, k)
      && (k < |c| ==> c[k] != 0 && c[k] in f.body && Live(f.body, a, c[k]) && Hash(f.body[c[k]].key) == h && c[k] !in own)
  {
    var c := a.chains[h];
    assert Linked(f.ptr, HeadLoc(h), c);
    assert Field(HeadLoc(h), c, k) in f.ptr;
    if k < |c| {
      assert OnChain(a, h, c[k]);
    }
  }

  lemma FreeFacts(f: Files, a: Lists, own: set<nat>, k: nat)
    requires FilesOk(f) && ListsOk(f.ptr, f.body, a, own) && k <= |a.free|
    ensures
      var l := Field(FREE_OFF, a.free, k);
      && l in f.ptr && f.ptr[l] == Target(a.free, k)
      && (k < |a.free| ==> a.free[k] != 0 && a.free[k] in f.body && !Live(f.body, a, a.free[k]) && KeyOk(f.body[a.free[k]].key))
  {
    assert Field(FREE_OFF, a.free, k) in f.ptr;
    if k < |a.free| {
      assert a.free[k] in a.free;
    }
  }

  lemma ContentsKeys(f: Files, a: Lists)
    ensures Contents(f, a).Keys == a.at.Keys
  {
  }

  lemma LiveKeys(ptr: map<nat, nat>, body: map<nat, Body>, a: Lists, own: set<nat>)
    requires ListsOk(ptr, body, a, own)
    ensures forall k <- a.at :: a.at[k] in body && body[a.at[k]].key == k
  {
  }

  /** A live key is on the chain it hashes to. */
  lemma KeyOnChain(f: Files, a: Lists, own: set<nat>, key: CString)
    requires ListsOk(f.ptr, f.body, a, own) && key in a.at
    ensures exists k :: 0 <= k < |a.chains[Hash(key)]| && a.chains[Hash(key)][k] == a.at[key]
    ensures a.at[key] in f.body && f.body[a.at[key]].key == key
  {
    assert OnChain(a, Hash(key), a.at[key]);
  }

  /** Take the k-th record off chain h. */
  function UnlinkChain(a: Lists, h: nat, k: nat, key: CString): Lists
    requires h < |a.chains| && k < |a.chains[h]|
  {
    a.(chains := a.chains[h := Without(a.chains[h], k)], at := a.at - {key})
  }

  lemma UnlinkChainOk(ptr: map<nat, nat>, body: map<nat, Body>, a: Lists, own: set<nat>, h: nat, k: nat)
    requires ListsOk(ptr, body, a, own) && h < NHASH && k < |a.chains[h]|
    requires forall o <- body :: BASE <= o && o in ptr
    ensures
      var o := a.chains[h][k];
      o in body && o in ptr && o !in own && Live(body, a, o) && Hash(body[o].key) == h &&
      ListsOk(ptr[Field(HeadLoc(h), a.chains[h], k) := ptr[o]], body, UnlinkChain(a, h, k, body[o].key), own + {o})
  {
    var o := a.chains[h][k];
    assert OnChain(a, h, o);
    var pred := Field(HeadLoc(h), a.chains[h], k);
    assert k > 0 ==> OnChain(a, h, pred);
    var p := ptr[pred := ptr[o]];
    var b := UnlinkChain(a, h, k, body[o].key);
    forall g | 0 <= g < NHASH ensures Linked(p, HeadLoc(g), b.chains[g]) {
      if g == h {
        Unlink(ptr, HeadLoc(h), a.chains[h], k);
      } else {
        assert forall x <- a.chains[g] :: OnChain(a, g, x);
        Elsewhere(ptr, p, HeadLoc(g), a.chains[g]);
      }
    }
    Elsewhere(ptr, p, FREE_OFF, a.free);
    UnlinkChainPlaced(body, a, own, h, k);
  }

  lemma UnlinkChainPlaced(body: map<nat, Body>, a: Lists, own: set<nat>, h: nat, k: nat)
    requires Placed(body, a, own) && h < NHASH && k < |a.chains[h]| && Distinct(a.chains[h])
    ensures
      var o := a.chains[h][k];
      o in body && Placed(body, UnlinkChain(a, h, k, body[o].key), own + {o})
  {
    var o := a.chains[h][k];
    assert OnChain(a, h, o);
    var b := UnlinkChain(a, h, k, body[o].key);
    WithoutMembers(a.chains[h], k);
    forall g, x | 0 <= g < NHASH ensures OnChain(b, g, x) <==> OnChain(a, g, x) && x != o {
      if g == h {
        assert b.chains[g] == Without(a.chains[h], k);
      } else {
        assert b.chains[g] == a.chains[g];
      }
    }
  }

  /** Put a record in hand on the front of the chain of its key. */
  function PushChain(a: Lists, o: nat, key: CString): Lists
    requires |a.chains| == NHASH
  {
    var h := Hash(key);
    a.(chains := a.chains[h := [o] + a.chains[h]], at := a.at[key := o])
  }

  lemma PushChainOk(ptr: map<nat, nat>, body: map<nat, Body>, a: Lists, own: set<nat>, o: nat)
    requires ListsOk(ptr, body, a, own) && o in own && body[o].key !in a.at
    requires forall x <- body :: BASE <= x && x in ptr
    requires HeadLoc(Hash(body[o].key)) in ptr && ptr[o] == ptr[HeadLoc(Hash(body[o].key))]
    ensures ListsOk(ptr[HeadLoc(Hash(body[o].key)) := o], body, PushChain(a, o, body[o].key), own - {o})
  {
    hide AllLinked, Placed, Hash, IsCString;
    PushChainLinked(ptr, body, a, own, o);
    PushChainPlaced(body, a, own, o);
  }

  lemma PushChainLinked(ptr: map<nat, nat>, body: map<nat, Body>, a: Lists, own: set<nat>, o: nat)
    requires ListsOk(ptr, body, a, own) && o in own && forall x <- body :: BASE <= x && x in ptr
    requires HeadLoc(Hash(body[o].key)) in ptr && ptr[o] == ptr[HeadLoc(Hash(body[o].key))]
    ensures AllLinked(ptr[HeadLoc(Hash(body[o].key)) := o], PushChain(a, o, body[o].key))
  {
    hide Hash, IsCString;
    var h := Hash(body[o].key);
    var p, b := ptr[HeadLoc(h) := o], PushChain(a, o, body[o].key);
    HeadIsRoot(h);
    forall g | 0 <= g < NHASH ensures Linked(p, HeadLoc(g), b.chains[g]) {
      assert forall x <- a.chains[g] :: OnChain(a, g, x);
      if g == h {
        PushFront(ptr, HeadLoc(h), a.chains[h], o);
      } else {
        Elsewhere(ptr, p, HeadLoc(g), a.chains[g]);
      }
    }
    Elsewhere(ptr, p, FREE_OFF, a.free);
  }

  lemma PushChainPlaced(body: map<nat, Body>, a: Lists, own: set<nat>, o: nat)
    requires Placed(body, a, own) && o in own && body[o].key !in a.at
    ensures Placed(body, PushChain(a, o, body[o].key), own - {o})
  {
    hide Hash, IsCString;
    var h, b := Hash(body[o].key), PushChain(a, o, body[o].key);
    assert forall g, x | 0 <= g < NHASH :: OnChain(b, g, x) <==> OnChain(a, g, x) || (g == h && x == o);
  }

  lemma PushFreeOk(ptr: map<nat, nat>, body: map<nat, Body>, a: Lists, own: set<nat>, o: nat)
    requires ListsOk(ptr, body, a, own) && o in own && AllBlank(body[o].key) && !Live(body, a, o)
    requires forall x <- body :: BASE <= x && x in ptr
    requires FREE_OFF in ptr && ptr[o] == ptr[FREE_OFF]
    ensures ListsOk(ptr[FREE_OFF := o], body, a.(free := [o] + a.free), own - {o})
  {
    var p := ptr[FREE_OFF := o];
    forall g | 0 <= g < NHASH ensures Linked(p, HeadLoc(g), a.chains[g]) {
      assert forall x <- a.chains[g] :: OnChain(a, g, x);
      Elsewhere(ptr, p, HeadLoc(g), a.chains[g]);
    }
    PushFront(ptr, FREE_OFF, a.free, o);
    assert forall g, x | 0 <= g < NHASH :: OnChain(a.(free := [o] + a.free), g, x) <==> OnChain(a, g, x);
  }

  lemma PopFreeOk(ptr: map<nat, nat>, body: map<nat, Body>, a: Lists, own: set<nat>, k: nat)
    requires ListsOk(ptr, body, a, own) && k < |a.free|
    requires forall o <- body :: BASE <= o && o in ptr
    ensures
      var o := a.free[k];
      o in body && o !in own && !Live(body, a, o) &&
      ListsOk(ptr[Field(FREE_OFF, a.free, k) := ptr[o]], body, a.(free := Without(a.free, k)), own + {o})
  {
    var o := a.free[k];
    assert o in a.free;
    var pred := Field(FREE_OFF, a.free, k);
    var p := ptr[pred := ptr[o]];
    WithoutMembers(a.free, k);
    assert k > 0 ==> pred in a.free;
    forall g | 0 <= g < NHASH ensures Linked(p, HeadLoc(g), a.chains[g]) {
      HeadIsRoot(g);
      assert forall x <- a.chains[g] :: OnChain(a, g, x);
      Elsewhere(ptr, p, HeadLoc(g), a.chains[g]);
    }
    Unlink(ptr, FREE_OFF, a.free, k);
    assert forall g, x | 0 <= g < NHASH :: OnChain(a.(free := Without(a.free, k)), g, x) <==> OnChain(a, g, x);
  }

  /** Rewriting, or creating, a record in hand leaves every list alone. */
  lemma RewriteOwnOk(ptr: map<nat, nat>, body: map<nat, Body>, a: Lists, own: set<nat>, o: nat, v: nat, b: Body)
    requires ListsOk(ptr, body, a, own) && BASE <= o && (o in own || o !in body)
    requires o in own ==> !Live(body, a, o)
    ensures ListsOk(ptr[o := v], body[o := b], a, own + {o})
    ensures !Live(body[o := b], a, o)
  {
    assert o !in a.free;
    assert forall g | 0 <= g < NHASH :: !OnChain(a, g, o);
    RewriteLinked(ptr, a, o, v);
    RewritePlaced(body, a, own, o, b);
  }

  lemma RewriteLinked(ptr: map<nat, nat>, a: Lists, o: nat, v: nat)
    requires AllLinked(ptr, a) && BASE <= o && o !in a.free
    requires forall g | 0 <= g < NHASH :: !OnChain(a, g, o)
    ensures AllLinked(ptr[o := v], a)
  {
    var p := ptr[o := v];
    forall g | 0 <= g < NHASH ensures Linked(p, HeadLoc(g), a.chains[g]) {
      HeadIsRoot(g);
      assert !OnChain(a, g, o);
      LinkedFields(ptr, HeadLoc(g), a.chains[g]);
      Elsewhere(ptr, p, HeadLoc(g), a.chains[g]);
    }
    LinkedFields(ptr, FREE_OFF, a.free);
    Elsewhere(ptr, p, FREE_OFF, a.free);
  }

  lemma RewritePlaced(body: map<nat, Body>, a: Lists, own: set<nat>, o: nat, b: Body)
    requires Placed(body, a, own) && (o in own || o !in body) && !Live(body, a, o)
    ensures Placed(body[o := b], a, own + {o})
    ensures !Live(body[o := b], a, o)
  {
    var c := body[o := b];
    assert forall k <- a.at :: a.at[k] != o;
    assert forall x | x != o :: Live(c, a, x) <==> Live(body, a, x);
  }
}
