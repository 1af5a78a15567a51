/** One process using the database: the library's handle and the two files behind it. */
module Database {
  import opened Common
  import opened Decimal
  import opened IndexRecord
  import opened Links
  import opened DbStore
  import opened DbBytes

  const DB_INSERT := 1
  const DB_REPLACE := 2
  const DB_STORE := 3

  /** What db_store() promises of a finite map: return code and new contents. */
  function StoreSpec(m: map<CString, CString>, key: CString, data: CString, flag: int): (int, map<CString, CString>) {
    if flag != DB_INSERT && flag != DB_REPLACE && flag != DB_STORE then (-1, m)
    else if key !in m then if flag == DB_REPLACE then (-1, m) else (0, m[key := data])
    else if flag == DB_INSERT then (1, m) else (0, m[key := data])
  }

  /**
   What the return codes of a store mean, and what it does: 1 for an insertion of a key that is there, -1 for a bad flag or
   a replacement of one that is not; 0 otherwise, and only then is anything changed, and only the data of that key.
   */
  lemma StoreLaws(m: map<CString, CString>, key: CString, data: CString, flag: int)
    ensures
      var (rc, m') := StoreSpec(m, key, data, flag);
      && rc in {-1, 0, 1}
      && (rc == 1 <==> flag == DB_INSERT && key in m)
      && (rc == -1 <==> !(flag in {DB_INSERT, DB_REPLACE, DB_STORE}) || (flag == DB_REPLACE && key !in m))
      && (rc == 0 ==> key in m' && m'[key] == data && m'.Keys == m.Keys + {key} && forall k <- m | k != key :: m'[k] == m[k])
      && (rc != 0 ==> m' == m)
  {
  }

  /** The deleted record: key blanked out, same data extent. */
  function Blanked(b: Body): Body {
    Body(BlankString(|b.key|), b.datoff, b.datlen)
  }

  /** Free records of the sizes a new record needs. */
  predicate FreeFits(body: map<nat, Body>, o: nat, keylen: nat, datlen: nat) {
    o in body && |body[o].key| == keylen && body[o].datlen == datlen
  }

  /** The index file of a new database: free-list pointer and hash table, all 0, and a newline. */
  method HashTable() returns (f: string)
    ensures IndexBytes(f, EmptyFiles())
  {
    var n: nat := NHASH + 1;
    var pointers := "";
    for i := 0 to n
      invariant pointers == InitialIndex(i)
    {
      InitialIndexGrows(i);
      pointers := pointers + PtrField(0);
    }
    f := pointers + "\n";
    EmptyIndexBytes(n);
  }

  /** The lists after a deletion: off its chain, on the front of the free list. */
  function DeletedLists(a: Lists, h: nat, k: nat, key: CString): Lists
    requires h < |a.chains| && k < |a.chains[h]|
  {
    UnlinkChain(a, h, k, key).(free := [a.chains[h][k]] + a.free)
  }

  /** The pointer surgery of _db_dodelete(), in the order in which it writes. */
  lemma DeleteSurgery(f: Files, a: Lists, h: nat, k: nat)
    requires FilesOk(f) && ListsOk(f.ptr, f.body, a, {}) && h < NHASH && k < |a.chains[h]|
    ensures
      var o := a.chains[h][k];
      var pred := Field(HeadLoc(h), a.chains[h], k);
      && o in f.body && Hash(f.body[o].key) == h && o in f.ptr && FREE_OFF in f.ptr
      && ListsOk(f.ptr[o := f.ptr[FREE_OFF]][FREE_OFF := o][pred := f.ptr[o]], f.body[o := Blanked(f.body[o])],
                 DeletedLists(a, h, k, f.body[o].key), {})
  {
    hide FilesOk, Linked, AllLinked, Placed, Hash;
    var o := a.chains[h][k];
    var pred := Field(HeadLoc(h), a.chains[h], k);
    ChainFacts(f, a, {}, h, k);
    RootFacts(f, h);
    AllRecordFacts(f);
    PredecessorApart(f, a, h, k);
    UnlinkChainOk(f.ptr, f.body, a, {}, h, k);
    var a1 := UnlinkChain(a, h, k, f.body[o].key);
    var p1 := f.ptr[pred := f.ptr[o]];
    RewriteOwnOk(p1, f.body, a1, {} + {o}, o, f.ptr[FREE_OFF], Blanked(f.body[o]));
    var p2, b2 := p1[o := f.ptr[FREE_OFF]], f.body[o := Blanked(f.body[o])];
    assert {} + {o} + {o} == {o};
    PushFreeOk(p2, b2, a1, {o}, o);
    assert {o} - {o} == {};
    assert p2[FREE_OFF := o] == f.ptr[o := f.ptr[FREE_OFF]][FREE_OFF := o][pred := f.ptr[o]];
  }

  /** The field before a record is neither that record nor the free-list pointer. */
  lemma PredecessorApart(f: Files, a: Lists, h: nat, k: nat)
    requires FilesOk(f) && ListsOk(f.ptr, f.body, a, {}) && h < NHASH && k < |a.chains[h]|
    ensures
      var o := a.chains[h][k];
      var pred := Field(HeadLoc(h), a.chains[h], k);
      pred != o && pred != FREE_OFF && o != FREE_OFF
  {
    HeadIsRoot(h);
    assert Linked(f.ptr, HeadLoc(h), a.chains[h]);
    assert OnChain(a, h, a.chains[h][k]);
    if k > 0 {
      assert OnChain(a, h, a.chains[h][k - 1]);
    }
  }

  /** Live records other than o keep their data when o and its data extent are rewritten. */
  lemma OtherData(f: Files, f': Files, x: nat, o: nat, b: Body, t: CString)
    requires FilesOk(f) && x in f.body && o in f.body && x != o
    requires f'.body == f.body[o := b] && f'.dat == f.dat[f.body[o].datoff := t]
    ensures DataOf(f', x) == DataOf(f, x)
  {
  }

  /** Deleting a record takes its key out of the contents and touches no other key. */
  lemma DeletedContents(f: Files, f': Files, a: Lists, h: nat, k: nat, t: CString)
    requires FilesOk(f) && ListsOk(f.ptr, f.body, a, {}) && h < NHASH && k < |a.chains[h]|
    requires
      var o := a.chains[h][k];
      o in f.body && f'.body == f.body[o := Blanked(f.body[o])] && f'.dat == f.dat[f.body[o].datoff := t]
    ensures Contents(f', DeletedLists(a, h, k, f.body[a.chains[h][k]].key)) == Contents(f, a) - {f.body[a.chains[h][k]].key}
  {
    hide FilesOk, AllLinked, Placed, Hash;
    LiveKeys(f.ptr, f.body, a, {});
    var o := a.chains[h][k];
    var key := f.body[o].key;
    forall x <- a.at | x != key ensures DataOf(f', a.at[x]) == DataOf(f, a.at[x]) {
      OtherData(f, f', a.at[x], o, Blanked(f.body[o]), t);
    }
  }

  /** The pointer fields once the record at o has been put in front of the list at `root`. */
  function PutFirst(ptr: map<nat, nat>, root: nat, o: nat): map<nat, nat> {
    if root in ptr then ptr[o := ptr[root]][root := o] else ptr
  }

  /** A record that no chain holds becomes the record of a new key. */
  lemma LinkSurgery(f: Files, a: Lists, own: set<nat>, o: nat, b: Body)
    requires FilesOk(f) && ListsOk(f.ptr, f.body, a, own) && own <= {o} && BASE <= o && (o in own || o !in f.body)
    requires o in own ==> !Live(f.body, a, o)
    requires b.key !in a.at
    ensures HeadLoc(Hash(b.key)) in f.ptr && |a.chains| == NHASH
    ensures ListsOk(PutFirst(f.ptr, HeadLoc(Hash(b.key)), o), f.body[o := b], PushChain(a, o, b.key), {})
  {
    hide FilesOk, Linked, AllLinked, Placed, Hash, IsCString, PushChain;
    var h := Hash(b.key);
    RootFacts(f, h);
    HeadIsRoot(h);
    AllRecordFacts(f);
    var p, c := f.ptr[o := f.ptr[HeadLoc(h)]], f.body[o := b];
    RewriteOwnOk(f.ptr, f.body, a, own, o, f.ptr[HeadLoc(h)], b);
    assert own + {o} == {o};
    PushChainOk(p, c, a, {o}, o);
    assert {o} - {o} == {};
  }

  /** Linking in a record for a new key adds exactly that key to the contents. */
  lemma LinkedContents(f: Files, f': Files, a: Lists, own: set<nat>, o: nat, b: Body, data: CString)
    requires FilesOk(f) && ListsOk(f.ptr, f.body, a, own)
    requires f'.body == f.body[o := b] && f'.dat == f.dat[b.datoff := data]
    requires forall x <- a.at :: a.at[x] != o
    requires if o in f.body then b.datoff == f.body[o].datoff else b.datoff !in f.dat
    ensures Contents(f', PushChain(a, o, b.key)) == Contents(f, a)[b.key := data]
  {
    hide FilesOk, AllLinked, Placed, Hash;
    LiveKeys(f.ptr, f.body, a, own);
    forall x <- a.at | x != b.key ensures DataOf(f', a.at[x]) == DataOf(f, a.at[x]) {
      if o in f.body {
        OtherData(f, f', a.at[x], o, b, data);
      } else {
        RecordFacts(f, a.at[x]);
      }
    }
  }

  /** Replacing the data of a live record changes only its key. */
  lemma ReplacedContents(f: Files, a: Lists, key: CString, data: CString)
    requires FilesOk(f) && ListsOk(f.ptr, f.body, a, {}) && key in a.at
    ensures a.at[key] in f.body
    ensures Contents(SetDat(f, f.body[a.at[key]].datoff, data), a) == Contents(f, a)[key := data]
  {
    hide FilesOk, AllLinked, Placed;
    LiveKeys(f.ptr, f.body, a, {});
    var o := a.at[key];
    var f' := SetDat(f, f.body[o].datoff, data);
    assert f'.body == f.body[o := f.body[o]];
    forall x <- a.at | x != key ensures DataOf(f', a.at[x]) == DataOf(f, a.at[x]) {
      OtherData(f, f', a.at[x], o, f.body[o], data);
    }
  }

  /** The field before a free record is the free-list pointer or a free record, never a chain's root. */
  lemma FreeFieldsApart(f: Files, a: Lists, k: nat)
    requires FilesOk(f) && ListsOk(f.ptr, f.body, a, {}) && k <= |a.free|
    ensures forall h :: 0 <= h < NHASH ==> HeadLoc(h) in f.ptr && HeadLoc(h) != Field(FREE_OFF, a.free, k)
  {
    forall h | 0 <= h < NHASH ensures HeadLoc(h) in f.ptr && HeadLoc(h) != Field(FREE_OFF, a.free, k) {
      HeadIsRoot(h);
      RootFacts(f, h);
      assert k > 0 ==> a.free[k - 1] in a.free;
    }
  }

  ghost function Count<K, V>(m: map<K, V>): nat {
    |m|
  }

  lemma OneLess<K, V>(m: map<K, V>, k: K)
    requires k in m
    ensures Count(m - {k}) + 1 == Count(m)
  {
    assert (m - {k}).Keys == m.Keys - {k};
  }

  lemma OneMore<K, V>(m: map<K, V>, k: K, v: V)
    requires k !in m
    ensures Count(m[k := v]) == Count(m) + 1
  {
    assert m[k := v].Keys == m.Keys + {k};
  }

  lemma SameCount<K, V>(m: map<K, V>, n: map<K, V>)
    requires m.Keys == n.Keys
    ensures Count(m) == Count(n)
  {
  }

  lemma SameContents(f: Files, f': Files, a: Lists, a': Lists)
    requires f'.body == f.body && f'.dat == f.dat && a'.at == a.at
    ensures Contents(f', a') == Contents(f, a)
  {
  }

  /** What is appended changes nothing of what there is. */
  lemma AppendedSame(f: Files, body: map<nat, Body>, a: Lists, dat: map<nat, CString>)
    requires FilesOk(f) && ListsOk(f.ptr, f.body, a, {})
    requires forall o <- f.body :: o in body && body[o] == f.body[o]
    requires forall d <- f.dat :: d in dat && dat[d] == f.dat[d]
    ensures forall f': Files | f'.body == body && f'.dat == dat :: Contents(f', a) == Contents(f, a)
  {
    hide FilesOk, AllLinked, Placed;
    LiveKeys(f.ptr, f.body, a, {});
    RecordFactsAll(f);
  }

  lemma AppendPlace(f: Files)
    requires FilesOk(f)
    ensures BASE <= f.iend && f.iend !in f.body && f.dend !in f.dat
  {
  }

  lemma RecordFactsAll(f: Files)
    requires FilesOk(f)
    ensures forall o <- f.body :: f.body[o].datoff in f.dat
  {
  }

  /** What db_nextrec() still has to return from offset `from` on: records in file order, blank keys left out. */
  ghost function Listing(f: Files, from: nat): (r: seq<(CString, CString)>)
    decreases f.iend - from
  {
    if from !in f.body || from >= f.iend then []
    else
      var rest := Listing(f, from + Size(f.body[from]));
      if AllBlank(f.body[from].key) then rest else [(f.body[from].key, DataOf(f, from))] + rest
  }

  /** A place where a record starts, or the end of the file. */
  ghost predicate Boundary(f: Files, x: nat) {
    x in f.body || x == f.iend
  }

  lemma NextBoundary(f: Files, x: nat)
    requires FilesOk(f) && Boundary(f, x)
    ensures x <= f.iend
    ensures x in f.body ==> x < f.iend && Boundary(f, x + Size(f.body[x]))
    ensures Boundary(f, BASE)
  {
  }

  /** The listing holds the record at o exactly when o is at or after `from` and its key is not blank ... */
  lemma {:induction false} ListingHas(f: Files, from: nat, o: nat)
    requires FilesOk(f) && Boundary(f, from) && from <= o && o in f.body && !AllBlank(f.body[o].key)
    ensures (f.body[o].key, DataOf(f, o)) in Listing(f, from)
    decreases f.iend - from
  {
    hide DataTiles, ExtentsOk, BodiesOk, PointersOk, DataOf;
    NextBoundary(f, from);
    if from != o {
      ListingHas(f, from + Size(f.body[from]), o);
    }
  }

  ghost predicate LiveFrom(f: Files, a: Lists, from: nat, s: seq<(CString, CString)>) {
    && (forall e <- s :: e.0 in a.at && a.at[e.0] >= from && e.1 == DataOf(f, a.at[e.0]) && !AllBlank(e.0))
    && (forall i, j :: 0 <= i < j < |s| ==> s[i].0 != s[j].0)
  }

  /** ... and nothing else, no key twice. */
  lemma {:induction false} ListingOnly(f: Files, a: Lists, from: nat)
    requires FilesOk(f) && ListsOk(f.ptr, f.body, a, {}) && Boundary(f, from)
    ensures LiveFrom(f, a, from, Listing(f, from))
    decreases f.iend - from
  {
    hide FilesOk, AllLinked, Placed;
    NextBoundary(f, from);
    if from in f.body {
      var next := from + Size(f.body[from]);
      ListingOnly(f, a, next);
      if AllBlank(f.body[from].key) {
        assert Listing(f, from) == Listing(f, next);
      } else {
        LiveUnlessBlank(f, a, from);
        assert Listing(f, from) == [(f.body[from].key, DataOf(f, from))] + Listing(f, next);
      }
    }
  }

  lemma LiveUnlessBlank(f: Files, a: Lists, o: nat)
    requires ListsOk(f.ptr, f.body, a, {}) && o in f.body && !AllBlank(f.body[o].key)
    ensures Live(f.body, a, o)
  {
  }

  /** s holds every key of m that is not all blank, exactly once, with its data, and nothing else. */
  ghost predicate ListsAll(s: seq<(CString, CString)>, m: map<CString, CString>) {
    && (forall i, j :: 0 <= i < j < |s| ==> s[i].0 != s[j].0)
    && (forall e: (CString, CString) :: e in s <==> e.0 in m && m[e.0] == e.1 && !AllBlank(e.0))
  }

  lemma ListsVisible(s: seq<(CString, CString)>, m: map<CString, CString>)
    requires ListsAll(s, m)
    ensures forall key <- m | (exists i :: 0 <= i < |key| && key[i] != ' ') :: (key, m[key]) in s
  {
    forall key <- m | (exists i :: 0 <= i < |key| && key[i] != ' ') ensures (key, m[key]) in s {
      var i :| 0 <= i < |key| && key[i] != ' ';
      assert key[i] in key;
    }
  }

  lemma AtEnd(f: Files)
    ensures Listing(f, f.iend) == []
  {
  }

  lemma StoredData(f: Files, a: Lists, key: CString)
    requires FilesOk(f) && ListsOk(f.ptr, f.body, a, {}) && key in a.at
    ensures a.at[key] in f.body && f.body[a.at[key]].datoff in f.dat
    ensures key in Contents(f, a) && |Contents(f, a)[key]| + 1 == f.body[a.at[key]].datlen
    ensures |f.dat[f.body[a.at[key]].datoff]| == |Contents(f, a)[key]|
  {
    LiveKeys(f.ptr, f.body, a, {});
    RecordFacts(f, a.at[key]);
  }

  /** A full listing is the contents, blank keys aside, each key once. */
  lemma FullListing(f: Files, a: Lists)
    requires FilesOk(f) && ListsOk(f.ptr, f.body, a, {})
    ensures ListsAll(Listing(f, BASE), Contents(f, a))
  {
    hide FilesOk, AllLinked, Placed;
    NextBoundary(f, f.iend);
    ListingOnly(f, a, BASE);
    LiveKeys(f.ptr, f.body, a, {});
    var s, m := Listing(f, BASE), Contents(f, a);
    forall e: (CString, CString) | e.0 in m && m[e.0] == e.1 && !AllBlank(e.0) ensures e in s {
      RecordFacts(f, a.at[e.0]);
      ListingHas(f, BASE, a.at[e.0]);
      assert e == (e.0, e.1);
    }
  }

  /** No call makes the files grow by more than one record of the largest sizes. */
  const MAX_INDEX_GROWTH := PTR_SZ + IDXLEN_SZ + IDXLEN_MAX

  ghost predicate Grown(f: Files, f': Files) {
    f'.iend <= f.iend + MAX_INDEX_GROWTH && f'.dend <= f.dend + DATLEN_MAX
  }

  lemma AppendGrows(f: Files, f': Files, b: Body)
    requires LengthOk(b) && DataLengthOk(b.datlen)
    requires f'.iend == Max(f.iend, f.iend + Size(b)) && f'.dend == Max(f.dend, f.dend + b.datlen)
    ensures Grown(f, f')
  {
  }

  // ---- keys with a separator in them ----

  /** Every record can be read back. */
  ghost predicate AllReadable(body: map<nat, Body>) {
    forall o <- body :: KeyOk(body[o].key)
  }

  /** The walk for the key meets a record that cannot be read, before any with the key or as that one. */
  ghost predicate Blocked(body: map<nat, Body>, a: Lists, key: CString) {
    && |a.chains| == NHASH
    && exists j :: 0 <= j < |a.chains[Hash(key)]| && Blocks(body, a.chains[Hash(key)], key, j)
  }

  ghost predicate Blocks(body: map<nat, Body>, c: seq<nat>, key: CString, j: nat)
    requires j < |c|
  {
    && c[j] in body && !KeyOk(body[c[j]].key)
    && forall i :: 0 <= i < j ==> c[i] in body && body[c[i]].key != key
  }

  /** The key's record is the first of its chain. */
  ghost predicate Newest(body: map<nat, Body>, a: Lists, key: CString) {
    && |a.chains| == NHASH && |a.chains[Hash(key)]| > 0
    && a.chains[Hash(key)][0] in body && body[a.chains[Hash(key)][0]].key == key
  }

  /** A record that cannot be read, in front of a chain, blocks every key of the chain. */
  lemma NewestBlocks(body: map<nat, Body>, a: Lists, key: CString)
    requires Newest(body, a, key) && !KeyOk(key)
    ensures forall other: CString | Hash(other) == Hash(key) :: Blocked(body, a, other)
  {
    hide Hash;
    forall other: CString | Hash(other) == Hash(key) ensures Blocked(body, a, other) {
      assert Blocks(body, a.chains[Hash(other)], other, 0);
    }
  }

  lemma PushedNewest(body: map<nat, Body>, a: Lists, o: nat, b: Body)
    requires |a.chains| == NHASH
    ensures Newest(body[o := b], PushChain(a, o, b.key), b.key)
    ensures AllReadable(body) && KeyOk(b.key) ==> AllReadable(body[o := b])
  {
    hide Hash;
  }

  lemma AddedReadable(body: map<nat, Body>, o: nat, b: Body)
    ensures AllReadable(body) && KeyOk(b.key) ==> AllReadable(body[o := b])
  {
  }

  lemma BlankedReadable(body: map<nat, Body>, o: nat)
    ensures AllReadable(body) && o in body ==> AllReadable(body[o := Blanked(body[o])])
  {
  }

  class Db {
    var idxfile: string
    var datfile: string
    var idxpos: nat     // offset of the index file descriptor
    var idxbuf: CString // key of the record read last
    var idxoff: nat
    var datoff: nat
    var datlen: nat
    var ptrval: nat
    var ptroff: nat
    var chainoff: nat
    var cntDelOk: nat
    var cntDelErr: nat
    var cntFetchOk: nat
    var cntFetchErr: nat
    var cntNextRec: nat
    var cntStor1: nat
    var cntStor2: nat
    var cntStor3: nat
    var cntStor4: nat
    var cntStorErr: nat
    ghost var files: Files
    ghost var lists: Lists

    /** The bytes on disk are those of `files`. */
    ghost predicate Rep()
      reads `idxfile, `datfile, `files
    {
      FilesOk(files) && IndexBytes(idxfile, files) && DataBytes(datfile, files)
    }

    ghost predicate Valid()
      reads `idxfile, `datfile, `files, `lists
    {
      Rep() && ListsOk(files.ptr, files.body, lists, {})
    }

    ghost function Data(): map<CString, CString>
      requires Valid()
      reads `idxfile, `datfile, `files, `lists
    {
      Contents(files, lists)
    }

    /** The record with this key is the current one: found at place k of its chain. */
    ghost predicate Located(key: CString, k: nat)
      reads `files, `lists, `idxbuf, `idxoff, `datoff, `datlen, `ptrval, `ptroff, `chainoff
    {
      var h := Hash(key);
      && chainoff == HeadLoc(h)
      && |lists.chains| == NHASH
      && k < |lists.chains[h]| && lists.chains[h][k] == idxoff && ptroff == Field(chainoff, lists.chains[h], k)
      && idxoff in files.body && files.body[idxoff] == Body(key, datoff, datlen)
      && idxoff in files.ptr && files.ptr[idxoff] == ptrval
      && idxbuf == key
    }

    /** How far the counters are from the numbers of index, live and free records: 0 since creation by this handle. */
    ghost function Balance(): (b: (int, int, int))
      reads `files, `lists, `cntStor1, `cntStor2, `cntStor3, `cntDelOk
    {
      (Count(files.body) - cntStor1 - cntStor3,
       Count(lists.at) - cntStor1 - cntStor2 + cntDelOk,
       |lists.free| + cntStor2 - cntStor3 - cntDelOk)
    }

    /** How many stores have been counted as done. */
    function Stored(): nat
      reads `cntStor1, `cntStor2, `cntStor3, `cntStor4
    {
      cntStor1 + cntStor2 + cntStor3 + cntStor4
    }

    /** The counters agree with the records: appended and reused, live and deleted. */
    ghost predicate Conserved()
      reads `files, `lists, `cntStor1, `cntStor2, `cntStor3, `cntDelOk
    {
      && Count(files.body) == cntStor1 + cntStor3
      && Count(lists.at) == cntStor1 + cntStor2 - cntDelOk
      && |lists.free| == cntStor3 + cntDelOk - cntStor2
    }

    /**
     What a store leaves that gives up between its writes: well-formed files that hold m. There may be a record on no
     list, at an offset that fits no pointer.
     */
    ghost predicate Stopped(lost: set<nat>, m: map<CString, CString>)
      reads `idxfile, `datfile, `files, `lists
    {
      Rep() && ListsOk(files.ptr, files.body, lists, lost) && Contents(files, lists) == m && forall o <- lost :: o > PTR_MAX
    }

    /** db_open() creating the database. */
    constructor Create()
      ensures Valid() && Data() == map[] && Balance() == (0, 0, 0)
      ensures files.iend == BASE && files.dend == 0 && AllReadable(files.body)
    {
      hide FilesOk, IndexBytes, DataBytes, ListsOk, Contents, EmptyFiles, EmptyLists;
      var table := HashTable();
      idxfile := table;
      datfile := "";
      idxpos := BASE;
      idxbuf := "";
      idxoff, datoff, datlen, ptrval, ptroff, chainoff := BASE, 0, 0, 0, 0, 0;
      cntDelOk, cntDelErr, cntFetchOk, cntFetchErr, cntNextRec := 0, 0, 0, 0, 0;
      cntStor1, cntStor2, cntStor3, cntStor4, cntStorErr := 0, 0, 0, 0, 0;
      files, lists := EmptyFiles(), EmptyLists();
      new;
      EmptyListsOk();
      EmptyData();
    }

    /** _db_readptr() */
    method ReadPtr(loc: nat) returns (v: nat)
      requires Rep() && loc in files.ptr
      modifies `idxpos
      ensures v == files.ptr[loc]
    {
      ReadPtrBytes(idxfile, files, loc);
      idxpos := loc + PTR_SZ;
      v := DbBytes.ReadPtr(idxfile, loc).value;
    }

    /**
     _db_readidx(): on a record of a well-formed file one sanity check can fire, that for too many separators, and it
     does exactly when the key has one in it; ok is false where it ends the program.
     */
    method ReadIdx(offset: nat) returns (ok: bool, next: nat)
      requires Rep() && offset in files.body
      modifies `idxpos, `idxbuf, `idxoff, `datoff, `datlen, `ptrval
      ensures ok <==> KeyOk(files.body[offset].key)
      ensures ok ==> idxoff == offset && Body(idxbuf, datoff, datlen) == files.body[offset]
      ensures ok ==> next == ptrval == files.ptr[offset]
      ensures ok ==> idxpos == offset + Size(files.body[offset])
    {
      hide IndexBytes, DataBytes, DbBytes.ReadHdr, DbBytes.ReadText;
      ReadHdrBytes(idxfile, files, offset);
      ReadTextBytes(idxfile, files, offset);
      idxoff := offset;
      var (v, len) := DbBytes.ReadHdr(idxfile, offset).value;
      ptrval, next := v, v;
      match DbBytes.ReadText(idxfile, offset, len)
      case None => ok := false;
      case Some(b) =>
        idxbuf, datoff, datlen := b.key, b.datoff, b.datlen;
        idxpos := offset + PTR_SZ + IDXLEN_SZ + len;
        ok := true;
    }

    /** _db_readdat() */
    method ReadDat() returns (data: CString)
      requires Rep() && datoff in files.dat && datlen == |files.dat[datoff]| + 1
      ensures data == files.dat[datoff]
    {
      ReadDatBytes(datfile, files, datoff);
      data := DbBytes.ReadDat(datfile, datoff, datlen).value;
    }

    /** _db_writeptr(): false when the pointer does not fit its field, which ends the program. */
    method WritePtr(loc: nat, v: nat) returns (ok: bool)
      requires Rep() && loc in files.ptr
      modifies `idxfile, `idxpos, `files
      ensures ok <==> v <= PTR_MAX
      ensures ok ==> Rep() && files == SetPtr(old(files), loc, v)
      ensures !ok ==> Rep() && files == old(files)
    {
      hide FilesOk, IndexBytes, DataBytes, PtrField, Overwrite;
      if v > PTR_MAX {
        return false;
      }
      WritePtrBytes(idxfile, files, loc, v);
      SetPtrOk(files, loc, v);
      SameData(datfile, files, SetPtr(files, loc, v));
      idxfile := Overwrite(idxfile, loc, PtrField(v));
      idxpos := loc + PTR_SZ;
      files := SetPtr(files, loc, v);
      ok := true;
    }

    /** _db_writedat(): overwrite an extent, or append one. */
    method WriteDat(data: CString, offset: nat, append: bool)
      requires Rep()
      requires !append ==> offset in files.dat && |data| == |files.dat[offset]|
      modifies `datfile, `datoff, `datlen, `files
      ensures Rep()
      ensures datoff == (if append then old(files).dend else offset) && datlen == |data| + 1
      ensures files == SetDat(old(files), datoff, data)
      ensures append ==> datoff !in old(files).dat
      ensures !append ==> files.dend == old(files).dend
    {
      hide FilesOk, IndexBytes, DataBytes, Overwrite;
      FileLengths(idxfile, datfile, files);
      datoff := if append then |datfile| else offset;
      datlen := |data| + 1;
      WriteDatBytes(datfile, files, datoff, data);
      SameIndex(idxfile, files, SetDat(files, datoff, data));
      if append {
        AppendDatOk(files, data);
      } else {
        OverwriteDatOk(files, datoff, data);
      }
      datfile := Overwrite(datfile, datoff, data + "\n");
      files := SetDat(files, datoff, data);
    }

    /** _db_writeidx(): rewrite a record at its own length, or append one; false when its length is out of range. */
    method WriteIdx(key: CString, offset: nat, append: bool, v: nat) returns (ok: bool)
      requires Rep() && v <= PTR_MAX
      requires datoff in files.dat && datlen == |files.dat[datoff]| + 1 && DataLengthOk(datlen)
      requires !append ==>
        && offset in files.body && |key| == |files.body[offset].key|
        && datoff == files.body[offset].datoff && datlen == files.body[offset].datlen
      requires append ==> forall o <- files.body :: files.body[o].datoff != datoff
      modifies `idxfile, `idxpos, `idxoff, `ptrval, `files
      ensures ok <==> LengthOk(Body(key, datoff, datlen))
      ensures Rep() && (!ok ==> files == old(files))
      ensures ok ==> idxoff == (if append then old(files).iend else offset) && ptrval == v
      ensures ok ==> files == SetRec(old(files), idxoff, v, Body(key, datoff, datlen))
      ensures ok && append ==> idxoff !in old(files).body
      ensures !append ==> ok && files.iend == old(files).iend
    {
      hide FilesOk, IndexBytes, DataBytes, RecordBytes, Overwrite;
      var b := Body(key, datoff, datlen);
      ptrval := v;
      if !append {
        RecordFacts(files, offset);
      }
      if !LengthOk(b) {
        return false;
      }
      FileLengths(idxfile, datfile, files);
      idxoff := if append then |idxfile| else offset;
      WriteIdxBytes(idxfile, files, idxoff, v, b);
      SameData(datfile, files, SetRec(files, idxoff, v, b));
      if append {
        AppendRecOk(files, v, b);
      } else {
        RewriteOk(files, offset, v, b);
      }
      idxfile := Overwrite(idxfile, idxoff, RecordBytes(v, b));
      idxpos := idxoff + Size(b);
      files := SetRec(files, idxoff, v, b);
      ok := true;
    }

    /** _db_find_and_lock(): walk the chain of the key. */
    method Find(key: CString) returns (ok: bool, found: bool, ghost k: nat)
      requires Valid()
      modifies `idxpos, `idxbuf, `idxoff, `datoff, `datlen, `ptrval, `ptroff, `chainoff
      ensures ok <==> !Blocked(files.body, lists, key)
      ensures chainoff == HeadLoc(Hash(key))
      ensures ok ==> (found <==> key in lists.at)
      ensures ok ==> (found <==> key in Data())
      ensures ok && found ==> Located(key, k) && idxoff == lists.at[key] && KeyOk(key)
    {
      hide FilesOk, IndexBytes, DataBytes, AllLinked, Placed, Hash, IsCString, Linked, Size, BodyOk, IndexTiles, DigitCount;
      var h := Hash(key);
      ghost var chain := lists.chains[h];
      chainoff := HeadLoc(h);
      ptroff := chainoff;
      k := 0;
      ContentsKeys(files, lists);
      ChainFacts(files, lists, {}, h, 0);
      var offset := ReadPtr(ptroff);
      while offset != 0
        invariant chainoff == HeadLoc(h) && k <= |chain|
        invariant offset == Target(chain, k) && ptroff == Field(chainoff, chain, k)
        invariant forall j :: 0 <= j < k ==> chain[j] in files.body && files.body[chain[j]].key != key && KeyOk(files.body[chain[j]].key)
        decreases |chain| - k
      {
        ChainFacts(files, lists, {}, h, k);
        ChainFacts(files, lists, {}, h, k + 1);
        var read, nextoffset := ReadIdx(offset);
        if !read {
          assert Blocks(files.body, chain, key, k);
          return false, false, k;
        }
        if idxbuf == key {
          return true, true, k;
        }
        ptroff := offset;
        offset := nextoffset;
        k := k + 1;
      }
      ok, found := true, false;
      ChainFacts(files, lists, {}, h, k);
      if key in lists.at {
        KeyOnChain(files, lists, {}, key);
      }
    }

    /** db_fetch(): the data of the key, None when there is none. */
    method Fetch(key: CString) returns (ok: bool, r: Option<CString>)
      requires Valid()
      modifies `idxpos, `idxbuf, `idxoff, `datoff, `datlen, `ptrval, `ptroff, `chainoff, `cntFetchOk, `cntFetchErr
      ensures ok <==> !old(Blocked(files.body, lists, key))
      ensures Valid() && Data() == old(Data())
      ensures ok ==> r == if key in Data() then Some(Data()[key]) else None
      ensures ok ==> cntFetchOk + cntFetchErr == old(cntFetchOk + cntFetchErr) + 1
      ensures ok ==> (r.Some? <==> cntFetchOk == old(cntFetchOk) + 1)
    {
      hide FilesOk, IndexBytes, DataBytes, AllLinked, Placed, Hash, Blocked;
      var found;
      ghost var k;
      ok, found, k := Find(key);
      if !ok {
        return false, None;
      }
      if !found {
        r := None;
        cntFetchErr := cntFetchErr + 1;
      } else {
        RecordFacts(files, idxoff);
        var data := ReadDat();
        r := Some(data);
        cntFetchOk := cntFetchOk + 1;
      }
    }

    /** _db_dodelete(): the current record goes from its chain to the free list, blanked out. */
    method DoDelete(ghost key: CString, ghost k: nat)
      requires Valid() && Located(key, k)
      modifies `idxfile, `datfile, `idxpos, `idxbuf, `idxoff, `datoff, `datlen, `ptrval, `files, `lists
      ensures Valid() && idxoff == old(idxoff) && idxoff in old(files).body
      ensures files.iend == old(files).iend && files.dend == old(files).dend
      ensures files.body == old(files).body[idxoff := Blanked(old(files).body[idxoff])]
      ensures
        var d := old(files).body[idxoff].datoff;
        d in files.dat && AllBlank(files.dat[d]) && files.dat.Keys == old(files).dat.Keys
        && forall x <- old(files).dat | x != d :: files.dat[x] == old(files).dat[x]
      ensures lists == DeletedLists(old(lists), Hash(key), k, key)
      ensures Count(files.body) == Count(old(files).body)
      ensures Count(lists.at) + 1 == Count(old(lists).at) && |lists.free| == |old(lists).free| + 1
      ensures Data() == old(Data()) - {key}
    {
      hide FilesOk, IndexBytes, DataBytes, AllLinked, Placed, Hash, Contents, Count, IsCString, Linked, Size, BodyOk, IndexTiles, DigitCount;
      ghost var f0, a0, h := files, lists, Hash(key);
      RecordFacts(f0, idxoff);
      RootFacts(f0, h);
      ChainFacts(f0, a0, {}, h, k);
      AllRecordFacts(f0);
      PredecessorApart(f0, a0, h, k);
      DeleteSurgery(f0, a0, h, k);
      idxbuf := BlankString(|idxbuf|);
      WriteDat(BlankString(datlen - 1), datoff, false);
      var freeptr := ReadPtr(FREE_OFF);
      var saveptr := ptrval;
      var _ := WriteIdx(idxbuf, idxoff, false, freeptr);
      var _ := WritePtr(FREE_OFF, idxoff);
      var _ := WritePtr(ptroff, saveptr);
      lists := DeletedLists(a0, h, k, key);
      SameCount(f0.body, files.body);
      OneLess(a0.at, key);
      DeletedContents(f0, files, a0, h, k, BlankString(f0.body[idxoff].datlen - 1));
    }

    /** _db_findfree(): take the first free record of exactly these sizes off the free list. */
    method FindFree(keylen: nat, len: nat) returns (found: bool)
      requires Valid()
      modifies `idxfile, `idxpos, `idxbuf, `idxoff, `datoff, `datlen, `ptrval, `files, `lists
      ensures Rep() && files == old(files).(ptr := files.ptr)
      ensures files.ptr.Keys == old(files).ptr.Keys
      ensures forall h :: 0 <= h < NHASH ==> HeadLoc(h) in files.ptr && files.ptr[HeadLoc(h)] == old(files).ptr[HeadLoc(h)]
      ensures lists == old(lists).(free := lists.free)
      ensures found <==> exists o <- old(lists).free :: FreeFits(files.body, o, keylen, len)
      ensures !found ==> forall o <- old(lists).free :: o in files.body ==> |files.body[o].key| != keylen || files.body[o].datlen != len
      ensures found ==> idxoff in files.body && |files.body[idxoff].key| == keylen && files.body[idxoff].datlen == len
      ensures !found ==> Valid() && lists == old(lists)
      ensures found ==> ListsOk(files.ptr, files.body, lists, {idxoff}) && !Live(files.body, lists, idxoff)
      ensures found ==> |lists.free| + 1 == |old(lists).free|
      ensures found ==> idxoff <= PTR_MAX
      ensures found ==> FreeFits(files.body, idxoff, keylen, len) && datoff == files.body[idxoff].datoff
    {
      hide FilesOk, IndexBytes, DataBytes, AllLinked, Placed;
      ghost var f0, a0 := files, lists;
      ghost var free, k := lists.free, 0;
      var saveoffset := FREE_OFF;
      FreeFacts(f0, a0, {}, 0);
      FreeFieldsApart(f0, a0, 0);
      AllRecordFacts(f0);
      var offset := ReadPtr(saveoffset);
      while offset != 0
        invariant files == f0 && lists == a0 && Valid()
        invariant k <= |free| && offset == Target(free, k) && saveoffset == Field(FREE_OFF, free, k)
        invariant forall j :: 0 <= j < k ==> !FreeFits(files.body, free[j], keylen, len)
        decreases |free| - k
      {
        FreeFacts(f0, a0, {}, k);
        FreeFacts(f0, a0, {}, k + 1);
        var _, nextoffset := ReadIdx(offset);
        if |idxbuf| == keylen && datlen == len {
          break;
        }
        saveoffset := offset;
        offset := nextoffset;
        k := k + 1;
      }
      FreeFacts(f0, a0, {}, k);
      if offset == 0 {
        found := false;
      } else {
        FreeFieldsApart(f0, a0, k);
        PopFreeOk(f0.ptr, f0.body, a0, {}, k);
        var _ := WritePtr(saveoffset, ptrval);
        lists := lists.(free := Without(free, k));
        assert free[k] in free;
        assert {} + {idxoff} == {idxoff};
        found := true;
      }
    }

    /** Append index and data records and put them on the front of the chain; false where the program gives up. */
    method Append(key: CString, data: CString, v: nat) returns (ok: bool)
      requires Valid() && DataLengthOk(|data| + 1) && key !in lists.at
      requires chainoff == HeadLoc(Hash(key)) && chainoff in files.ptr && v == files.ptr[chainoff]
      modifies `idxfile, `datfile, `idxpos, `idxoff, `datoff, `datlen, `ptrval, `files, `lists
      ensures ok <==> LengthOk(Body(key, old(files).dend, |data| + 1)) && old(files).iend <= PTR_MAX
      ensures ok ==> Valid() && Data() == old(Data())[key := data]
      ensures ok ==> lists == PushChain(old(lists), old(files).iend, key)
      ensures ok ==> files.body == old(files).body[old(files).iend := Body(key, old(files).dend, |data| + 1)]
      ensures ok ==> Count(files.body) == Count(old(files).body) + 1
      ensures ok ==> Count(lists.at) == Count(old(lists).at) + 1
      ensures ok ==> Grown(old(files), files)
      ensures !ok ==> exists lost :: Stopped(lost, old(Data()))
    {
      hide FilesOk, IndexBytes, DataBytes, AllLinked, Placed, Hash, Contents, LengthOk, Count, Grown, IsCString, Linked, Size, BodyOk, IndexTiles, DigitCount;
      ghost var f0, a0, m := files, lists, Data();
      AllRecordFacts(f0);
      AppendPlace(f0);
      ghost var b := Body(key, f0.dend, |data| + 1);
      WriteDat(data, 0, true);
      RecordFactsAll(f0);
      AppendedSame(f0, f0.body, a0, files.dat);
      ok := WriteIdx(key, 0, true, v);
      if !ok {
        assert Stopped({}, m);
        return;
      }
      ok := WritePtr(chainoff, idxoff);
      if !ok {
        RewriteOwnOk(f0.ptr, f0.body, a0, {}, idxoff, v, b);
        AppendedSame(f0, files.body, a0, files.dat);
        assert Stopped({} + {idxoff}, m);
        return;
      }
      LinkSurgery(f0, a0, {}, idxoff, b);
      OneMore(f0.body, idxoff, b);
      OneMore(a0.at, key, idxoff);
      lists := PushChain(a0, idxoff, key);
      LiveKeys(f0.ptr, f0.body, a0, {});
      LinkedContents(f0, files, a0, {}, idxoff, b, data);
      AppendGrows(f0, files, b);
    }

    /** db_delete(): 0 when the key was there, -1 when not. */
    method Delete(key: CString) returns (ok: bool, rc: int)
      requires Valid()
      modifies `idxfile, `datfile, `idxpos, `idxbuf, `idxoff, `datoff, `datlen, `ptrval, `ptroff, `chainoff
      modifies `cntDelOk, `cntDelErr, `files, `lists
      ensures ok <==> !old(Blocked(files.body, lists, key))
      ensures !ok ==> Valid() && Data() == old(Data())
      ensures ok ==> Valid() && Data() == old(Data()) - {key}
      ensures ok ==> rc == if key in old(Data()) then 0 else -1
      ensures ok ==> cntDelOk == old(cntDelOk) + (if rc == 0 then 1 else 0) && cntDelErr == old(cntDelErr) + if rc == -1 then 1 else 0
      ensures ok ==> Balance() == old(Balance()) && files.iend == old(files).iend && files.dend == old(files).dend
      ensures ok && AllReadable(old(files).body) ==> AllReadable(files.body)
    {
      hide Valid, Data, Located, Hash, HashFrom, DeletedLists, Blanked, IsCString, Count, Blocked, AllReadable;
      var found;
      ghost var k;
      ok, found, k := Find(key);
      if !ok {
        return false, 0;
      }
      BlankedReadable(files.body, idxoff);
      if found {
        DoDelete(key, k);
        cntDelOk := cntDelOk + 1;
        rc := 0;
      } else {
        rc := -1;
        cntDelErr := cntDelErr + 1;
      }
    }

    /** Whether storing needs new space at the ends of the files. */
    ghost predicate MustAppend(key: CString, data: CString, flag: int)
      requires Valid()
      reads `idxfile, `datfile, `files, `lists
    {
      if key !in Data() then
        flag != DB_REPLACE && !exists o <- lists.free :: FreeFits(files.body, o, |key|, |data| + 1)
      else flag != DB_INSERT && |Data()[key]| != |data|
    }

    /**
     Whether db_store() comes back: the data length is legal, the walk of the chain meets no record that cannot be read,
     and the record length and offset are legal where it appends.
     */
    ghost predicate StoreReturns(key: CString, data: CString, flag: int)
      requires Valid()
      reads `idxfile, `datfile, `files, `lists
    {
      (flag == DB_INSERT || flag == DB_REPLACE || flag == DB_STORE) ==>
        && DataLengthOk(|data| + 1)
        && !Blocked(files.body, lists, key)
        && (MustAppend(key, data, flag) ==>
            LengthOk(Body(key, files.dend, |data| + 1)) && files.iend <= PTR_MAX)
    }

    /** Give a record taken off the free list to a new key. */
    method Reuse(key: CString, data: CString, v: nat)
      requires Rep() && ListsOk(files.ptr, files.body, lists, {idxoff}) && !Live(files.body, lists, idxoff)
      requires key !in lists.at
      requires idxoff <= PTR_MAX
      requires FreeFits(files.body, idxoff, |key|, |data| + 1) && datoff == files.body[idxoff].datoff
      requires chainoff == HeadLoc(Hash(key)) && chainoff in files.ptr && v == files.ptr[chainoff]
      modifies `idxfile, `datfile, `idxpos, `idxoff, `datoff, `datlen, `ptrval, `files, `lists
      ensures Valid() && lists == PushChain(old(lists), old(idxoff), key)
      ensures Data() == Contents(old(files), old(lists))[key := data]
      ensures files.iend == old(files).iend && files.dend == old(files).dend
      ensures files.body == old(files).body[old(idxoff) := Body(key, old(datoff), |data| + 1)]
      ensures Count(files.body) == Count(old(files).body) && Count(lists.at) == Count(old(lists).at) + 1
    {
      hide FilesOk, IndexBytes, DataBytes, AllLinked, Placed, Hash, Contents, LengthOk, Count;
      ghost var f1, a1, o := files, lists, idxoff;
      ghost var b := Body(key, f1.body[o].datoff, |data| + 1);
      RecordFacts(f1, o);
      AllRecordFacts(f1);
      WriteDat(data, datoff, false);
      var _ := WriteIdx(key, idxoff, false, v);
      var _ := WritePtr(chainoff, idxoff);
      LinkSurgery(f1, a1, {o}, o, b);
      lists := PushChain(a1, o, key);
      LiveKeys(f1.ptr, f1.body, a1, {o});
      LinkedContents(f1, files, a1, {o}, o, b, data);
      OneMore(a1.at, key, o);
      SameCount(f1.body, files.body);
    }

    /** Store under a key that is not there: reuse a free record or append one. */
    method Insert(key: CString, data: CString) returns (ok: bool)
      requires Valid() && DataLengthOk(|data| + 1) && key !in lists.at && chainoff == HeadLoc(Hash(key))
      modifies `idxfile, `datfile, `idxpos, `idxbuf, `idxoff, `datoff, `datlen, `ptrval, `files, `lists
      modifies `cntStor1, `cntStor2
      ensures ok <==> (old(MustAppend(key, data, DB_INSERT)) ==>
        LengthOk(Body(key, old(files).dend, |data| + 1)) && old(files).iend <= PTR_MAX)
      ensures ok ==> Valid() && Data() == old(Data())[key := data]
      ensures ok ==> Balance() == old(Balance()) && Grown(old(files), files)
      ensures ok ==> Newest(files.body, lists, key)
      ensures !ok ==> exists lost :: Stopped(lost, old(Data()))
      ensures ok ==> cntStor1 + cntStor2 == old(cntStor1 + cntStor2) + 1
      ensures ok && KeyOk(key) && AllReadable(old(files).body) ==> AllReadable(files.body)
    {
      hide FilesOk, IndexBytes, DataBytes, AllLinked, Placed, Hash, Contents, LengthOk, FreeFits, Count, IsCString, AllReadable, Newest, Linked, Size, BodyOk, IndexTiles, DigitCount;
      RootFacts(files, Hash(key));
      ContentsKeys(files, lists);
      ghost var f0, a0 := files, lists;
      var v := ReadPtr(chainoff);
      var found := FindFree(|key|, |data| + 1);
      SameContents(f0, files, a0, lists);
      if !found {
        ok := Append(key, data, v);
        if !ok {
          return;
        }
        cntStor1 := cntStor1 + 1;
        PushedNewest(f0.body, a0, f0.iend, Body(key, f0.dend, |data| + 1));
      } else {
        PushedNewest(f0.body, lists, idxoff, Body(key, datoff, |data| + 1));
        Reuse(key, data, v);
        cntStor2 := cntStor2 + 1;
        ok := true;
      }
    }

    /** Store under a key that is not there: a replacement is refused. */
    method StoreNew(key: CString, data: CString, flag: int) returns (ok: bool, rc: int)
      requires Valid() && DataLengthOk(|data| + 1) && key !in lists.at && chainoff == HeadLoc(Hash(key))
      modifies `idxfile, `datfile, `idxpos, `idxbuf, `idxoff, `datoff, `datlen, `ptrval, `files, `lists
      modifies `cntStor1, `cntStor2, `cntStorErr
      ensures flag == DB_REPLACE ==>
        ok && rc == -1 && files == old(files) && lists == old(lists) && cntStorErr == old(cntStorErr) + 1 && Stored() == old(Stored())
      ensures flag != DB_REPLACE ==> rc == 0 && cntStorErr == old(cntStorErr) && (ok ==> Stored() == old(Stored()) + 1)
      ensures flag != DB_REPLACE ==>
        (ok <==> (old(MustAppend(key, data, DB_INSERT)) ==>
          LengthOk(Body(key, old(files).dend, |data| + 1)) && old(files).iend <= PTR_MAX))
      ensures ok ==> Valid() && Data() == if flag == DB_REPLACE then old(Data()) else old(Data())[key := data]
      ensures ok ==> Balance() == old(Balance()) && Grown(old(files), files)
      ensures !ok ==> exists lost :: Stopped(lost, old(Data()))
      ensures ok && KeyOk(key) && AllReadable(old(files).body) ==> AllReadable(files.body)
      ensures ok && rc == 0 && !KeyOk(key) ==> forall other: CString | Hash(other) == Hash(key) :: Blocked(files.body, lists, other)
    {
      hide FilesOk, IndexBytes, DataBytes, ListsOk, Hash, Contents, LengthOk, Count, FreeFits, Blocked, AllReadable, Newest, IsCString, Stopped;
      if flag == DB_REPLACE {
        cntStorErr := cntStorErr + 1;
        return true, -1;
      }
      ok := Insert(key, data);
      rc := 0;
      if ok && !KeyOk(key) {
        NewestBlocks(files.body, lists, key);
      }
    }

    /** db_store(): ok is false where the program ends with a message instead of returning rc. */
    method Store(key: CString, data: CString, flag: int) returns (ok: bool, rc: int)
      requires Valid()
      modifies `idxfile, `datfile, `idxpos, `idxbuf, `idxoff, `datoff, `datlen, `ptrval, `ptroff, `chainoff
      modifies `cntStor1, `cntStor2, `cntStor3, `cntStor4, `cntStorErr, `files, `lists
      ensures ok <==> old(StoreReturns(key, data, flag))
      ensures ok ==> Valid() && (rc, Data()) == StoreSpec(old(Data()), key, data, flag)
      ensures ok ==> rc in {-1, 0, 1} && (rc == 1 <==> flag == DB_INSERT && key in old(Data()))
      ensures ok ==> (rc == -1 <==> !(flag in {DB_INSERT, DB_REPLACE, DB_STORE}) || (flag == DB_REPLACE && key !in old(Data())))
      ensures !ok && (old(Blocked(files.body, lists, key)) || !DataLengthOk(|data| + 1)) ==>
                Valid() && files == old(files) && lists == old(lists)
      ensures !ok && !old(Blocked(files.body, lists, key)) && DataLengthOk(|data| + 1) ==>
                exists lost :: Stopped(lost, old(Data()) - {key})
      ensures ok ==> Balance() == old(Balance()) && Grown(old(files), files)
      ensures ok && rc == 0 ==>
        Stored() == old(Stored()) + 1 && cntStorErr == old(cntStorErr)
      ensures ok && rc != 0 ==>
        && cntStorErr == old(cntStorErr) + (if flag in {DB_INSERT, DB_REPLACE, DB_STORE} then 1 else 0)
        && Stored() == old(Stored())
      ensures ok && KeyOk(key) && AllReadable(old(files).body) ==> AllReadable(files.body)
      ensures ok && rc == 0 && !KeyOk(key) ==> forall other: CString | Hash(other) == Hash(key) :: Blocked(files.body, lists, other)
    {
      hide FilesOk, IndexBytes, DataBytes, ListsOk, Hash, Contents, LengthOk, Count, FreeFits, Blocked, AllReadable, Newest, IsCString, Linked, Size, BodyOk, IndexTiles, DigitCount, Balance, Stored;
      StoreLaws(Data(), key, data, flag);
      if flag != DB_INSERT && flag != DB_REPLACE && flag != DB_STORE {
        return true, -1;
      }
      var len := |data| + 1;
      if len < DATLEN_MIN || len > DATLEN_MAX {
        return false, 0;
      }
      var found;
      ghost var k;
      ok, found, k := Find(key);
      if !ok {
        return false, 0;
      }
      if !found {
        assert old(Data()) - {key} == old(Data());
        ok, rc := StoreNew(key, data, flag);
      } else if flag == DB_INSERT {
        cntStorErr := cntStorErr + 1;
        return true, 1;
      } else {
        ok := Replace(key, data, k);
        rc := 0;
      }
    }

    /** Store under a key that is there: overwrite data of the same length, or delete the record and append another. */
    method Replace(key: CString, data: CString, ghost k: nat) returns (ok: bool)
      requires Valid() && Located(key, k) && DataLengthOk(|data| + 1) && key in Data() && key in lists.at && idxoff == lists.at[key]
      modifies `idxfile, `datfile, `idxpos, `idxbuf, `idxoff, `datoff, `datlen, `ptrval, `cntStor3, `cntStor4, `files, `lists
      ensures ok <==> (|old(Data())[key]| != |data| ==>
        LengthOk(Body(key, old(files).dend, |data| + 1)) && old(files).iend <= PTR_MAX)
      ensures ok ==> Valid() && Data() == old(Data())[key := data]
      ensures !ok ==> exists lost :: Stopped(lost, old(Data()) - {key})
      ensures ok ==> Balance() == old(Balance()) && Grown(old(files), files)
      ensures ok ==> Stored() == old(Stored()) + 1
      ensures ok && KeyOk(key) && AllReadable(old(files).body) ==> AllReadable(files.body)
    {
      hide FilesOk, IndexBytes, DataBytes, AllLinked, Placed, Hash, Contents, LengthOk, Count, AllReadable;
      StoredData(files, lists, key);
      if |data| + 1 != datlen {
        ok := Regrow(key, data, k);
      } else {
        ReplacedContents(files, lists, key, data);
        WriteDat(data, datoff, false);
        cntStor4 := cntStor4 + 1;
        ok := true;
      }
    }

    /** Replace a record by one of another length: delete it and append the new one. */
    method Regrow(key: CString, data: CString, ghost k: nat) returns (ok: bool)
      requires Valid() && Located(key, k) && DataLengthOk(|data| + 1) && key in Data()
      modifies `idxfile, `datfile, `idxpos, `idxbuf, `idxoff, `datoff, `datlen, `ptrval, `cntStor3, `files, `lists
      ensures ok <==> LengthOk(Body(key, old(files).dend, |data| + 1)) && old(files).iend <= PTR_MAX
      ensures ok ==> Valid() && Data() == old(Data())[key := data]
      ensures !ok ==> exists lost :: Stopped(lost, old(Data()) - {key})
      ensures ok ==> Balance() == old(Balance()) && Grown(old(files), files)
      ensures ok ==> cntStor3 == old(cntStor3) + 1
      ensures ok && KeyOk(key) && AllReadable(old(files).body) ==> AllReadable(files.body)
    {
      hide FilesOk, IndexBytes, DataBytes, AllLinked, Placed, Hash, Contents, LengthOk, Count, AllReadable, IsCString, Linked, Size, BodyOk, IndexTiles, DigitCount;
      ContentsKeys(files, lists);
      BlankedReadable(files.body, idxoff);
      DoDelete(key, k);
      ghost var b1, e1, d1 := files.body, files.iend, files.dend;
      RootFacts(files, Hash(key));
      var v := ReadPtr(chainoff);
      ok := Append(key, data, v);
      if !ok {
        return;
      }
      AddedReadable(b1, e1, Body(key, d1, |data| + 1));
      cntStor3 := cntStor3 + 1;
    }

    /** db_rewind() */
    method Rewind()
      modifies `idxpos, `idxoff
      ensures idxpos == BASE
    {
      idxpos := (NHASH + 1) * PTR_SZ + 1;
      idxoff := idxpos;
    }

    /**
     db_nextrec(): the next record in file order whose key is not blank, with its data; None at the end; ok is false
     where that record cannot be read, which ends the program.
     */
    method NextRec() returns (ok: bool, r: Option<(CString, CString)>)
      requires Valid() && Boundary(files, idxpos)
      modifies `idxpos, `idxbuf, `idxoff, `datoff, `datlen, `ptrval, `cntNextRec
      ensures
        var todo := Listing(files, old(idxpos));
        && (ok <==> todo == [] || KeyOk(todo[0].0))
        && (ok ==> Boundary(files, idxpos))
        && (ok ==> cntNextRec == old(cntNextRec) + if todo == [] then 0 else 1)
        && (ok && todo == [] ==> r == None)
        && (ok && todo != [] ==> r == Some(todo[0]) && Listing(files, idxpos) == todo[1..] && idxpos > old(idxpos))
    {
      hide FilesOk, IndexBytes, DataBytes, ListsOk, IsCString;
      ghost var start := idxpos;
      r := None;
      while true
        invariant Boundary(files, idxpos) && start <= idxpos
        invariant Listing(files, idxpos) == Listing(files, start) && cntNextRec == old(cntNextRec)
        decreases files.iend - idxpos
      {
        NextBoundary(files, idxpos);
        FileLengths(idxfile, datfile, files);
        if idxpos == |idxfile| {
          AtEnd(files);
          return true, None;
        }
        ghost var at := idxpos;
        ListingFrom(files, at);
        var next;
        ok, next := ReadIdx(idxpos);
        if !ok {
          return false, None;
        }
        if !AllBlank(idxbuf) {
          break;
        }
      }
      RecordFacts(files, idxoff);
      var data := ReadDat();
      cntNextRec := cntNextRec + 1;
      r := Some((idxbuf, data));
    }

    /** Rewinding and calling db_nextrec() until it has nothing more, which is possible exactly when every key can be read. */
    method ReadAll() returns (ok: bool, all: seq<(CString, CString)>)
      requires Valid()
      modifies `idxpos, `idxbuf, `idxoff, `datoff, `datlen, `ptrval, `cntNextRec
      ensures Data() == old(Data())
      ensures ok <==> forall k <- Data() :: KeyOk(k)
      ensures ok ==> all == Listing(files, BASE) && ListsAll(all, Data())
      ensures ok ==> forall key <- Data() | (exists i :: 0 <= i < |key| && key[i] != ' ') :: (key, Data()[key]) in all
    {
      hide FilesOk, IndexBytes, DataBytes, ListsOk, Contents, ListsAll, Listing, IsCString, KeyOk;
      Rewind();
      NextBoundary(files, files.iend);
      FullListing(files, lists);
      ListedKeys(Listing(files, BASE), Data());
      all := [];
      while true
        invariant Boundary(files, idxpos)
        invariant all + Listing(files, idxpos) == Listing(files, BASE)
        invariant forall i :: 0 <= i < |all| ==> KeyOk(all[i].0)
        decreases files.iend - idxpos
      {
        NextBoundary(files, idxpos);
        ghost var todo := Listing(files, idxpos);
        var r;
        ok, r := NextRec();
        if !ok {
          assert Listing(files, BASE)[|all|] == todo[0];
          return;
        }
        if r == None {
          break;
        }
        NextBoundary(files, idxpos);
        all := all + [r.value];
      }
      assert all == Listing(files, BASE);
      ListsVisible(all, Data());
    }
  }

  lemma ListingFrom(f: Files, from: nat)
    requires FilesOk(f) && from in f.body
    ensures
      var b, rest := f.body[from], Listing(f, from + Size(f.body[from]));
      Listing(f, from) == if AllBlank(b.key) then rest else [(b.key, DataOf(f, from))] + rest
    ensures AllBlank(f.body[from].key) ==> KeyOk(f.body[from].key)
  {
  }

  /** The keys of a full listing can all be read exactly when those of the map can: a blank key can. */
  lemma ListedKeys(s: seq<(CString, CString)>, m: map<CString, CString>)
    requires ListsAll(s, m)
    ensures (forall i :: 0 <= i < |s| ==> KeyOk(s[i].0)) <==> forall k <- m :: KeyOk(k)
  {
    if forall i :: 0 <= i < |s| ==> KeyOk(s[i].0) {
      forall k <- m ensures KeyOk(k) {
        if !AllBlank(k) {
          assert (k, m[k]) in s;
        }
      }
    }
    forall i | 0 <= i < |s| ensures s[i].0 in m {
      assert s[i] in s;
    }
  }

  datatype Op =
    | FetchOp(key: CString)
    | DeleteOp(key: CString)
    | StoreOp(key: CString, data: CString, flag: int)

  datatype Result = Data(value: Option<CString>) | Code(rc: int)

  /** One call on a finite map. */
  function ApplySpec(m: map<CString, CString>, op: Op): (Result, map<CString, CString>) {
    match op
    case FetchOp(key) => (Result.Data(if key in m then Some(m[key]) else None), m)
    case DeleteOp(key) => (Code(if key in m then 0 else -1), m - {key})
    case StoreOp(key, data, flag) =>
      var (rc, m') := StoreSpec(m, key, data, flag);
      (Code(rc), m')
  }

  function RunSpec(m: map<CString, CString>, ops: seq<Op>): (r: seq<Result>)
    ensures |r| == |ops|
    decreases |ops|
  {
    if ops == [] then []
    else
      var (r, m') := ApplySpec(m, ops[0]);
      [r] + RunSpec(m', ops[1..])
  }

  /**
   What a call changes for a fetch that comes after it: a store that returns 0 is fetched back, a deleted key is not there,
   and nothing else makes a difference.
   */
  lemma FetchedAfter(m: map<CString, CString>, op: Op, key: CString)
    ensures
      var (r, m') := ApplySpec(m, op);
      ApplySpec(m', FetchOp(key)).0 ==
        if op.StoreOp? && op.key == key && r == Code(0) then Result.Data(Some(op.data))
        else if op == DeleteOp(key) then Result.Data(None)
        else ApplySpec(m, FetchOp(key)).0
  {
  }

  /** What the return codes say about a fetch in place of the call. */
  lemma CodesMean(m: map<CString, CString>, op: Op)
    ensures
      var there := ApplySpec(m, FetchOp(op.key)).0 != Result.Data(None);
      match op
      case FetchOp(_) => ApplySpec(m, op).0.Data? && ApplySpec(m, op).1 == m
      case DeleteOp(_) => ApplySpec(m, op).0 == if there then Code(0) else Code(-1)
      case StoreOp(_, _, flag) =>
        && (ApplySpec(m, op).0 == Code(1) <==> flag == DB_INSERT && there)
        && (ApplySpec(m, op).0 == Code(-1) <==> !(flag in {DB_INSERT, DB_REPLACE, DB_STORE}) || (flag == DB_REPLACE && !there))
        && (ApplySpec(m, op).0 in {Code(-1), Code(0), Code(1)})
        && (ApplySpec(m, op).0 != Code(0) ==> ApplySpec(m, op).1 == m)
  {
  }

  predicate StorableKeys(ops: seq<Op>) {
    forall op <- ops :: op.StoreOp? ==> KeyOk(op.key)
  }

  /** Whether a call comes back. */
  ghost predicate Returns(db: Db, op: Op)
    requires db.Valid()
    reads db
  {
    match op
    case StoreOp(key, data, flag) => db.StoreReturns(key, data, flag)
    case FetchOp(key) => !Blocked(db.files.body, db.lists, key)
    case DeleteOp(key) => !Blocked(db.files.body, db.lists, key)
  }

  /** One call on the database, as the map answers it; ok is false where the program ends with a message instead. */
  method Call(db: Db, op: Op) returns (ok: bool, result: Result)
    requires db.Valid()
    modifies db
    ensures ok <==> old(Returns(db, op))
    ensures ok ==> db.Valid() && (result, db.Data()) == ApplySpec(old(db.Data()), op)
    ensures ok ==> db.Balance() == old(db.Balance()) && Grown(old(db.files), db.files)
    ensures ok && StorableKeys([op]) && AllReadable(old(db.files).body) ==> AllReadable(db.files.body)
  {
    hide db.Rep, ListsOk, Contents, StoreSpec, db.StoreReturns, Blocked, AllReadable;
    assert op in [op];
    match op
    case FetchOp(key) =>
      var r;
      ok, r := db.Fetch(key);
      result := Result.Data(r);
    case DeleteOp(key) =>
      var rc;
      ok, rc := db.Delete(key);
      result := Code(rc);
    case StoreOp(key, data, flag) =>
      var rc;
      ok, rc := db.Store(key, data, flag);
      result := Code(rc);
  }

  /** The longest key that leaves room in its index record for a 7-digit offset and a 4-digit length. */
  const ROOM_FOR_KEY := IDXLEN_MAX - PTR_SZ - 7

  /** Keys and data of legal lengths, and not so many calls that offsets could outgrow their fields. */
  predicate WithinLimits(ops: seq<Op>) {
    && BASE + MAX_INDEX_GROWTH * |ops| <= PTR_MAX
    && forall op <- ops :: op.StoreOp? ==> 1 <= |op.key| <= ROOM_FOR_KEY && DataLengthOk(|op.data| + 1)
  }

  /** Within the limits every store returns. */
  lemma RoomToStore(f: Files, i: nat, n: nat, key: CString, data: CString)
    requires i < n && f.iend <= BASE + MAX_INDEX_GROWTH * i && f.dend <= DATLEN_MAX * i
    requires BASE + MAX_INDEX_GROWTH * n <= PTR_MAX && 1 <= |key| <= ROOM_FOR_KEY && DataLengthOk(|data| + 1)
    ensures LengthOk(Body(key, f.dend, |data| + 1)) && f.iend <= PTR_MAX
  {
    assert f.dend <= PTR_MAX;
    assert Pow10(7) == 10000000 && Pow10(4) == 10000;
    DigitsWidth(f.dend, 7);
    DigitsWidth(|data| + 1, 4);
  }

  lemma Unblocked(body: map<nat, Body>, a: Lists, key: CString)
    requires AllReadable(body)
    ensures !Blocked(body, a, key)
  {
  }

  /**
   Any sequence of calls is answered as the map answers it, and keeps the counters in balance with the records. Only a
   store can stop it as long as no key with a separator has been stored: the program ends there, and everything it
   answered before is still right.
   */
  method RunOn(db: Db, ops: seq<Op>) returns (finished: bool, results: seq<Result>)
    requires db.Valid()
    modifies db
    ensures results <= RunSpec(old(db.Data()), ops)
    ensures finished ==> results == RunSpec(old(db.Data()), ops) && db.Valid() && db.Balance() == old(db.Balance())
    ensures !finished ==> |results| < |ops|
    ensures !finished && AllReadable(old(db.files).body) && StorableKeys(ops[..|results|]) ==> ops[|results|].StoreOp?
    ensures old(Unused(db.files)) && WithinLimits(ops) && StorableKeys(ops) ==> finished
  {
    hide db.Valid, db.Data, db.Balance, ApplySpec, db.StoreReturns, Blocked, AllReadable, StorableKeys, WithinLimits, IsCString;
    results := [];
    ghost var m, unused := db.Data(), Unused(db.files);
    ghost var readable := AllReadable(db.files.body);
    NoneStored(ops);
    for i := 0 to |ops|
      invariant db.Valid() && |results| == i && db.Balance() == old(db.Balance())
      invariant results + RunSpec(db.Data(), ops[i..]) == RunSpec(m, ops)
      invariant unused ==> db.files.iend <= BASE + MAX_INDEX_GROWTH * i && db.files.dend <= DATLEN_MAX * i
      invariant readable && StorableKeys(ops[..i]) ==> AllReadable(db.files.body)
    {
      assert ops[i..][1..] == ops[i + 1..];
      Storable(ops, i);
      if AllReadable(db.files.body) {
        Unblocked(db.files.body, db.lists, ops[i].key);
        if WithinLimits(ops) && unused {
          CallReturns(db, ops, i);
        }
      }
      var ok, result := Call(db, ops[i]);
      if !ok {
        return false, results;
      }
      results := results + [result];
    }
    finished := true;
  }

  /** The files of a database that has never been written to. */
  ghost predicate Unused(f: Files) {
    f.iend == BASE && f.dend == 0 && AllReadable(f.body)
  }

  lemma NoneStored(ops: seq<Op>)
    ensures StorableKeys(ops[..0])
  {
  }

  lemma Storable(ops: seq<Op>, i: nat)
    requires i < |ops|
    ensures StorableKeys(ops[..i + 1]) <==> StorableKeys(ops[..i]) && StorableKeys([ops[i]])
    ensures StorableKeys(ops) ==> StorableKeys(ops[..i]) && StorableKeys(ops[..i + 1])
  {
    assert ops[..i + 1] == ops[..i] + [ops[i]];
    assert forall op <- ops[..i + 1] :: op in ops;
  }

  /** A new database answers any sequence of calls as the empty map does, and within the limits it never stops. */
  method Run(ops: seq<Op>) returns (finished: bool, results: seq<Result>, db: Db)
    ensures results <= RunSpec(map[], ops)
    ensures finished ==> results == RunSpec(map[], ops) && db.Valid() && db.Conserved()
    ensures !finished ==> |results| < |ops|
    ensures !finished && StorableKeys(ops[..|results|]) ==> ops[|results|].StoreOp?
    ensures WithinLimits(ops) && StorableKeys(ops) ==> finished
  {
    hide StorableKeys, WithinLimits, ApplySpec, Contents, ListsOk, Count, AllReadable, db.Rep;
    db := new Db.Create();
    finished, results := RunOn(db, ops);
  }

  lemma CallReturns(db: Db, ops: seq<Op>, i: nat)
    requires db.Valid() && WithinLimits(ops) && i < |ops| && !Blocked(db.files.body, db.lists, ops[i].key)
    requires db.files.iend <= BASE + MAX_INDEX_GROWTH * i && db.files.dend <= DATLEN_MAX * i
    ensures Returns(db, ops[i])
  {
    hide db.Valid, LengthOk, Blocked;
    assert ops[i] in ops;
    if ops[i].StoreOp? {
      RoomToStore(db.files, i, |ops|, ops[i].key, ops[i].data);
    }
  }
}
