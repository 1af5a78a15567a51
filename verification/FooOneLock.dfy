/** The version with one lock for everything: each operation runs alone and is exactly one operation of the table. */
module FooOneLock {
  import opened Common
  import opened FooSpec
  import opened FooThreads
  import opened FooInvariant
  import opened FooChanges
  import opened FooRemoval

  /** Memory and bucket heads that hold table t: its objects, their counts and ids, linked bucket by bucket. */
  ghost predicate Represents(heap: map<nat, Obj>, heads: seq<nat>, t: Table<nat>) {
    && TableOk(t) && |heads| == NHASH
    && ObjectsAre(heap, t)
    && forall h :: 0 <= h < NHASH ==> Links(heap, heads[h], t.buckets[h])
  }

  ghost predicate ObjectsAre(heap: map<nat, Obj>, t: Table<nat>) {
    && 0 !in heap && heap.Keys == t.count.Keys
    && forall p <- t.count :: p in heap && p in t.id && heap[p].count == t.count[p] && heap[p].id == t.id[p]
  }

  lemma Bucket(heap: map<nat, Obj>, heads: seq<nat>, t: Table<nat>, id: int) returns (b: seq<nat>)
    requires Represents(heap, heads, t)
    ensures |t.buckets| == |heads| == NHASH && b == t.buckets[HashOf(id)] && Links(heap, heads[HashOf(id)], b) && Distinct(b)
    ensures forall p <- t.count :: p in heap && p in t.id && (t.id[p] == id ==> p in b)
    ensures forall p <- b :: p in t.count && p in t.id && p in heap && heap[p].id == t.id[p] && p != 0
  {
    hide HashOf, Links, Ordered;
    BucketDistinct(t, HashOf(id));
    b := t.buckets[HashOf(id)];
    forall p <- t.count ensures p in heap && p in t.id && (t.id[p] == id ==> p in b) {
      assert In(t.buckets, HashOf(t.id[p]), p);
    }
    forall p <- b ensures p in t.count {
      assert In(t.buckets, HashOf(id), p);
    }
  }

  lemma Inserting(heap: map<nat, Obj>, heads: seq<nat>, t: Table<nat>, p: nat, id: int)
    requires Represents(heap, heads, t) && p != 0 && p !in heap
    ensures Represents(heap[p := Obj(1, id, heads[HashOf(id)])], heads[HashOf(id) := p], Insert(t, p, id))
  {
    hide HashOf, TableOk;
    InsertOk(t, p, id);
    var h := HashOf(id);
    var b := Bucket(heap, heads, t, id);
    var heap', heads' := heap[p := Obj(1, id, heads[h])], heads[h := p];
    forall g | 0 <= g < NHASH ensures Links(heap', heads'[g], Insert(t, p, id).buckets[g]) {
      assert Links(heap, heads[g], t.buckets[g]);
      if g == h {
        PushedLinks(heap, heads[h], b, p, id);
      } else {
        KeptLinks(heap, heap', heads[g], t.buckets[g]);
      }
    }
  }

  lemma PushedLinks(heap: map<nat, Obj>, head: nat, b: seq<nat>, p: nat, id: int)
    requires Links(heap, head, b) && p != 0 && p !in heap
    ensures Links(heap[p := Obj(1, id, head)], p, [p] + b)
  {
    var heap' := heap[p := Obj(1, id, head)];
    KeptLinks(heap, heap', head, b);
    PushLinks(heap', head, b, p);
  }

  lemma KeptLinks(heap: map<nat, Obj>, heap': map<nat, Obj>, head: nat, b: seq<nat>)
    requires Links(heap, head, b)
    requires forall p <- b :: p in heap ==> p in heap' && heap'[p].next == heap[p].next
    ensures Links(heap', head, b)
  {
    assert forall i :: 0 <= i < |b| ==> b[i] in b;
  }

  /** One reference more, or one less of several. */
  lemma Counting(heap: map<nat, Obj>, heads: seq<nat>, t: Table<nat>, p: nat, u: Table<nat>)
    requires Represents(heap, heads, t) && p in t.count
    requires u == AddRef(t, p) || (t.count[p] > 1 && p in t.id && |t.buckets| == NHASH && u == Drop(t, p))
    ensures p in heap && p in u.count && heap[p].count == t.count[p]
    ensures u.count[p] == if u == AddRef(t, p) then t.count[p] + 1 else t.count[p] - 1
    ensures Represents(heap[p := heap[p].(count := u.count[p])], heads, u)
  {
    hide HashOf, TableOk;
    Sizes(heap, heads, t);
    CountOnly(t, p, u);
    hide AddRef, Drop;
    var heap' := heap[p := heap[p].(count := u.count[p])];
    forall g | 0 <= g < NHASH ensures Links(heap', heads[g], u.buckets[g]) {
      assert Links(heap, heads[g], t.buckets[g]);
    }
  }

  lemma CountOnly(t: Table<nat>, p: nat, u: Table<nat>)
    requires TableOk(t) && p in t.count
    requires u == AddRef(t, p) || (t.count[p] > 1 && p in t.id && |t.buckets| == NHASH && u == Drop(t, p))
    ensures TableOk(u) && u.buckets == t.buckets && u.id == t.id && u.count.Keys == t.count.Keys
    ensures u.count == t.count[p := if u == AddRef(t, p) then t.count[p] + 1 else t.count[p] - 1]
  {
    hide HashOf, TableOk;
    if u == AddRef(t, p) {
      AddRefOk(t, p);
    } else {
      DropOk(t, p);
    }
    assert u.count.Keys == t.count.Keys;
  }

  /** The k-th object of its bucket, unlinked and freed. */
  lemma Dropping(heap: map<nat, Obj>, heads: seq<nat>, t: Table<nat>, p: nat, k: nat, heap': map<nat, Obj>, heads': seq<nat>)
    requires Represents(heap, heads, t) && p in t.count && t.count[p] == 1 && p in t.id && |t.buckets| == NHASH
    requires k < |t.buckets[HashOf(t.id[p])]| && t.buckets[HashOf(t.id[p])][k] == p && p in heap
    requires var h := HashOf(t.id[p]);
      if k == 0 then heads' == heads[h := heap[p].next] && heap' == heap
      else
        var c := t.buckets[h][k - 1];
        c in heap && heads' == heads && heap' == heap[c := heap[c].(next := heap[p].next)]
    ensures Represents(heap' - {p}, heads', Drop(t, p))
  {
    hide HashOf, TableOk, Minus, Links;
    var h := HashOf(t.id[p]);
    DropOk(t, p);
    var b := Bucket(heap, heads, t, t.id[p]);
    MinusAt(b, k);
    assert Drop(t, p).count.Keys == t.count.Keys - {p};
    forall g | 0 <= g < NHASH ensures Links(heap' - {p}, heads'[g], Drop(t, p).buckets[g]) {
      assert Links(heap, heads[g], t.buckets[g]);
      if g == h {
        CutLinks(heap, heads[h], b, k, heap', heads'[h]);
        FreedLinks(heap', heads'[h], b[..k] + b[k + 1..], p);
      } else {
        BucketsApart(t, g, h, p);
        if k > 0 {
          BucketsApart(t, g, h, b[k - 1]);
        }
        KeptLinks(heap, heap', heads[g], t.buckets[g]);
        FreedLinks(heap', heads'[g], t.buckets[g], p);
      }
    }
  }

  lemma FreedLinks(heap: map<nat, Obj>, head: nat, b: seq<nat>, p: nat)
    requires Links(heap, head, b) && p !in b
    ensures Links(heap - {p}, head, b)
  {
  }

  class Foos {
    var heap: map<nat, Obj>
    const fh: array<nat>
    ghost var table: Table<nat>

    ghost predicate Valid()
      reads this, fh
    {
      Represents(heap, fh[..], table)
    }

    constructor ()
      ensures Valid() && table == EmptyTable() && fresh(fh)
    {
      fh := new nat[NHASH](_ => 0);
      heap, table := map[], EmptyTable();
    }

    /** foo_alloc(); `p` is what malloc() returns, 0 when there is no memory. */
    method Alloc(id: int, p: nat) returns (fp: nat)
      requires Valid() && p !in heap
      modifies this`heap, this`table, fh
      ensures Valid() && fp == p
      ensures table == if p == 0 then old(table) else Insert(old(table), p, id)
      ensures heap.Keys == old(heap.Keys) + if p == 0 then {} else {p}
    {
      hide Represents, HashOf, TableOk, Insert;
      fp := p;
      if fp != 0 {
        Sizes(heap, fh[..], table);
        Inserting(heap, fh[..], table, p, id);
        table := Insert(table, p, id);
        heap := heap[fp := Obj(1, id, 0)];
        var idx := HashOf(id);
        heap := heap[fp := heap[fp].(next := fh[idx])];
        fh[idx] := fp;
        assert fh[..] == old(fh[..])[idx := fp];
        assert heap == old(heap)[p := Obj(1, id, old(fh[..])[idx])];
      }
    }

    /** foo_hold() */
    method Hold(fp: nat)
      requires Valid() && fp in table.count
      modifies this`heap, this`table
      ensures Valid() && table == AddRef(old(table), fp) && heap.Keys == old(heap.Keys)
    {
      hide Represents;
      Counting(heap, fh[..], table, fp, AddRef(table, fp));
      heap := heap[fp := heap[fp].(count := heap[fp].count + 1)];
      table := AddRef(table, fp);
    }

    /** foo_find() */
    method Find(id: int) returns (fp: nat)
      requires Valid()
      modifies this`heap, this`table
      ensures Valid() && heap.Keys == old(heap.Keys)
      ensures |old(table).buckets| == NHASH
      ensures fp == 0 ==> Lookup(old(table), id) == None && table == old(table)
      ensures fp != 0 ==> Lookup(old(table), id) == Some(fp) && fp in old(table).count && table == AddRef(old(table), fp)
    {
      hide Represents, HashOf, AddRef, FirstWith, Links, Distinct, Target;
      Sizes(heap, fh[..], table);
      ghost var b := Bucket(heap, fh[..], table, id);
      ghost var k := 0;
      fp := fh[HashOf(id)];
      Along(heap, fh[..], table, id, b, 0);
      assert b[0..] == b;
      FirstEnd(table.id, b, id);
      while fp != 0
        invariant k <= |b| && fp == Target(b, k) && (fp == 0 <==> k == |b|) && heap == old(heap) && table == old(table)
        invariant FirstWith(table.id, b, id) == FirstWith(table.id, b[k..], id)
        decreases |b| - k
      {
        Along(heap, fh[..], table, id, b, k);
        FirstStep(table.id, b, k, id);
        if heap[fp].id == id {
          Counting(heap, fh[..], table, fp, AddRef(table, fp));
          heap := heap[fp := heap[fp].(count := heap[fp].count + 1)];
          table := AddRef(table, fp);
          break;
        }
        fp := heap[fp].next;
        k := k + 1;
        Along(heap, fh[..], table, id, b, k);
      }
    }

    /** foo_rele() */
    method Rele(fp: nat)
      requires Valid() && fp in table.count
      modifies this`heap, this`table, fh
      ensures Valid() && fp in old(table).id && |old(table).buckets| == NHASH && table == Drop(old(table), fp)
      ensures heap.Keys == old(heap.Keys) - if old(table).count[fp] == 1 then {fp} else {}
    {
      hide Represents, HashOf, Drop, AddRef, Links, Distinct, Target;
      Sizes(heap, fh[..], table);
      Positive(heap, fh[..], table, fp);
      if heap[fp].count - 1 == 0 {
        ghost var heads := fh[..];
        ghost var b := Bucket(heap, heads, table, table.id[fp]);
        ghost var k := 0;
        Along(heap, heads, table, table.id[fp], b, 0);
        var idx := HashOf(heap[fp].id);
        var tfp := fh[idx];
        if tfp == fp {
          fh[idx] := heap[fp].next;
          assert fh[..] == heads[idx := heap[fp].next];
        } else {
          while heap[tfp].next != fp
            invariant k < |b| && tfp == b[k] && fp !in b[..k + 1] && heap == old(heap) && fh[..] == heads && table == old(table)
            decreases |b| - k
          {
            Passed(heap, heads, table, fp, b, k);
            tfp := heap[tfp].next;
            k := k + 1;
          }
          Along(heap, heads, table, table.id[fp], b, k);
          Along(heap, heads, table, table.id[fp], b, k + 1);
          heap := heap[tfp := heap[tfp].(next := heap[fp].next)];
          k := k + 1;
        }
        Dropping(old(heap), heads, table, fp, k, heap, fh[..]);
        heap := heap - {fp};
      } else {
        Counting(heap, fh[..], table, fp, Drop(table, fp));
        OneLess(table, fp);
        heap := heap[fp := heap[fp].(count := heap[fp].count - 1)];
      }
      table := Drop(table, fp);
    }
  }

  lemma Sizes(heap: map<nat, Obj>, heads: seq<nat>, t: Table<nat>)
    requires Represents(heap, heads, t)
    ensures |heads| == |t.buckets| == NHASH && 0 !in heap && heap.Keys == t.count.Keys
  {
    hide HashOf, Ordered, Links;
  }

  lemma Positive(heap: map<nat, Obj>, heads: seq<nat>, t: Table<nat>, p: nat)
    requires Represents(heap, heads, t) && p in t.count
    ensures p in heap && p in t.id && heap[p].count == t.count[p] > 0 && heap[p].id == t.id[p] && p != 0
  {
    hide HashOf, Ordered, Links;
  }

  lemma OneLess(t: Table<nat>, p: nat)
    requires p in t.count && p in t.id && |t.buckets| == NHASH && t.count[p] > 1
    ensures Drop(t, p) != AddRef(t, p)
  {
    assert Drop(t, p).count[p] == t.count[p] - 1;
  }

  /** One step along the list of a bucket. */
  lemma Along(heap: map<nat, Obj>, heads: seq<nat>, t: Table<nat>, id: int, b: seq<nat>, k: nat)
    requires Represents(heap, heads, t) && |t.buckets| == NHASH && b == t.buckets[HashOf(id)] && k <= |b|
    ensures |heads| == NHASH && heads[HashOf(id)] == Target(b, 0) && (k == |b| <==> Target(b, k) == 0)
    ensures
      k < |b| ==>
        var p := b[k];
        p == Target(b, k) && p in t.count && p in t.id && p in heap && heap[p].id == t.id[p] && heap[p].next == Target(b, k + 1)
  {
    hide HashOf;
    var c := Bucket(heap, heads, t, id);
  }

  /** The walk for an object of the bucket goes on while it has not been met. */
  lemma Passed(heap: map<nat, Obj>, heads: seq<nat>, t: Table<nat>, fp: nat, b: seq<nat>, k: nat)
    requires Represents(heap, heads, t) && |t.buckets| == NHASH && fp in t.id && b == t.buckets[HashOf(t.id[fp])]
    requires k < |b| && fp in b && fp !in b[..k + 1] && b[k] in heap && heap[b[k]].next != fp
    ensures k + 1 < |b| && heap[b[k]].next == b[k + 1] && b[k + 1] in heap && fp !in b[..k + 2]
  {
    hide HashOf, Represents, Target;
    Along(heap, heads, t, t.id[fp], b, k);
    Along(heap, heads, t, t.id[fp], b, k + 1);
    assert b == b[..k + 1] + b[k + 1..];
    assert k + 1 < |b|;
    assert b[..k + 2] == b[..k + 1] + [b[k + 1]];
  }

  lemma FirstStep(ids: map<nat, int>, b: seq<nat>, k: nat, id: int)
    requires k < |b| && b[k] in ids
    ensures FirstWith(ids, b[k..], id) == if ids[b[k]] == id then Some(b[k]) else FirstWith(ids, b[k + 1..], id)
  {
    assert b[k..][1..] == b[k + 1..];
  }

  lemma FirstEnd(ids: map<nat, int>, b: seq<nat>, id: int)
    ensures b[|b|..] == [] && FirstWith(ids, [], id) == None
  {
  }
}
