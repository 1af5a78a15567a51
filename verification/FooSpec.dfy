/** The table of reference-counted objects, each operation in one piece. */
module FooSpec {
  import opened Common

  const NHASH := 29

  /** HASH(id): the id as an unsigned 64-bit number, modulo the table size. */
  function HashOf(id: int): (h: nat)
    ensures h < NHASH
  {
    (if id < 0 then id + 0x1_0000_0000_0000_0000 else id) % NHASH
  }

  /** Live objects by bucket, newest first; their reference counts and ids; when each was made. */
  datatype Table<P(==)> = Table(buckets: seq<seq<P>>, count: map<P, nat>, id: map<P, int>, born: map<P, nat>, clock: nat)

  function EmptyTable<P>(): Table<P> {
    Table(seq(NHASH, _ => []), map[], map[], map[], 0)
  }

  predicate In<P(==)>(buckets: seq<seq<P>>, h: nat, p: P) {
    h < |buckets| && p in buckets[h]
  }

  /** Newest first, so none twice. */
  ghost predicate Ordered<P>(born: map<P, nat>, s: seq<P>) {
    && (forall p <- s :: p in born)
    && (forall i, j :: 0 <= i < j < |s| ==> s[i] in born && s[j] in born && born[s[j]] < born[s[i]])
  }

  /** Each live object is in the one bucket of its id, with a reference; newer objects come first. */
  ghost predicate TableOk<P(!new)>(t: Table<P>) {
    && |t.buckets| == NHASH
    && t.count.Keys == t.id.Keys == t.born.Keys
    && (forall p <- t.count :: t.count[p] > 0 && t.born[p] < t.clock && In(t.buckets, HashOf(t.id[p]), p))
    && (forall h, p | In(t.buckets, h, p) :: p in t.count && HashOf(t.id[p]) == h)
    && (forall h :: 0 <= h < NHASH ==> Ordered(t.born, t.buckets[h]))
  }

  lemma OrderedDistinct<P>(born: map<P, nat>, s: seq<P>)
    requires Ordered(born, s)
    ensures Distinct(s)
  {
  }

  /** foo_alloc() */
  function Insert<P>(t: Table<P>, p: P, id: int): Table<P>
    requires |t.buckets| == NHASH
  {
    var h := HashOf(id);
    Table(t.buckets[h := [p] + t.buckets[h]], t.count[p := 1], t.id[p := id], t.born[p := t.clock], t.clock + 1)
  }

  /** foo_hold() */
  function AddRef<P>(t: Table<P>, p: P): Table<P>
    requires p in t.count
  {
    t.(count := t.count[p := t.count[p] + 1])
  }

  function FirstWith<P>(id: map<P, int>, s: seq<P>, x: int): Option<P> {
    if s == [] then None else if s[0] in id && id[s[0]] == x then Some(s[0]) else FirstWith(id, s[1..], x)
  }

  /** What foo_find() finds. */
  function Lookup<P>(t: Table<P>, x: int): Option<P>
    requires |t.buckets| == NHASH
  {
    FirstWith(t.id, t.buckets[HashOf(x)], x)
  }

  function Minus<P(==)>(s: seq<P>, p: P): seq<P> {
    if s == [] then [] else if s[0] == p then s[1..] else [s[0]] + Minus(s[1..], p)
  }

  /** foo_rele() */
  function Drop<P(==)>(t: Table<P>, p: P): Table<P>
    requires p in t.count && p in t.id && |t.buckets| == NHASH
  {
    if t.count[p] > 1 then t.(count := t.count[p := t.count[p] - 1])
    else
      var h := HashOf(t.id[p]);
      t.(buckets := t.buckets[h := Minus(t.buckets[h], p)], count := t.count - {p}, id := t.id - {p}, born := t.born - {p})
  }

  lemma {:induction false} FirstWithFacts<P>(id: map<P, int>, s: seq<P>, x: int)
    ensures match FirstWith(id, s, x)
      case None => forall p <- s :: !(p in id && id[p] == x)
      case Some(p) => exists k :: 0 <= k < |s| && s[k] == p && p in id && id[p] == x && forall j :: 0 <= j < k ==> !(s[j] in id && id[s[j]] == x)
  {
    if s != [] && !(s[0] in id && id[s[0]] == x) {
      FirstWithFacts(id, s[1..], x);
      match FirstWith(id, s[1..], x)
      case None =>
      case Some(p) =>
        var k :| 0 <= k < |s[1..]| && s[1..][k] == p && p in id && id[p] == x && forall j :: 0 <= j < k ==> !(s[1..][j] in id && id[s[1..][j]] == x);
        assert s[k + 1] == p;
        forall j | 0 <= j < k + 1 ensures !(s[j] in id && id[s[j]] == x) {
          assert j > 0 ==> s[j] == s[1..][j - 1];
        }
    }
  }

  /** Finding an id gives the newest live object that has it, or nothing when no live object does. */
  lemma LookupIsNewest<P(!new)>(t: Table<P>, x: int)
    requires TableOk(t)
    ensures match Lookup(t, x)
      case None => forall p <- t.count :: t.id[p] != x
      case Some(p) => p in t.count && t.id[p] == x && forall q <- t.count | t.id[q] == x && q != p :: t.born[q] < t.born[p]
  {
    hide HashOf;
    var b := t.buckets[HashOf(x)];
    FirstWithFacts(t.id, b, x);
    match Lookup(t, x)
    case None =>
      assert forall p <- t.count | t.id[p] == x :: In(t.buckets, HashOf(x), p);
    case Some(p) =>
      assert In(t.buckets, HashOf(x), p);
      var k :| 0 <= k < |b| && b[k] == p && forall j :: 0 <= j < k ==> !(b[j] in t.id && t.id[b[j]] == x);
      assert Ordered(t.born, b);
      forall q <- t.count | t.id[q] == x && q != p ensures t.born[q] < t.born[p] {
        assert In(t.buckets, HashOf(x), q);
        var i :| 0 <= i < |b| && b[i] == q;
      }
  }

  lemma {:induction false} MinusMembers<P>(s: seq<P>, p: P)
    requires Distinct(s)
    ensures forall q :: q in Minus(s, p) <==> q in s && q != p
  {
    if s != [] {
      assert forall q :: q in s <==> q == s[0] || q in s[1..];
      if s[0] == p {
        assert forall i :: 0 < i < |s| ==> s[i] != s[0];
      } else {
        MinusMembers(s[1..], p);
      }
    }
  }

  lemma {:induction false} MinusAt<P>(s: seq<P>, k: nat)
    requires k < |s| && Distinct(s)
    ensures Minus(s, s[k]) == s[..k] + s[k + 1..]
  {
    if k > 0 {
      MinusAt(s[1..], k - 1);
      assert s[1..][k - 1] == s[k] && s[0] != s[k];
      assert s[..k] + s[k + 1..] == [s[0]] + (s[1..][..k - 1] + s[1..][k..]);
    }
  }

  lemma InsertOk<P(!new)>(t: Table<P>, p: P, id: int)
    requires TableOk(t) && p !in t.count
    ensures TableOk(Insert(t, p, id))
  {
    hide HashOf, Ordered;
    var u, h := Insert(t, p, id), HashOf(id);
    assert forall g, q :: In(u.buckets, g, q) <==> In(t.buckets, g, q) || (g == h && q == p);
    forall g | 0 <= g < NHASH ensures Ordered(u.born, u.buckets[g]) {
      forall q <- t.buckets[g] ensures q in t.born && q != p && t.born[q] < t.clock {
        assert In(t.buckets, g, q);
      }
      if g == h {
        OrderedPush(t.born, t.buckets[h], p, t.clock);
      } else {
        OrderedKeep(t.born, u.born, t.buckets[g]);
      }
    }
  }

  lemma OrderedPush<P>(born: map<P, nat>, s: seq<P>, p: P, clock: nat)
    requires Ordered(born, s) && forall q <- s :: q in born && q != p && born[q] < clock
    ensures Ordered(born[p := clock], [p] + s)
  {
    var b, t := born[p := clock], [p] + s;
    forall i, j | 0 <= i < j < |t| ensures t[i] in b && t[j] in b && b[t[j]] < b[t[i]] {
      assert t[j] == s[j - 1] && s[j - 1] in s;
      assert i > 0 ==> t[i] == s[i - 1] && s[i - 1] in s;
    }
  }

  lemma OrderedKeep<P>(born: map<P, nat>, born': map<P, nat>, s: seq<P>)
    requires Ordered(born, s) && forall q <- s :: q in born && q in born' && born'[q] == born[q]
    ensures Ordered(born', s)
  {
    forall i, j | 0 <= i < j < |s| ensures s[i] in born' && s[j] in born' && born'[s[j]] < born'[s[i]] {
      assert s[i] in s && s[j] in s;
    }
  }

  lemma OrderedMinus<P>(born: map<P, nat>, s: seq<P>, p: P)
    requires Ordered(born, s)
    ensures Ordered(born, Minus(s, p))
    ensures forall q :: q in Minus(s, p) <==> q in s && q != p
  {
    OrderedDistinct(born, s);
    hide Ordered, Minus;
    MinusMembers(s, p);
    if p in s {
      var k :| 0 <= k < |s| && s[k] == p;
      MinusAt(s, k);
      OrderedCut(born, s, k);
    } else {
      MinusNone(s, p);
    }
  }

  lemma OrderedCut<P>(born: map<P, nat>, s: seq<P>, k: nat)
    requires Ordered(born, s) && k < |s|
    ensures Ordered(born, s[..k] + s[k + 1..])
  {
    var t := s[..k] + s[k + 1..];
    assert forall i :: 0 <= i < |t| ==> t[i] == s[if i < k then i else i + 1];
  }

  lemma {:induction false} MinusNone<P>(s: seq<P>, p: P)
    requires p !in s
    ensures Minus(s, p) == s
  {
    if s != [] {
      MinusNone(s[1..], p);
    }
  }

  lemma AddRefOk<P(!new)>(t: Table<P>, p: P)
    requires TableOk(t) && p in t.count
    ensures TableOk(AddRef(t, p))
  {
    hide HashOf, Ordered;
    var u := AddRef(t, p);
    assert u.count.Keys == t.count.Keys;
  }

  lemma DropOk<P(!new)>(t: Table<P>, p: P)
    requires TableOk(t) && p in t.count
    ensures TableOk(Drop(t, p))
  {
    hide HashOf, Ordered, Minus;
    var u := Drop(t, p);
    if t.count[p] > 1 {
      assert u.count.Keys == t.count.Keys;
    } else {
      var h := HashOf(t.id[p]);
      OrderedMinus(t.born, t.buckets[h], p);
      forall g, q ensures In(u.buckets, g, q) <==> In(t.buckets, g, q) && q != p {
        assert In(t.buckets, g, p) ==> g == h;
      }
      forall g | 0 <= g < NHASH ensures Ordered(u.born, u.buckets[g]) {
        forall q <- u.buckets[g] ensures q in t.born && q in u.born {
          assert In(u.buckets, g, q);
        }
        OrderedKeep(t.born, u.born, u.buckets[g]);
      }
    }
  }
}
