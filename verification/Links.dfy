/** Lists threaded through a table of pointer fields: ptr[loc] is the offset stored at loc, 0 ends a list. */
module Links {
  import opened Common

  function Without<T>(s: seq<T>, k: nat): (r: seq<T>)
    requires k < |s|
    ensures |r| == |s| - 1
  {
    s[..k] + s[k + 1..]
  }

  /** The i-th pointer field of the list: the root, then the records in order. */
  function Field(root: nat, s: seq<nat>, i: nat): nat
    requires i <= |s|
  {
    if i == 0 then root else s[i - 1]
  }

  function Target(s: seq<nat>, i: nat): nat
    requires i <= |s|
  {
    if i == |s| then 0 else s[i]
  }

  /** Following pointers from root visits exactly the records of s and then reaches 0. */
  ghost predicate Linked(ptr: map<nat, nat>, root: nat, s: seq<nat>) {
    && root in ptr && 0 !in s && root !in s && Distinct(s)
    && forall i :: 0 <= i <= |s| ==> Field(root, s, i) in ptr && ptr[Field(root, s, i)] == Target(s, i)
  }

  lemma LinkedFields(ptr: map<nat, nat>, root: nat, s: seq<nat>)
    requires Linked(ptr, root, s)
    ensures forall o <- s :: o in ptr
  {
    forall o <- s ensures o in ptr {
      var i :| 0 <= i < |s| && s[i] == o;
      assert Field(root, s, i + 1) == o;
    }
  }

  /** A list is kept by any change elsewhere. */
  lemma Elsewhere(ptr: map<nat, nat>, ptr': map<nat, nat>, root: nat, s: seq<nat>)
    requires Linked(ptr, root, s)
    requires root in ptr' && ptr'[root] == ptr[root]
    requires forall o <- s :: o in ptr && o in ptr' && ptr'[o] == ptr[o]
    ensures Linked(ptr', root, s)
  {
    forall i | 0 <= i <= |s|
      ensures Field(root, s, i) in ptr' && ptr'[Field(root, s, i)] == Target(s, i)
    {
      assert i > 0 ==> s[i - 1] in s;
      assert Field(root, s, i) in ptr;
    }
  }

  /** Writing the new head into the root, its own field already holding the old one. */
  lemma PushFront(ptr: map<nat, nat>, root: nat, s: seq<nat>, o: nat)
    requires Linked(ptr, root, s)
    requires o != 0 && o != root && o !in s
    requires o in ptr && ptr[o] == ptr[root]
    ensures Linked(ptr[root := o], root, [o] + s)
  {
    var p, t := ptr[root := o], [o] + s;
    forall i | 0 <= i <= |t|
      ensures Field(root, t, i) in p && p[Field(root, t, i)] == Target(t, i)
    {
      if i > 1 {
        assert Field(root, t, i) == Field(root, s, i - 1) == s[i - 2];
      } else if i == 1 {
        assert ptr[Field(root, s, 0)] == Target(s, 0);
      }
    }
  }

  /** Copying a record's field into its predecessor takes exactly that record off the list. */
  lemma Unlink(ptr: map<nat, nat>, root: nat, s: seq<nat>, k: nat)
    requires Linked(ptr, root, s) && k < |s|
    requires s[k] in ptr
    ensures Linked(ptr[Field(root, s, k) := ptr[s[k]]], root, Without(s, k))
  {
    var p, t := ptr[Field(root, s, k) := ptr[s[k]]], Without(s, k);
    assert Field(root, s, k + 1) == s[k];
    forall i | 0 <= i <= |t|
      ensures Field(root, t, i) in p && p[Field(root, t, i)] == Target(t, i)
    {
      if i <= k {
        assert Field(root, t, i) == Field(root, s, i);
      } else {
        assert Field(root, t, i) == Field(root, s, i + 1) == s[i];
      }
    }
  }

  lemma WithoutMembers<T>(s: seq<T>, k: nat)
    requires k < |s| && Distinct(s)
    ensures s[k] !in Without(s, k)
    ensures forall x :: x in Without(s, k) <==> x in s && x != s[k]
  {
    var t := Without(s, k);
    forall x | x in s && x != s[k] ensures x in t {
      var i :| 0 <= i < |s| && s[i] == x;
      assert t[if i < k then i else i - 1] == x;
    }
  }
}
