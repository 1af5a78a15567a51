/** Merging sorted segments of one array into another. */
module SortMerge {
  import opened Common

  const LONG_MAX := 0x7fff_ffff_ffff_ffff

  ghost predicate Sorted(s: seq<int>) {
    forall i, j :: 0 <= i <= j < |s| ==> s[i] <= s[j]
  }

  /** Where segment i of t numbers starts. */
  function Start(i: nat, t: nat): nat {
    i * t
  }

  lemma Starts(i: nat, n: nat, t: nat)
    requires i < n
    ensures Start(i + 1, t) == Start(i, t) + t
    ensures Start(i + 1, t) <= Start(n, t)
  {
    assert (n - i - 1) * t >= 0;
  }

  /** The places reached are inside their segments. */
  ghost predicate Inside(s: seq<int>, idx: seq<int>, t: nat) {
    && |s| == Start(|idx|, t)
    && forall i :: 0 <= i < |idx| ==> Start(i, t) <= idx[i] <= Start(i, t) + t <= |s|
  }

  ghost predicate SegmentsSorted(s: seq<int>, n: nat, t: nat) {
    && |s| == Start(n, t)
    && forall i :: 0 <= i < n ==> Start(i, t) + t <= |s| && Sorted(s[Start(i, t)..Start(i, t) + t])
  }

  /** What the first k segments still have to give. */
  ghost function Left(s: seq<int>, idx: seq<int>, t: nat, k: nat): multiset<int>
    requires Inside(s, idx, t) && k <= |idx|
  {
    if k == 0 then multiset{} else Left(s, idx, t, k - 1) + multiset(s[idx[k - 1]..Start(k - 1, t) + t])
  }

  lemma StartNone(t: nat)
    ensures Start(0, t) == 0
  {
  }

  lemma Split(s: seq<int>, a: nat, b: nat)
    requires a <= b <= |s|
    ensures multiset(s[..b]) == multiset(s[..a]) + multiset(s[a..b])
  {
    assert s[..b] == s[..a] + s[a..b];
  }

  lemma Bound(s: seq<int>, idx: seq<int>, t: nat, i: nat)
    requires Inside(s, idx, t) && i < |idx|
    ensures 0 <= Start(i, t) <= idx[i] <= Start(i, t) + t <= |s|
  {
    hide Start;
  }

  lemma {:induction false} LeftAll(s: seq<int>, idx: seq<int>, t: nat, k: nat)
    requires Inside(s, idx, t) && k <= |idx| && forall i :: 0 <= i < |idx| ==> idx[i] == Start(i, t)
    ensures Start(k, t) <= |s| && Left(s, idx, t, k) == multiset(s[..Start(k, t)])
  {
    hide Start, Inside;
    StartNone(t);
    if k > 0 {
      LeftAll(s, idx, t, k - 1);
      Starts(k - 1, |idx|, t);
      Bound(s, idx, t, k - 1);
      Split(s, Start(k - 1, t), Start(k, t));
    } else {
      assert s[..0] == [];
    }
  }

  lemma {:induction false} LeftHas(s: seq<int>, idx: seq<int>, t: nat, k: nat, x: int)
    requires Inside(s, idx, t) && k <= |idx| && x in Left(s, idx, t, k)
    ensures exists i, j :: 0 <= i < k && idx[i] <= j < Start(i, t) + t && s[j] == x
  {
    if x in s[idx[k - 1]..Start(k - 1, t) + t] {
      var j :| 0 <= j < |s[idx[k - 1]..Start(k - 1, t) + t]| && s[idx[k - 1]..Start(k - 1, t) + t][j] == x;
      assert s[idx[k - 1] + j] == x;
    } else {
      LeftHas(s, idx, t, k - 1, x);
    }
  }

  lemma FirstOf(s: seq<int>, a: nat, b: nat)
    requires a < b <= |s|
    ensures multiset(s[a..b]) == multiset(s[a + 1..b]) + multiset{s[a]}
  {
    assert s[a..b] == [s[a]] + s[a + 1..b];
  }

  lemma InOrder(s: seq<int>, a: nat, b: nat, i: nat, j: nat)
    requires a <= i <= j < b <= |s| && Sorted(s[a..b])
    ensures s[i] <= s[j]
  {
    assert s[a..b][i - a] == s[i] && s[a..b][j - a] == s[j];
  }

  lemma TakeInside(s: seq<int>, idx: seq<int>, t: nat, m: nat)
    requires Inside(s, idx, t) && m < |idx| && idx[m] < Start(m, t) + t
    ensures Inside(s, idx[m := idx[m] + 1], t)
  {
    hide Start;
  }

  lemma LeftLast(s: seq<int>, idx: seq<int>, t: nat, k: nat)
    requires Inside(s, idx, t) && k <= |idx|
    ensures k == 0 ==> Left(s, idx, t, k) == multiset{}
    ensures k > 0 ==>
      && 0 <= idx[k - 1] <= Start(k - 1, t) + t <= |s|
      && Left(s, idx, t, k) == Left(s, idx, t, k - 1) + multiset(s[idx[k - 1]..Start(k - 1, t) + t])
  {
    hide Start;
  }

  /** Moving on by one in segment m gives out exactly the number there. */
  lemma {:induction false} LeftTake(s: seq<int>, idx: seq<int>, t: nat, k: nat, m: nat, idx': seq<int>)
    requires Inside(s, idx, t) && k <= |idx| && m < |idx| && idx[m] < Start(m, t) + t
    requires idx' == idx[m := idx[m] + 1] && Inside(s, idx', t)
    ensures 0 <= idx[m] < |s|
    ensures Left(s, idx, t, k) == Left(s, idx', t, k) + if m < k then multiset{s[idx[m]]} else multiset{}
  {
    hide Start, Inside, Left;
    Bound(s, idx, t, m);
    LeftLast(s, idx, t, k);
    LeftLast(s, idx', t, k);
    if k > 0 {
      LeftTake(s, idx, t, k - 1, m, idx');
      SegmentTake(s, idx[k - 1], idx'[k - 1], Start(k - 1, t) + t);
      GivenOut(Left(s, idx, t, k - 1), Left(s, idx', t, k - 1), s[idx[k - 1]..Start(k - 1, t) + t],
               s[idx'[k - 1]..Start(k - 1, t) + t], s[idx[m]], m < k - 1, m == k - 1);
    }
  }

  lemma SegmentTake(s: seq<int>, a: nat, a': nat, b: nat)
    requires a <= a' <= a + 1 && a' <= b <= |s|
    ensures multiset(s[a..b]) == multiset(s[a'..b]) + if a' > a then multiset{s[a]} else multiset{}
  {
    if a' > a {
      FirstOf(s, a, b);
    }
  }

  /** Two parts of which one has x more have x more together. */
  lemma GivenOut(a: multiset<int>, a': multiset<int>, b: seq<int>, b': seq<int>, x: int, first: bool, second: bool)
    requires !(first && second)
    requires a == a' + if first then multiset{x} else multiset{}
    requires multiset(b) == multiset(b') + if second then multiset{x} else multiset{}
    ensures a + multiset(b) == (a' + multiset(b')) + if first || second then multiset{x} else multiset{}
  {
    Regroup(a', multiset(b'), if first then multiset{x} else multiset{});
  }

  lemma {:induction false} LeftNone(s: seq<int>, idx: seq<int>, t: nat, k: nat)
    requires Inside(s, idx, t) && k <= |idx| && forall i :: 0 <= i < k ==> idx[i] == Start(i, t) + t
    ensures Left(s, idx, t, k) == multiset{}
  {
    if k > 0 {
      LeftNone(s, idx, t, k - 1);
    }
  }

  /** Segment m has numbers left, and the next of them is no greater than that of any other segment. */
  ghost predicate LeastAt(s: seq<int>, idx: seq<int>, t: nat, m: nat) {
    && m < |idx| && 0 <= idx[m] < Start(m, t) + t && idx[m] < |s|
    && forall i :: 0 <= i < |idx| && 0 <= idx[i] < Start(i, t) + t && idx[i] < |s| ==> s[idx[m]] <= s[idx[i]]
  }

  /** The least head is least of all that is left. */
  lemma LeastHead(s: seq<int>, idx: seq<int>, t: nat, m: nat)
    requires Inside(s, idx, t) && SegmentsSorted(s, |idx|, t) && LeastAt(s, idx, t, m)
    ensures forall x <- Left(s, idx, t, |idx|) :: s[idx[m]] <= x
  {
    hide Start, Left, Sorted;
    forall x <- Left(s, idx, t, |idx|) ensures s[idx[m]] <= x {
      LeftHas(s, idx, t, |idx|, x);
      var i, j :| 0 <= i < |idx| && idx[i] <= j < Start(i, t) + t && s[j] == x;
      InOrder(s, Start(i, t), Start(i, t) + t, idx[i], j);
    }
  }

  ghost predicate Below(out: seq<int>, left: multiset<int>) {
    forall j, x | 0 <= j < |out| && x in left :: out[j] <= x
  }

  /** The output so far is sorted, with what is left makes up all the numbers, and exceeds none of what is left. */
  ghost predicate Halfway(s: seq<int>, idx: seq<int>, t: nat, out: seq<int>) {
    && Inside(s, idx, t) && Sorted(out)
    && multiset(s) == multiset(out) + Left(s, idx, t, |idx|) && Below(out, Left(s, idx, t, |idx|))
  }

  lemma MoreToGive(s: seq<int>, idx: seq<int>, t: nat, out: seq<int>)
    requires Halfway(s, idx, t, out) && |out| < |s|
    ensures Inside(s, idx, t)
    ensures exists i :: 0 <= i < |idx| && idx[i] < Start(i, t) + t
  {
    hide Start, Left, Sorted, Below;
    assert |multiset(s)| == |multiset(out)| + |Left(s, idx, t, |idx|)|;
    if forall i :: 0 <= i < |idx| ==> idx[i] == Start(i, t) + t {
      LeftNone(s, idx, t, |idx|);
    }
  }

  lemma Taken(s: seq<int>, idx: seq<int>, t: nat, m: nat)
    requires Inside(s, idx, t) && LeastAt(s, idx, t, m)
    ensures m < |idx| && 0 <= idx[m] < |s| && Inside(s, idx[m := idx[m] + 1], t)
    ensures Left(s, idx, t, |idx|) == Left(s, idx[m := idx[m] + 1], t, |idx|) + multiset{s[idx[m]]}
  {
    hide Start, Inside, Left;
    TakeInside(s, idx, t, m);
    LeftTake(s, idx, t, |idx|, m, idx[m := idx[m] + 1]);
  }

  /** One more number in the output. */
  lemma Given(s: seq<int>, idx: seq<int>, t: nat, m: nat, out: seq<int>)
    requires Halfway(s, idx, t, out) && SegmentsSorted(s, |idx|, t) && LeastAt(s, idx, t, m)
    ensures m < |idx| && 0 <= idx[m] < |s|
    ensures Halfway(s, idx[m := idx[m] + 1], t, out + [s[idx[m]]])
  {
    hide SegmentsSorted, Inside, Left, Sorted, Below, Start, LeastAt;
    LeastHead(s, idx, t, m);
    Taken(s, idx, t, m);
    OneMore(out, s[idx[m]], Left(s, idx, t, |idx|), Left(s, idx[m := idx[m] + 1], t, |idx|));
  }

  lemma OneMore(out: seq<int>, y: int, left: multiset<int>, left': multiset<int>)
    requires Sorted(out) && Below(out, left) && left == left' + multiset{y} && forall x <- left :: y <= x
    ensures Sorted(out + [y]) && Below(out + [y], left')
  {
    var out' := out + [y];
    assert y in left;
    assert forall j :: 0 <= j < |out| ==> out'[j] == out[j];
    assert forall x <- left' :: x in left;
  }

  /**
   merge(): n segments of t numbers, each sorted and below LONG_MAX, become one sorted array of the same numbers.
   */
  method Merge(nums: array<int>, snums: array<int>, n: nat, t: nat)
    requires nums != snums && snums.Length == nums.Length && SegmentsSorted(nums[..], n, t)
    requires forall i :: 0 <= i < nums.Length ==> nums[i] < LONG_MAX
    modifies snums
    ensures Sorted(snums[..]) && multiset(snums[..]) == multiset(nums[..])
  {
    hide Start, SegmentsSorted, Left, Sorted, Below, Inside, LeastAt, Halfway;
    ghost var s := nums[..];
    var idx := new int[n];
    Sizes(s, n, t);
    for i := 0 to n
      invariant forall j :: 0 <= j < i ==> idx[j] == Start(j, t)
      invariant nums[..] == s
    {
      idx[i] := Start(i, t);
    }
    Begins(s, idx[..], t);
    assert snums[..0] == [];
    var minidx := 0;
    for sidx := 0 to nums.Length
      invariant nums[..] == s && Halfway(s, idx[..], t, snums[..sidx])
    {
      ghost var out, at := snums[..sidx], idx[..];
      MoreToGive(s, at, t, out);
      minidx := Least(nums, idx, n, t);
      Given(s, at, t, minidx, out);
      snums[sidx] := nums[idx[minidx]];
      idx[minidx] := idx[minidx] + 1;
      assert snums[..sidx + 1] == out + [s[at[minidx]]];
      assert idx[..] == at[minidx := at[minidx] + 1];
    }
    assert snums[..] == snums[..nums.Length];
    AllGiven(s, idx[..], t, snums[..]);
  }

  lemma AllGiven(s: seq<int>, idx: seq<int>, t: nat, out: seq<int>)
    requires Halfway(s, idx, t, out) && |out| == |s|
    ensures Sorted(out) && multiset(out) == multiset(s)
  {
    hide Inside, Sorted, Below, Left;
    var left := Left(s, idx, t, |idx|);
    assert |multiset(s)| == |multiset(out)| + |left|;
    assert left == multiset{};
  }

  lemma Sizes(s: seq<int>, n: nat, t: nat)
    requires SegmentsSorted(s, n, t)
    ensures |s| == Start(n, t) && forall i :: 0 <= i < n ==> Start(i, t) + t <= |s|
  {
  }

  lemma AllLeft(s: seq<int>, idx: seq<int>, t: nat)
    requires |s| == Start(|idx|, t) && (forall i :: 0 <= i < |idx| ==> Start(i, t) + t <= |s|)
    requires forall i :: 0 <= i < |idx| ==> idx[i] == Start(i, t)
    ensures Inside(s, idx, t) && Left(s, idx, t, |idx|) == multiset(s)
  {
    hide Start, Left;
    LeftAll(s, idx, t, |idx|);
    assert s[..|s|] == s;
  }

  lemma Begins(s: seq<int>, idx: seq<int>, t: nat)
    requires |s| == Start(|idx|, t) && (forall i :: 0 <= i < |idx| ==> Start(i, t) + t <= |s|)
    requires forall i :: 0 <= i < |idx| ==> idx[i] == Start(i, t)
    ensures Halfway(s, idx, t, [])
  {
    hide Start, Left;
    AllLeft(s, idx, t);
  }

  /** The inner loop: the segment whose next number is least. */
  method Least(nums: array<int>, idx: array<int>, n: nat, t: nat) returns (minidx: nat)
    requires idx.Length == n && Inside(nums[..], idx[..], t)
    requires exists i :: 0 <= i < n && idx[i] < Start(i, t) + t
    requires forall i :: 0 <= i < nums.Length ==> nums[i] < LONG_MAX
    ensures LeastAt(nums[..], idx[..], t, minidx)
  {
    hide Start;
    ghost var k :| 0 <= k < n && idx[k] < Start(k, t) + t;
    assert Start(k, t) <= idx[..][k] <= Start(k, t) + t;
    var num := LONG_MAX;
    minidx := 0;
    for i := 0 to n
      invariant num == LONG_MAX || (minidx < n && idx[minidx] < Start(minidx, t) + t && Start(minidx, t) <= idx[minidx] && num == nums[idx[minidx]])
      invariant num <= LONG_MAX
      invariant forall j :: 0 <= j < i && idx[j] < Start(j, t) + t ==> 0 <= idx[j] < nums.Length && num <= nums[idx[j]]
    {
      assert Start(i, t) <= idx[..][i] <= Start(i, t) + t <= nums.Length;
      if idx[i] < Start(i, t) + t && nums[idx[i]] < num {
        num := nums[idx[i]];
        minidx := i;
      }
    }
  }
}
