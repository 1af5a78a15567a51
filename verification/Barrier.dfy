/**
 Threads that each sort one segment and then wait at a barrier with the main thread, which merges the segments once the
 barrier opens. A sort in progress may rearrange its segment in any way; all that is assumed of it is that it ends with
 the same numbers in order.
 */
module Barrier {
  import opened SortMerge

  datatype ThreadPc = NotStarted | Sorting | AtBarrier | Released
  datatype MainPc = Creating(i: nat) | MainAtBarrier | Merging

  /** `nums`, the number of waiters that have arrived, the threads and the main thread. */
  datatype State = State(nums: seq<int>, arrived: nat, thr: seq<ThreadPc>, main: MainPc)

  function Segment(s: seq<int>, i: nat, t: nat): seq<int>
    requires Start(i, t) + t <= |s|
  {
    s[Start(i, t)..Start(i, t) + t]
  }

  /** Thread k's sort moves numbers about inside its segment. */
  ghost predicate Rearranged(s: seq<int>, s': seq<int>, k: nat, t: nat)
    requires Start(k, t) + t <= |s|
  {
    && |s'| == |s| && multiset(Segment(s', k, t)) == multiset(Segment(s, k, t))
    && s'[..Start(k, t)] == s[..Start(k, t)] && s'[Start(k, t) + t..] == s[Start(k, t) + t..]
  }

  function Parties(s: State): nat {
    |s.thr| + 1
  }

  /** A step of the main thread. */
  ghost predicate MainStep(s: State, s': State) {
    match s.main
    case Creating(i) =>
      if i < |s.thr| then s' == s.(thr := s.thr[i := Sorting], main := Creating(i + 1))
      else s' == s.(arrived := s.arrived + 1, main := MainAtBarrier)
    case MainAtBarrier => s.arrived == Parties(s) && s' == s.(main := Merging)
    case Merging => s' == s
  }

  /** A step of thread k, which has segment k of t numbers. */
  ghost predicate ThreadStep(s: State, s': State, k: nat, t: nat) {
    && k < |s.thr| && Start(k, t) + t <= |s.nums|
    && match s.thr[k]
       case NotStarted => false
       case Sorting =>
         || (Rearranged(s.nums, s'.nums, k, t) && s' == s.(nums := s'.nums))
         || (Sorted(Segment(s.nums, k, t)) && s' == s.(arrived := s.arrived + 1, thr := s.thr[k := AtBarrier]))
       case AtBarrier => s.arrived == Parties(s) && s' == s.(thr := s.thr[k := Released])
       case Released => s' == s
  }

  ghost predicate Step(s: State, s': State, t: nat) {
    MainStep(s, s') || exists k: nat :: ThreadStep(s, s', k, t)
  }

  ghost predicate Initial(s: State, t: nat) {
    && |s.nums| == Start(|s.thr|, t) && s.arrived == 0 && s.main == Creating(0)
    && forall k :: 0 <= k < |s.thr| ==> s.thr[k].NotStarted?
  }

  function Here(thr: seq<ThreadPc>): nat {
    if thr == [] then 0 else (if thr[0].AtBarrier? || thr[0].Released? then 1 else 0) + Here(thr[1..])
  }

  lemma {:induction false} HereMoves(thr: seq<ThreadPc>, k: nat, pc: ThreadPc)
    requires k < |thr|
    ensures
      Here(thr[k := pc]) == Here(thr) - (if thr[k].AtBarrier? || thr[k].Released? then 1 else 0) + if pc.AtBarrier? || pc.Released? then 1 else 0
  {
    if k == 0 {
      assert thr[k := pc][1..] == thr[1..];
    } else {
      HereMoves(thr[1..], k - 1, pc);
      assert thr[k := pc][1..] == thr[1..][k - 1 := pc];
    }
  }

  lemma {:induction false} HereAll(thr: seq<ThreadPc>)
    ensures Here(thr) <= |thr|
    ensures Here(thr) == |thr| <==> forall k :: 0 <= k < |thr| ==> thr[k].AtBarrier? || thr[k].Released?
    ensures (forall k :: 0 <= k < |thr| ==> thr[k].NotStarted?) ==> Here(thr) == 0
  {
    if thr != [] {
      HereAll(thr[1..]);
      assert forall k :: 0 < k < |thr| ==> thr[k] == thr[1..][k - 1];
    }
  }

  /** The barrier counts who has come; who has come has sorted; the numbers are still the ones there were. */
  ghost predicate Inv(s: State, nums: seq<int>, t: nat) {
    && |s.nums| == Start(|s.thr|, t) && multiset(s.nums) == multiset(nums)
    && s.arrived == Here(s.thr) + (if s.main.Creating? then 0 else 1)
    && (s.main.Merging? ==> s.arrived == Parties(s))
    && (s.main.Creating? ==> forall k :: s.main.i <= k < |s.thr| ==> s.thr[k].NotStarted?)
    && forall k | 0 <= k < |s.thr| :: Start(k, t) + t <= |s.nums| && (s.thr[k].AtBarrier? || s.thr[k].Released? ==> Sorted(Segment(s.nums, k, t)))
  }

  lemma Apart(k: nat, i: nat, t: nat)
    requires i != k
    ensures i < k ==> Start(i, t) + t <= Start(k, t)
    ensures k < i ==> Start(k, t) + t <= Start(i, t)
  {
    hide Start;
    if i < k {
      Starts(i, k, t);
    } else {
      Starts(k, i, t);
    }
  }

  /** Rearranging one segment leaves the others, and all the numbers, as they are. */
  lemma RearrangedOnly(s: seq<int>, s': seq<int>, k: nat, t: nat, i: nat)
    requires Start(k, t) + t <= |s| && Start(i, t) + t <= |s| && Rearranged(s, s', k, t)
    ensures |s'| == |s| && multiset(s') == multiset(s) && (i != k ==> Segment(s', i, t) == Segment(s, i, t))
  {
    var a, b := Start(k, t), Start(k, t) + t;
    assert s == s[..a] + s[a..b] + s[b..] && s' == s'[..a] + s'[a..b] + s'[b..];
    if i != k {
      Apart(k, i, t);
      SameSlices(s, s', a, b, Start(i, t), Start(i, t) + t);
    }
  }

  lemma SameSlices(s: seq<int>, s': seq<int>, a: nat, b: nat, c: nat, d: nat)
    requires a <= b <= |s| && c <= d <= |s| && |s'| == |s| && s'[..a] == s[..a] && s'[b..] == s[b..] && (d <= a || b <= c)
    ensures s'[c..d] == s[c..d]
  {
    forall x | c <= x < d ensures s'[x] == s[x] {
      if d <= a {
        assert s'[..a][x] == s[..a][x];
      } else {
        assert s'[b..][x - b] == s[b..][x - b];
      }
    }
  }

  lemma StepKeeps(s: State, s': State, nums: seq<int>, t: nat)
    requires Inv(s, nums, t) && Step(s, s', t)
    ensures Inv(s', nums, t)
  {
    hide Start, Sorted, Here, Rearranged, Segment;
    if MainStep(s, s') {
      if s.main.Creating? && s.main.i < |s.thr| {
        HereMoves(s.thr, s.main.i, Sorting);
      }
    } else {
      var k: nat :| ThreadStep(s, s', k, t);
      HereMoves(s.thr, k, s'.thr[k]);
      HereAll(s.thr);
      assert s'.thr == s.thr[k := s'.thr[k]];
      OthersSorted(s, s', k, t);
    }
  }

  lemma OthersSorted(s: State, s': State, k: nat, t: nat)
    requires ThreadStep(s, s', k, t) && forall i | 0 <= i < |s.thr| :: Start(i, t) + t <= |s.nums|
    ensures |s'.nums| == |s.nums| && multiset(s'.nums) == multiset(s.nums)
    ensures forall i | 0 <= i < |s.thr| :: i == k || Segment(s'.nums, i, t) == Segment(s.nums, i, t)
    ensures s'.nums == s.nums || s'.thr[k].Sorting?
  {
    hide Start, Sorted, Rearranged, Segment;
    if s'.nums != s.nums {
      RearrangedOnly(s.nums, s'.nums, k, t, k);
      forall i: nat | i < |s.thr| ensures i == k || Segment(s'.nums, i, t) == Segment(s.nums, i, t) {
        RearrangedOnly(s.nums, s'.nums, k, t, i);
      }
    }
  }

  lemma InitialOk(s: State, t: nat)
    requires Initial(s, t)
    ensures Inv(s, s.nums, t)
  {
    hide Start;
    HereAll(s.thr);
    forall k | 0 <= k < |s.thr| ensures Start(k, t) + t <= |s.nums| {
      Starts(k, |s.thr|, t);
    }
  }

  ghost predicate Run(run: seq<State>, t: nat) {
    && run != [] && Initial(run[0], t)
    && forall i :: 0 <= i < |run| - 1 ==> Step(run[i], run[i + 1], t)
  }

  lemma {:induction false} RunInvariant(run: seq<State>, t: nat)
    requires Run(run, t)
    ensures Inv(run[|run| - 1], run[0].nums, t)
    decreases |run|
  {
    hide Inv, Step, Initial;
    if |run| == 1 {
      InitialOk(run[0], t);
    } else {
      var n := |run| - 1;
      var early := run[..n];
      forall i | 0 <= i < n - 1 ensures Step(early[i], early[i + 1], t) {
        assert Step(run[i], run[i + 1], t);
      }
      RunInvariant(early, t);
      assert Step(run[n - 1], run[n], t);
      StepKeeps(run[n - 1], run[n], run[0].nums, t);
    }
  }

  /**
   Whatever the threads' timing, when the main thread merges every thread has sorted its segment and will not touch it
   again, and the segments hold the numbers there were at the start: what merge() needs.
   */
  lemma MergesSorted(run: seq<State>, t: nat)
    requires run != [] && Run(run, t) && run[|run| - 1].main.Merging?
    ensures
      var s := run[|run| - 1];
      && SegmentsSorted(s.nums, |s.thr|, t) && multiset(s.nums) == multiset(run[0].nums)
      && forall k: nat, s' | k < |s.thr| && ThreadStep(s, s', k, t) :: s'.nums == s.nums
  {
    hide Start, Sorted, Here, Run;
    RunInvariant(run, t);
    var s := run[|run| - 1];
    HereAll(s.thr);
    forall i | 0 <= i < |s.thr| ensures Start(i, t) + t <= |s.nums| && Sorted(s.nums[Start(i, t)..Start(i, t) + t]) {
      assert Sorted(Segment(s.nums, i, t));
    }
  }

  /** Sorting in segments and merging sorts the whole array. */
  method MergeAfter(ghost run: seq<State>, nums: array<int>, snums: array<int>, n: nat, t: nat)
    requires run != [] && Run(run, t) && run[|run| - 1].main.Merging? && nums[..] == run[|run| - 1].nums && n == |run[|run| - 1].thr|
    requires nums != snums && snums.Length == nums.Length && forall x <- run[0].nums :: x < LONG_MAX
    modifies snums
    ensures Sorted(snums[..]) && multiset(snums[..]) == multiset(run[0].nums)
  {
    hide Run, Sorted, SegmentsSorted;
    MergesSorted(run, t);
    forall i | 0 <= i < nums.Length ensures nums[i] < LONG_MAX {
      assert nums[..][i] == nums[i] && nums[i] in multiset(nums[..]);
      assert nums[i] in multiset(run[0].nums);
      assert nums[i] in run[0].nums;
    }
    Merge(nums, snums, n, t);
  }
}
