/**
 Building a pipeline of any number of commands: what each child has open when it runs, what the parent has open while it
 waits, and what comes out. The parent waits for each child before it starts the next.
 */
module Pipeline {
  /** What a descriptor stands for; pipes are numbered as they are made. */
  datatype End = ReadEnd(p: nat) | WriteEnd(p: nat) | Other(name: int)

  type Table = map<nat, End>

  const STDIN := 0
  const STDOUT := 1

  /** What a pipe holds before a write to it blocks. */
  const CAPACITY := 65536

  /** A command as a function of all its input. */
  type Stage = seq<int> -> seq<int>

  predicate NoPipes(t: Table) {
    forall fd <- t :: t[fd].Other?
  }

  /** What stage i of n should have open: its neighbours' pipes in place of the standard input and output, nothing else new. */
  function StageTable(base: Table, i: nat, n: nat): Table
    requires STDIN in base && STDOUT in base
  {
    base[STDIN := if i > 0 then ReadEnd(i - 1) else base[STDIN]][STDOUT := if i + 1 < n then WriteEnd(i) else base[STDOUT]]
  }

  /** The input after the first k stages. */
  function Composed(stages: seq<Stage>, k: nat, input: seq<int>): seq<int>
    requires k <= |stages|
  {
    if k == 0 then input else stages[k - 1](Composed(stages, k - 1, input))
  }

  /** What two and three commands in a row make of the input. */
  lemma ComposedIs(f: Stage, g: Stage, h: Stage, input: seq<int>)
    ensures Composed([f, g], 2, input) == g(f(input))
    ensures Composed([f, g, h], 3, input) == h(g(f(input)))
  {
    assert Composed([f, g], 1, input) == f(input);
    var all := [f, g, h];
    assert all[0] == f && all[1] == g && all[2] == h;
    assert Composed(all, 1, input) == all[0](input);
    assert Composed(all, 2, input) == all[1](f(input));
  }

  /** Some stage but the last puts more into its pipe than fits. */
  ghost predicate Overflows(stages: seq<Stage>, input: seq<int>) {
    exists k :: 0 < k < |stages| && |Composed(stages, k, input)| > CAPACITY
  }

  /** Two commands of which the first writes one byte more than a pipe holds. */
  lemma OverflowHappens() returns (stages: seq<Stage>, input: seq<int>)
    ensures |stages| == 2 && Overflows(stages, input)
  {
    var noisy: Stage := x => seq(CAPACITY + 1, _ => 0);
    var quiet: Stage := x => [];
    stages, input := [noisy, quiet], [];
    assert Composed(stages, 1, input) == noisy(Composed(stages, 0, input));
    assert |noisy([])| == CAPACITY + 1;
  }

  /** The least descriptor not in use, as pipe() takes them. */
  method LeastFree(t: Table) returns (fd: nat)
    ensures fd !in t && forall x :: 0 <= x < fd ==> x in t
  {
    fd := 0;
    ghost var seen: set<nat> := {};
    while fd in t
      invariant forall x :: 0 <= x < fd ==> x in t
      invariant seen == set x: nat | x in t && x < fd
      decreases t.Keys - seen
    {
      assert fd in t.Keys - seen;
      fd, seen := fd + 1, seen + {fd};
    }
  }

  predicate Holds(t: Table, e: End) {
    exists fd <- t :: t[fd] == e
  }

  /** Every child ran with exactly what its stage should have. */
  ghost predicate ChildrenOk(children: seq<Table>, base: Table, n: nat)
    requires STDIN in base && STDOUT in base
  {
    forall i | 0 <= i < |children| :: children[i] == StageTable(base, i, n)
  }

  /** While it waited for stage i, the parent had no end of the pipe that stage reads from. */
  ghost predicate WaitsOk(waits: seq<Table>) {
    forall i | 0 < i < |waits| :: !Holds(waits[i], ReadEnd(i - 1)) && !Holds(waits[i], WriteEnd(i - 1))
  }

  lemma NoneYet(base: Table, n: nat)
    requires STDIN in base && STDOUT in base
    ensures ChildrenOk([], base, n) && WaitsOk([])
  {
  }

  lemma OneMore(children: seq<Table>, waits: seq<Table>, child: Table, kept: Table, base: Table, n: nat)
    requires STDIN in base && STDOUT in base && ChildrenOk(children, base, n) && WaitsOk(waits) && |children| == |waits|
    requires child == StageTable(base, |children|, n)
    requires |waits| > 0 ==> !Holds(kept, ReadEnd(|waits| - 1)) && !Holds(kept, WriteEnd(|waits| - 1))
    ensures ChildrenOk(children + [child], base, n) && WaitsOk(waits + [kept])
  {
    hide Holds;
  }

  /** The parent, and what happened to each child. */
  class Shell {
    var fds: Table
    /** How many pipes have been made, and what was written to each and not read. */
    var made: nat
    var held: map<nat, seq<int>>
    /** Each child's table when it ran, and the parent's while it waited for it. */
    ghost var children: seq<Table>
    ghost var waits: seq<Table>
    /** What reached the standard output. */
    var output: seq<int>

    constructor (fds: Table)
      ensures this.fds == fds && made == 0 && held == map[] && children == [] && waits == [] && output == []
    {
      this.fds, made, held, children, waits, output := fds, 0, map[], [], [], [];
    }

    /** pipe() */
    method Pipe() returns (r: nat, w: nat)
      modifies this`fds, this`made, this`held
      ensures r !in old(fds) && w !in old(fds) && r != w
      ensures fds == With(old(fds), r, w, old(made))
      ensures made == old(made) + 1 && held == old(held)[old(made) := []]
    {
      r := LeastFree(fds);
      fds := fds[r := ReadEnd(made)];
      w := LeastFree(fds);
      fds := fds[w := WriteEnd(made)];
      held := held[made := []];
      made := made + 1;
    }

    /**
     The child runs while the parent waits. It reads to the end of its input, which comes only when nobody has the pipe's
     write end; what it writes must fit into its pipe, since nobody reads before it is done. Otherwise it never finishes.
     */
    method RunAndWait(child: Table, stage: Stage, input: seq<int>) returns (finished: bool)
      requires STDIN in child && STDOUT in child
      requires child[STDIN].ReadEnd? ==> child[STDIN].p in held
      modifies this`held, this`output, this`children, this`waits
      ensures children == old(children) + [child] && waits == old(waits) + [fds]
      ensures
        var eof := !child[STDIN].ReadEnd? || (!Holds(child, WriteEnd(child[STDIN].p)) && !Holds(fds, WriteEnd(child[STDIN].p)));
        var x := stage(if child[STDIN].ReadEnd? then old(held)[child[STDIN].p] else input);
        && (finished <==> eof && (child[STDOUT].WriteEnd? ==> |x| <= CAPACITY))
        && (finished && child[STDOUT].WriteEnd? ==> held == old(held)[child[STDOUT].p := x] && output == old(output))
        && (finished && !child[STDOUT].WriteEnd? ==> held == old(held) && output == old(output) + x)
        && (!finished ==> held == old(held) && output == old(output))
    {
      children, waits := children + [child], waits + [fds];
      var data := input;
      if child[STDIN].ReadEnd? {
        var p := child[STDIN].p;
        if Holds(child, WriteEnd(p)) || Holds(fds, WriteEnd(p)) {
          return false;
        }
        data := held[p];
      }
      var x := stage(data);
      if child[STDOUT].WriteEnd? {
        if |x| > CAPACITY {
          return false;
        }
        held := held[child[STDOUT].p := x];
      } else {
        output := output + x;
      }
      return true;
    }

    /**
     execute_pipeline(): stage i runs with its input from pipe i - 1 and its output to pipe i and no other end of any pipe;
     while the parent waits for it, the parent has no end of the pipe it reads from; the parent ends with what it began
     with. The result is the composition of the stages, unless one before the last overfills its pipe: then, and only
     then, the pipeline never finishes.
     */
    method ExecutePipeline(stages: seq<Stage>, input: seq<int>) returns (finished: bool)
      requires STDIN in fds && STDOUT in fds && NoPipes(fds) && made == 0 && children == [] && waits == [] && output == []
      modifies this
      ensures finished <==> !Overflows(stages, input)
      ensures finished && stages != [] ==> output == Composed(stages, |stages|, input)
      ensures finished ==> fds == old(fds) && |children| == |stages|
      ensures |children| == |waits| <= |stages|
      ensures ChildrenOk(children, old(fds), |stages|) && WaitsOk(waits)
    {
      hide Holds, NoPipes, StageTable, Composed, Overflows, With, ChildrenOk, WaitsOk, Apart;
      NoneYet(fds, |stages|);
      ghost var base := fds;
      var n := |stages|;
      var i := 0;
      var prev0: nat, prev1: nat := 0, 0;
      ComposedNone(stages, input);
      while i < n
        invariant i <= n && (if 0 < i < n then Apart(base, prev0, prev1) && fds == With(base, prev0, prev1, i - 1) else fds == base)
        invariant i < n ==> made == i && output == [] && (i > 0 ==> i - 1 in held && held[i - 1] == Composed(stages, i, input))
        invariant i == n && n > 0 ==> output == Composed(stages, n, input)
        invariant |children| == |waits| == i
        invariant ChildrenOk(children, base, n) && WaitsOk(waits)
        invariant forall k :: 0 < k <= i && k < n ==> |Composed(stages, k, input)| <= CAPACITY
      {
        ghost var before := fds;
        var r, w := 0, 0;
        if i + 1 < n {
          r, w := Pipe();
        }
        var child := fds;
        Forked(base, before, fds, prev0, prev1, r, w, i, n);
        if i > 0 {
          child := child[STDIN := child[prev0]];
          child := child - {prev0, prev1};
        }
        if i + 1 < n {
          child := child[STDOUT := child[w]];
          child := child - {r, w};
        }
        if i > 0 {
          fds := fds - {prev0, prev1};
        }
        if i + 1 < n {
          prev0, prev1 := r, w;
        }
        Waiting(base, r, w, i, n);
        ComposedNext(stages, i, input);
        OneMore(children, waits, child, fds, base, n);
        var ran := RunAndWait(child, stages[i], input);
        if !ran {
          Overflow(stages, input, i + 1);
          return false;
        }
        i := i + 1;
      }
      NoOverflow(stages, input);
      finished := true;
    }
  }

  predicate Apart(base: Table, a: nat, b: nat) {
    a !in base && b !in base && a != b
  }

  /** The parent's table with both ends of pipe p. */
  function With(base: Table, a: nat, b: nat, p: nat): Table {
    base[a := ReadEnd(p)][b := WriteEnd(p)]
  }

  /** What the parent has while stage i runs. */
  function Kept(base: Table, r: nat, w: nat, i: nat, n: nat): Table {
    if i + 1 < n then With(base, r, w, i) else base
  }

  /** From the table at fork(), the child's duplications and closes leave it what its stage should have, and the parent's close drops the old pipe. */
  lemma Forked(base: Table, before: Table, fds: Table, prev0: nat, prev1: nat, r: nat, w: nat, i: nat, n: nat)
    requires i < n && STDIN in base && STDOUT in base
    requires if i > 0 then Apart(base, prev0, prev1) && before == With(base, prev0, prev1, i - 1) else before == base
    requires if i + 1 < n then Apart(before, r, w) && fds == With(before, r, w, i) else fds == before
    ensures i > 0 ==> prev0 in fds
    ensures
      var c0 := if i > 0 then fds[STDIN := fds[prev0]] - {prev0, prev1} else fds;
      && (i + 1 < n ==> w in c0)
      && (if i + 1 < n then c0[STDOUT := c0[w]] - {r, w} else c0) == StageTable(base, i, n)
    ensures (if i > 0 then fds - {prev0, prev1} else fds) == Kept(base, r, w, i, n)
    ensures i + 1 < n ==> Apart(base, r, w)
  {
  }

  lemma Waiting(base: Table, r: nat, w: nat, i: nat, n: nat)
    requires i < n && STDIN in base && STDOUT in base && NoPipes(base) && (i + 1 < n ==> Apart(base, r, w))
    ensures
      var (child, kept) := (StageTable(base, i, n), Kept(base, r, w, i, n));
      && STDIN in child && STDOUT in child
      && (i > 0 ==> child[STDIN] == ReadEnd(i - 1) && !Holds(child, WriteEnd(i - 1)) && !Holds(kept, WriteEnd(i - 1)) && !Holds(kept, ReadEnd(i - 1)))
      && (i == 0 ==> !child[STDIN].ReadEnd?)
      && (if i + 1 < n then child[STDOUT] == WriteEnd(i) else !child[STDOUT].WriteEnd?)
  {
  }

  lemma ComposedNone(stages: seq<Stage>, input: seq<int>)
    ensures Composed(stages, 0, input) == input
  {
  }

  lemma ComposedNext(stages: seq<Stage>, i: nat, input: seq<int>)
    requires i < |stages|
    ensures Composed(stages, i + 1, input) == stages[i](Composed(stages, i, input))
    ensures i == 0 ==> Composed(stages, i, input) == input
  {
  }

  lemma Overflow(stages: seq<Stage>, input: seq<int>, k: nat)
    requires 0 < k < |stages| && |Composed(stages, k, input)| > CAPACITY
    ensures Overflows(stages, input)
  {
    hide Composed;
  }

  lemma NoOverflow(stages: seq<Stage>, input: seq<int>)
    requires forall k :: 0 < k < |stages| ==> |Composed(stages, k, input)| <= CAPACITY
    ensures !Overflows(stages, input)
  {
    hide Composed;
  }
}
