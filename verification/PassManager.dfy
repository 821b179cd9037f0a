/** The scheduler of Fluid's passes: rounds over the passes still to run, each pass
    running as soon as all its dependencies have finished. */
module PassManager {

  type Dependencies = map<string, seq<string>>

  predicate Unique(s: seq<string>) {
    forall i, j | 0 <= i < j < |s| :: s[i] != s[j]
  }

  predicate CanRun(name: string, deps: Dependencies, finished: seq<string>)
    requires name in deps
  {
    forall d | d in deps[name] :: d in finished
  }

  /** The passes that finished once the round has gone through `names`. */
  function Round(names: seq<string>, deps: Dependencies, finished: seq<string>): seq<string>
    requires forall n | n in names :: n in deps
  {
    if names == [] then finished
    else Round(names[1..], deps, if CanRun(names[0], deps, finished) then finished + [names[0]] else finished)
  }

  /** The passes that are not finished, in their order. */
  function Unfinished(names: seq<string>, finished: seq<string>): (r: seq<string>)
    ensures forall n :: n in r <==> n in names && n !in finished
    ensures |r| <= |names|
    ensures Unique(names) ==> Unique(r)
  {
    if names == [] then []
    else
      var rest := Unfinished(names[1..], finished);
      if names[0] in finished then rest else [names[0]] + rest
  }

  /** The passes left, and those finished, after a number of rounds. */
  function Rounds(names: seq<string>, deps: Dependencies, finished: seq<string>, n: nat): (seq<string>, seq<string>)
    requires forall n | n in names :: n in deps
    decreases n
  {
    if n == 0 then (names, finished)
    else
      var f := Round(names, deps, finished);
      Rounds(Unfinished(names, f), deps, f, n - 1)
  }

  /** Every pass comes after all its dependencies. */
  predicate InOrder(ran: seq<string>, deps: Dependencies) {
    forall i, d | 0 <= i < |ran| && ran[i] in deps && d in deps[ran[i]] :: d in ran[..i]
  }

  /** Dependencies are registered passes, and lead downwards. */
  ghost predicate Ranked(names: seq<string>, deps: Dependencies, rank: string -> nat) {
    forall n, d | n in names && n in deps && d in deps[n] :: d in names && rank(d) < rank(n)
  }

  /** What holds between rounds: `finished` is in order, and together with `names` it is all of `all`. */
  ghost predicate Progressing(all: seq<string>, names: seq<string>, deps: Dependencies, finished: seq<string>) {
    && Unique(names) && Unique(finished) && InOrder(finished, deps)
    && (forall n | n in all :: n in deps)
    && (forall n :: n in all <==> n in names || n in finished)
    && (forall n | n in names :: n !in finished)
  }

  lemma InOrderAppend(ran: seq<string>, deps: Dependencies, x: string)
    requires InOrder(ran, deps) && x in deps && CanRun(x, deps, ran)
    ensures InOrder(ran + [x], deps)
  {
    var r := ran + [x];
    forall i, d | 0 <= i < |r| && r[i] in deps && d in deps[r[i]] ensures d in r[..i] {
      if i < |ran| {
        assert r[..i] == ran[..i] && r[i] == ran[i];
      } else {
        assert r[..i] == ran;
      }
    }
  }

  /** A round keeps the order, and finishes only passes of its own list. */
  lemma {:induction false} RoundKeeps(names: seq<string>, deps: Dependencies, finished: seq<string>)
    requires Unique(names) && Unique(finished) && InOrder(finished, deps)
    requires forall n | n in names :: n in deps && n !in finished
    ensures var f := Round(names, deps, finished);
            && Unique(f) && InOrder(f, deps) && finished <= f
            && (forall n | n in f :: n in finished || n in names)
    decreases names
  {
    if names != [] {
      var x := names[0];
      assert x in names;
      assert forall n | n in names[1..] :: n in names && n != x;
      if CanRun(x, deps, finished) {
        InOrderAppend(finished, deps, x);
        RoundKeeps(names[1..], deps, finished + [x]);
      } else {
        RoundKeeps(names[1..], deps, finished);
      }
    }
  }

  /** A runnable pass of the list is run by the round. */
  lemma {:induction false} RoundRuns(names: seq<string>, deps: Dependencies, finished: seq<string>, x: string)
    requires x in names && forall n | n in names :: n in deps
    requires CanRun(x, deps, finished)
    ensures x in Round(names, deps, finished)
    decreases names
  {
    var f := if CanRun(names[0], deps, finished) then finished + [names[0]] else finished;
    if x == names[0] {
      RoundGrows(names[1..], deps, f);
      assert x in f;
    } else {
      assert x in names[1..];
      RoundRuns(names[1..], deps, f, x);
    }
  }

  lemma {:induction false} RoundGrows(names: seq<string>, deps: Dependencies, finished: seq<string>)
    requires forall n | n in names :: n in deps
    ensures finished <= Round(names, deps, finished)
    decreases names
  {
    if names != [] {
      RoundGrows(names[1..], deps, if CanRun(names[0], deps, finished) then finished + [names[0]] else finished);
    }
  }

  lemma RoundProgresses(all: seq<string>, names: seq<string>, deps: Dependencies, finished: seq<string>)
    requires Progressing(all, names, deps, finished)
    ensures var f := Round(names, deps, finished);
            Progressing(all, Unfinished(names, f), deps, f)
  {
    RoundKeeps(names, deps, finished);
  }

  /** Among the passes left, one of least rank can run. */
  lemma {:induction false} Runnable(all: seq<string>, names: seq<string>, deps: Dependencies, finished: seq<string>,
                                    rank: string -> nat)
    returns (x: string)
    requires Progressing(all, names, deps, finished) && Ranked(all, deps, rank) && names != []
    ensures x in names && CanRun(x, deps, finished)
  {
    x := Least(names, rank);
    forall d | d in deps[x] ensures d in finished {
      assert x in all && d in all && rank(d) < rank(x);
    }
  }

  lemma {:induction false} Least(names: seq<string>, rank: string -> nat) returns (x: string)
    requires names != []
    ensures x in names && forall n | n in names :: rank(x) <= rank(n)
    decreases names
  {
    x := names[0];
    if |names| > 1 {
      var y := Least(names[1..], rank);
      if rank(y) < rank(x) { x := y; }
      assert forall n | n in names :: n == names[0] || n in names[1..];
    }
  }

  lemma {:induction false} UnfinishedShrinks(names: seq<string>, finished: seq<string>, x: string)
    requires x in names && x in finished
    ensures |Unfinished(names, finished)| < |names|
    decreases names
  {
    if names[0] != x {
      assert x in names[1..];
      UnfinishedShrinks(names[1..], finished, x);
    }
  }

  /** With ranked dependencies a round with passes left finishes at least one of them. */
  lemma RoundShrinks(all: seq<string>, names: seq<string>, deps: Dependencies, finished: seq<string>,
                     rank: string -> nat)
    requires Progressing(all, names, deps, finished) && Ranked(all, deps, rank) && names != []
    ensures |Unfinished(names, Round(names, deps, finished))| < |names|
  {
    var x := Runnable(all, names, deps, finished, rank);
    RoundRuns(names, deps, finished, x);
    UnfinishedShrinks(names, Round(names, deps, finished), x);
  }

  /** The finished passes are all of them, each once. */
  lemma {:induction false} SameElements(a: seq<string>, b: seq<string>)
    requires Unique(a) && Unique(b) && forall n :: n in a <==> n in b
    ensures multiset(a) == multiset(b)
  {
    OnceEach(a);
    OnceEach(b);
  }

  lemma {:induction false} OnceEach(a: seq<string>)
    requires Unique(a)
    ensures forall x :: multiset(a)[x] == if x in a then 1 else 0
    decreases a
  {
    if a != [] {
      OnceEach(a[1..]);
      assert a == [a[0]] + a[1..];
      assert a[0] !in a[1..];
    }
  }

  // ---------------------------------------------------------------------
  // When scheduling ends
  // ---------------------------------------------------------------------

  ghost predicate Ends(names: seq<string>, deps: Dependencies)
    requires forall n | n in names :: n in deps
  {
    exists n :: Rounds(names, deps, [], n).0 == []
  }

  function IndexOf(s: seq<string>, x: string): (i: nat)
    ensures i <= |s|
    ensures x in s ==> i < |s| && s[i] == x
    ensures forall j | 0 <= j < i :: s[j] != x
  {
    if s == [] then 0 else if s[0] == x then 0 else 1 + IndexOf(s[1..], x)
  }

  lemma {:induction false} RoundsProgress(all: seq<string>, names: seq<string>, deps: Dependencies,
                                          finished: seq<string>, n: nat)
    requires Progressing(all, names, deps, finished)
    ensures var (ns, f) := Rounds(names, deps, finished, n); Progressing(all, ns, deps, f)
    decreases n
  {
    if n > 0 {
      RoundProgresses(all, names, deps, finished);
      var f := Round(names, deps, finished);
      RoundsProgress(all, Unfinished(names, f), deps, f, n - 1);
    }
  }

  lemma {:induction false} RoundsEnd(all: seq<string>, names: seq<string>, deps: Dependencies,
                                     finished: seq<string>, rank: string -> nat)
    returns (n: nat)
    requires Progressing(all, names, deps, finished) && Ranked(all, deps, rank)
    ensures Rounds(names, deps, finished, n).0 == []
    decreases |names|
  {
    if names == [] {
      n := 0;
    } else {
      RoundShrinks(all, names, deps, finished, rank);
      RoundProgresses(all, names, deps, finished);
      var f := Round(names, deps, finished);
      n := RoundsEnd(all, Unfinished(names, f), deps, f, rank);
      n := n + 1;
    }
  }

  /** Scheduling ends exactly when the dependencies are registered passes without a cycle. */
  lemma EndsExactlyWhenRanked(names: seq<string>, deps: Dependencies)
    requires Unique(names) && forall n | n in names :: n in deps
    ensures Ends(names, deps) <==> exists rank :: Ranked(names, deps, rank)
  {
    if rank :| Ranked(names, deps, rank) {
      var n := RoundsEnd(names, names, deps, [], rank);
    }
    if Ends(names, deps) {
      var n :| Rounds(names, deps, [], n).0 == [];
      RoundsProgress(names, names, deps, [], n);
      var f := Rounds(names, deps, [], n).1;
      var rank := x => IndexOf(f, x);
      forall m, d | m in names && m in deps && d in deps[m] ensures d in names && rank(d) < rank(m) {
        var i := IndexOf(f, m);
        assert f[i] == m;
        assert d in f[..i];
        var j :| 0 <= j < i && f[j] == d;
      }
      assert Ranked(names, deps, rank);
    }
  }

  // ---------------------------------------------------------------------
  // The pass manager
  // ---------------------------------------------------------------------

  class PassManager {
    var passes: seq<string>
    var dependencies: Dependencies

    ghost predicate Valid()
      reads this
    {
      Unique(passes) && forall n | n in passes :: n in dependencies
    }

    constructor ()
      ensures Valid() && passes == []
    {
      passes, dependencies := [], map[];
    }

    method AddPass(name: string, deps: seq<string>)
      requires Valid()
      modifies this
      ensures Valid()
      ensures passes == if name in old(passes) then old(passes) else old(passes) + [name]
      ensures dependencies == old(dependencies)[name := deps]
    {
      if name !in passes {
        passes := passes + [name];
      }
      dependencies := dependencies[name := deps];
    }

    /** Puts a new pass before `target`, unless there is no such pass. */
    method AddBeforePass(target: string, name: string, deps: seq<string>) returns (ok: bool)
      requires Valid()
      modifies this
      ensures Valid() && ok == (target in old(passes))
      ensures !ok ==> passes == old(passes) && dependencies == old(dependencies)
      ensures ok ==> target in passes && name in passes
      ensures ok ==> dependencies == old(dependencies)[name := deps][target := old(dependencies)[target] + [name]]
      ensures ok ==> forall n :: n in passes <==> n in old(passes) || n == name
    {
      ok := target in passes;
      if ok {
        passes := Unfinished(passes, [target]);
        var targetDeps := dependencies[target] + [name];
        AddPass(name, deps);
        AddPass(target, targetDeps);
      }
    }

    /** Runs every pass once, after all its dependencies. */
    method ScheduleAndRunPasses() returns (ran: seq<string>)
      requires Valid() && exists rank :: Ranked(passes, dependencies, rank)
      modifies this`passes
      ensures passes == []
      ensures multiset(ran) == multiset(old(passes))
      ensures InOrder(ran, dependencies)
    {
      ghost var all := passes;
      ghost var rank :| Ranked(passes, dependencies, rank);
      ran := [];
      while |passes| > 0
        invariant Progressing(all, passes, dependencies, ran)
        decreases |passes|
      {
        hide Round, Unfinished;
        RoundProgresses(all, passes, dependencies, ran);
        RoundShrinks(all, passes, dependencies, ran, rank);
        ran := RunRound(ran);
        passes := Unfinished(passes, ran);
      }
      SameElements(ran, all);
    }

    /** One round: every pass whose dependencies have finished by now is run. */
    method RunRound(finished: seq<string>) returns (ran: seq<string>)
      requires Valid()
      ensures ran == Round(passes, dependencies, finished)
    {
      ran := finished;
      assert passes[0..] == passes;
      for i := 0 to |passes|
        invariant Round(passes, dependencies, finished) == Round(passes[i..], dependencies, ran)
      {
        assert passes[i..][0] == passes[i] && passes[i..][1..] == passes[i + 1..];
        var canRun := true;
        var deps := dependencies[passes[i]];
        for j := 0 to |deps|
          invariant canRun <==> forall k | 0 <= k < j :: deps[k] in ran
        {
          if deps[j] !in ran {
            canRun := false;
          }
        }
        assert canRun <==> CanRun(passes[i], dependencies, ran);
        if canRun {
          ran := ran + [passes[i]];
        }
      }
      assert passes[|passes|..] == [];
    }
  }

  /** A pass added before another one can always be scheduled, when its own dependencies rank below that one. */
  lemma AddBeforeKeepsRanks(names: seq<string>, deps: Dependencies, rank: string -> nat,
                            target: string, name: string, newDeps: seq<string>,
                            names': seq<string>, deps': Dependencies)
    requires Ranked(names, deps, rank) && target in names && target in deps && name !in names
    requires forall d | d in newDeps :: d in names && rank(d) < rank(target)
    requires forall n :: n in names' <==> n in names || n == name
    requires deps' == deps[name := newDeps][target := deps[target] + [name]]
    ensures exists rank' :: Ranked(names', deps', rank')
  {
    var rank' := n => if n == name then 2 * rank(target) else 2 * rank(n) + 1;
    forall n, d | n in names' && n in deps' && d in deps'[n] ensures d in names' && rank'(d) < rank'(n) {
      if n == target {
        assert d in deps[target] || d == name;
      }
    }
    assert Ranked(names', deps', rank');
  }
}
