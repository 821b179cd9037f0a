/**
  Catch's section tracker: a test body is run again and again, each time taking
  the next path through its nested sections, while the tree of sections is being
  discovered on the way.

  A test body is a finite tree of sections.  A section without subsections is a
  leaf; a leaf may throw (a failed REQUIRE), which unwinds the whole test body.
 */
module SectionTracker {

  datatype NameAndLocation = NameAndLocation(name: string, file: string, line: nat)

  datatype Section = Section(id: NameAndLocation, body: seq<Section>, throws: bool)

  datatype CycleState =
    | NotStarted
    | Executing
    | ExecutingChildren
    | NeedsAnotherRun
    | CompletedSuccessfully
    | Failed

  datatype Tracker = Tracker(id: NameAndLocation, state: CycleState, children: seq<Tracker>)

  predicate IsComplete(s: CycleState) {
    s == CompletedSuccessfully || s == Failed
  }

  predicate IsOpen(s: CycleState) {
    s != NotStarted && !IsComplete(s)
  }

  /** The position of the first child called `id`, or the number of children when there is none. */
  function FindChild(kids: seq<Tracker>, id: NameAndLocation): (i: nat)
    ensures i <= |kids|
    ensures i < |kids| ==> kids[i].id == id
    ensures forall j | 0 <= j < i :: kids[j].id != id
  {
    if kids == [] then 0
    else if kids[0].id == id then 0
    else FindChild(kids[1..], id) + 1
  }

  /** The child list after `acquire`: an unknown section is appended, not yet started. */
  function Acquired(kids: seq<Tracker>, id: NameAndLocation): (r: seq<Tracker>)
    ensures FindChild(kids, id) < |r|
  {
    if FindChild(kids, id) == |kids| then kids + [Tracker(id, NotStarted, [])] else kids
  }

  /** What `close` makes of a tracker.  Only the open states are ever closed. */
  function Closed(t: Tracker): Tracker {
    match t.state
    case Executing => t.(state := CompletedSuccessfully)
    case ExecutingChildren =>
      if t.children == [] || IsComplete(t.children[|t.children| - 1].state)
      then t.(state := CompletedSuccessfully) else t
    case _ => t
  }

  // ---------------------------------------------------------------------
  // One pass over a test body, on values
  // ---------------------------------------------------------------------

  /** The tracker a piece of test body leaves behind, whether this cycle has ended some
      section yet, the leaves executed, and whether an exception is unwinding. */
  datatype Outcome = Outcome(tracker: Tracker, completed: bool, log: seq<NameAndLocation>, threw: bool)

  /** Meeting section `s` while tracker `p` is the current one: it is entered when this cycle
      has ended no section yet and `s` is not complete. */
  function VisitSection(p: Tracker, s: Section, completed: bool): Outcome
    decreases s, 1
  {
    var kids := Acquired(p.children, s.id);
    var i := FindChild(p.children, s.id);
    if completed || IsComplete(kids[i].state) then
      Outcome(p.(children := kids), completed, [], false)
    else
      var k := kids[i].(state := Executing);
      if s.body == [] then
        if s.throws then
          Outcome(Tracker(p.id, NeedsAnotherRun, kids[i := k.(state := Failed)]), true, [s.id], true)
        else
          Outcome(Tracker(p.id, ExecutingChildren, kids[i := Closed(k)]), true, [s.id], false)
      else
        var r := RunBody(k, s.body, completed);
        Outcome(Tracker(p.id, ExecutingChildren, kids[i := Closed(r.tracker)]), true, r.log, r.threw)
  }

  /** Running a list of sections in order; an exception skips the remaining ones. */
  function RunBody(t: Tracker, body: seq<Section>, completed: bool): Outcome
    decreases body, 0
  {
    if body == [] then
      Outcome(t, completed, [], false)
    else
      var r := VisitSection(t, body[0], completed);
      if r.threw then r else
      var rest := RunBody(r.tracker, body[1..], r.completed);
      rest.(log := r.log + rest.log)
  }

  // ---------------------------------------------------------------------
  // What a run should do
  // ---------------------------------------------------------------------

  /** The leaves, left to right. */
  function Leaves(s: Section): seq<NameAndLocation> {
    if s.body == [] then [s.id] else LeavesOf(s.body)
  }

  function LeavesOf(body: seq<Section>): seq<NameAndLocation> {
    if body == [] then [] else Leaves(body[0]) + LeavesOf(body[1..])
  }

  /** A throwing leaf keeps its parent open; when it is the last child the parent
      is entered once more, executing no leaf, before it completes. */
  function Replay(body: seq<Section>): nat {
    if body != [] && body[|body| - 1].body == [] && body[|body| - 1].throws then 1 else 0
  }

  /** The number of cycles spent inside a section. */
  function Runs(s: Section): (n: nat)
    ensures n >= 1
  {
    if s.body == [] then 1 else RunsOf(s.body) + Replay(s.body)
  }

  function RunsOf(body: seq<Section>): (n: nat)
    ensures n >= |body|
  {
    if body == [] then 0 else Runs(body[0]) + RunsOf(body[1..])
  }

  /** Sibling sections have different names or locations, at every level. */
  predicate Distinct(body: seq<Section>) {
    && (forall i, j | 0 <= i < j < |body| :: body[i].id != body[j].id)
    && (forall i | 0 <= i < |body| :: Distinct(body[i].body))
  }

  function Min(a: nat, b: nat): nat {
    if a < b then a else b
  }

  /** The leaves executed by the first `n` cycles inside a list of sections. */
  function Done(s: Section, n: nat): seq<NameAndLocation>
    decreases s, 1
  {
    if n == 0 then [] else if s.body == [] then [s.id] else DoneOf(s.body, n)
  }

  function DoneOf(body: seq<Section>, n: nat): seq<NameAndLocation>
    decreases body, 0
  {
    if body == [] then []
    else
      var k := Min(n, Runs(body[0]));
      Done(body[0], k) + DoneOf(body[1..], n - k)
  }

  /** `t` is the tracker of section `s` after exactly `n` cycles inside it. */
  predicate Rep(t: Tracker, s: Section, n: nat)
    decreases s, 1
  {
    && t.id == s.id
    && n <= Runs(s)
    && if n == 0 then t.state == NotStarted && t.children == []
       else if s.body == [] then
         t.children == [] && t.state == if s.throws then Failed else CompletedSuccessfully
       else if n == Runs(s) then
         t.state == CompletedSuccessfully && |t.children| == |s.body|
         && RepOf(t.children, s.body, RunsOf(s.body))
       else
         (t.state == ExecutingChildren || t.state == NeedsAnotherRun)
         && RepOf(t.children, s.body, n)
  }

  /** `kids` are the trackers discovered for the first sections of `body`, after `n`
      cycles which went to the sections from left to right. */
  predicate RepOf(kids: seq<Tracker>, body: seq<Section>, n: nat)
    decreases body, 0
  {
    if kids == [] then n == 0
    else
      body != [] &&
      var k := Min(n, Runs(body[0]));
      Rep(kids[0], body[0], k) && RepOf(kids[1..], body[1..], n - k)
  }

  // ---------------------------------------------------------------------
  // One cycle takes exactly the next step
  // ---------------------------------------------------------------------

  /** Meeting a section whose siblings to the left are already known. */
  lemma {:induction false} FindsInOrder(kids: seq<Tracker>, body: seq<Section>, j: nat)
    requires Distinct(body) && j < |body|
    requires j <= |kids| <= |body|
    requires forall i | 0 <= i < |kids| :: kids[i].id == body[i].id
    ensures FindChild(kids, body[j].id) == j
  {
    var i := FindChild(kids, body[j].id);
    assert i < |kids| ==> kids[i].id == body[i].id;
    assert j < |kids| ==> kids[j].id == body[j].id;
  }

  /** The recursive definitions, unfolded at position `j` of a list. */
  lemma {:induction false} RepAt(kids: seq<Tracker>, body: seq<Section>, j: nat, n: nat)
    requires j < |body| && j < |kids|
    ensures var k := Min(n, Runs(body[j]));
            RepOf(kids[j..], body[j..], n) <==>
            Rep(kids[j], body[j], k) && RepOf(kids[j + 1..], body[j + 1..], n - k)
  {
    assert kids[j..][0] == kids[j] && kids[j..][1..] == kids[j + 1..];
    assert body[j..][0] == body[j] && body[j..][1..] == body[j + 1..];
  }

  lemma {:induction false} CountsAt(body: seq<Section>, j: nat, n: nat)
    requires j < |body|
    ensures RunsOf(body[j..]) == Runs(body[j]) + RunsOf(body[j + 1..])
    ensures var k := Min(n, Runs(body[j]));
            DoneOf(body[j..], n) == Done(body[j], k) + DoneOf(body[j + 1..], n - k)
    ensures j + 1 < |body| ==> Replay(body[j..]) == Replay(body[j + 1..])
    ensures j + 1 == |body| ==> Replay(body[j..]) == Replay([body[j]]) && RunsOf(body[j + 1..]) == 0
  {
    hide Done, Runs, Replay;
    assert body[j..][0] == body[j] && body[j..][1..] == body[j + 1..];
    ReplayAt(body, j);
  }

  lemma ReplayAt(body: seq<Section>, j: nat)
    requires j < |body|
    ensures j + 1 < |body| ==> Replay(body[j..]) == Replay(body[j + 1..])
    ensures j + 1 == |body| ==> Replay(body[j..]) == Replay([body[j]])
  {
    assert body[j..][|body[j..]| - 1] == body[|body| - 1];
    assert j + 1 < |body| ==> body[j + 1..][|body[j + 1..]| - 1] == body[|body| - 1];
  }

  lemma {:induction false} RunAt(t: Tracker, body: seq<Section>, j: nat, completed: bool)
    requires j < |body|
    ensures var v := VisitSection(t, body[j], completed);
            var r := RunBody(v.tracker, body[j + 1..], v.completed);
            RunBody(t, body[j..], completed) == if v.threw then v else r.(log := v.log + r.log)
  {
    assert body[j..][0] == body[j] && body[j..][1..] == body[j + 1..];
  }

  /** A prefix of a child list that a step keeps. */
  lemma PrefixKept(kids: seq<Tracker>, kids': seq<Tracker>, j: nat)
    requires j < |kids| && j < |kids'| && kids'[..j + 1] == kids[..j + 1]
    ensures kids'[j] == kids[j] && kids'[..j] == kids[..j]
  {
    assert kids'[j] == kids'[..j + 1][j] && kids[j] == kids[..j + 1][j];
    assert kids'[..j] == kids'[..j + 1][..j] && kids[..j] == kids[..j + 1][..j];
  }

  lemma {:induction false} RepIds(kids: seq<Tracker>, body: seq<Section>, n: nat)
    requires RepOf(kids, body, n)
    ensures |kids| <= |body|
    ensures forall i | 0 <= i < |kids| :: kids[i].id == body[i].id
    decreases body
  {
    if kids != [] {
      RepIds(kids[1..], body[1..], n - Min(n, Runs(body[0])));
      assert forall i | 1 <= i < |kids| :: kids[i] == kids[1..][i - 1] && body[i] == body[1..][i - 1];
    }
  }

  /** After a full traversal, the last child is complete exactly when every section is used up. */
  lemma {:induction false} LastComplete(kids: seq<Tracker>, body: seq<Section>, n: nat)
    requires RepOf(kids, body, n) && kids != [] && n <= RunsOf(body)
    ensures |kids| <= |body|
    ensures IsComplete(kids[|kids| - 1].state) ==> |kids| < |body| || n == RunsOf(body)
    ensures n == RunsOf(body) ==> |kids| == |body| && IsComplete(kids[|kids| - 1].state)
    decreases body
  {
    RepIds(kids, body, n);
    var k := Min(n, Runs(body[0]));
    if |kids| > 1 {
      LastComplete(kids[1..], body[1..], n - k);
    } else {
      assert kids[1..] == [];
    }
  }

  lemma {:induction false} Untouched(kids: seq<Tracker>, body: seq<Section>)
    requires RepOf(kids, body, 0)
    ensures forall i | 0 <= i < |kids| :: kids[i].state == NotStarted
    decreases body
  {
    if kids != [] {
      Untouched(kids[1..], body[1..]);
      assert forall i | 1 <= i < |kids| :: kids[i] == kids[1..][i - 1];
    }
  }

  /** In a cycle that has ended a section, untouched sections are discovered but not entered. */
  lemma {:induction false} RestIsSkipped(t: Tracker, body: seq<Section>, j: nat)
    requires Distinct(body) && j <= |body|
    requires j <= |t.children| <= |body|
    requires forall i | 0 <= i < |t.children| :: t.children[i].id == body[i].id
    requires RepOf(t.children[j..], body[j..], 0)
    ensures var r := RunBody(t, body[j..], true);
            && r.completed && r.log == [] && !r.threw
            && r.tracker.id == t.id && r.tracker.state == t.state
            && |r.tracker.children| == |body|
            && r.tracker.children[..j] == t.children[..j]
            && RepOf(r.tracker.children[j..], body[j..], 0)
    decreases |body| - j
  {
    hide RunBody, VisitSection, RepOf, Distinct, FindChild, Rep;
    if j == |body| {
      assert body[j..] == [] && t.children[j..] == [];
      assert t.children[..j] == t.children;
      RunNothing(t, true);
    } else {
      VisitsUntouched(t, body, j);
      var kids := Acquired(t.children, body[j].id);
      var t1 := t.(children := kids);
      RunAt(t, body, j, true);
      RestIsSkipped(t1, body, j + 1);
      var kids' := RunBody(t1, body[j + 1..], true).tracker.children;
      PrefixKept(kids, kids', j);
      RepAt(kids', body, j, 0);
      assert kids[..j] == t.children[..j];
    }
  }

  lemma {:induction false} VisitsUntouched(t: Tracker, body: seq<Section>, j: nat)
    requires Distinct(body) && j < |body|
    requires j <= |t.children| <= |body|
    requires forall i | 0 <= i < |t.children| :: t.children[i].id == body[i].id
    requires RepOf(t.children[j..], body[j..], 0)
    ensures var kids := Acquired(t.children, body[j].id);
            && j < |kids| <= |body| && kids[..j] == t.children[..j]
            && (forall i | 0 <= i < |kids| :: kids[i].id == body[i].id)
            && VisitSection(t, body[j], true) == Outcome(t.(children := kids), true, [], false)
            && Rep(kids[j], body[j], 0) && RepOf(kids[j + 1..], body[j + 1..], 0)
  {
    FindsInOrder(t.children, body, j);
    var kids := Acquired(t.children, body[j].id);
    assert kids[j := kids[j]] == kids;
    if j < |t.children| {
      RepAt(t.children, body, j, 0);
    } else {
      assert kids[j + 1..] == [];
    }
  }

  /** What a cycle does to the children of a section with unused runs. */
  ghost predicate Advanced(t: Tracker, body: seq<Section>, j: nat, n: nat, r: Outcome)
    requires j <= |body|
  {
    && r.completed
    && r.tracker.id == t.id
    && j <= |r.tracker.children| <= |body|
    && j <= |t.children|
    && r.tracker.children[..j] == t.children[..j]
    && RepOf(r.tracker.children[j..], body[j..], n + 1)
    && DoneOf(body[j..], n + 1) == DoneOf(body[j..], n) + r.log
    && (!r.threw ==>
          && |r.tracker.children| == |body|
          && r.tracker.state == ExecutingChildren
          && (n + 1 == RunsOf(body[j..]) ==> Replay(body[j..]) == 0))
    && (r.threw ==>
          if r.tracker.state == NeedsAnotherRun
          then n + 1 < RunsOf(body[j..]) + Replay(body[j..])
          else r.tracker.state == ExecutingChildren && n + 1 < RunsOf(body[j..])
               && r.tracker.children != []
               && !IsComplete(r.tracker.children[|r.tracker.children| - 1].state))
  }

  lemma {:induction false} CycleAdvances(t: Tracker, body: seq<Section>, j: nat, n: nat)
    requires Distinct(body) && j <= |body|
    requires j <= |t.children| <= |body|
    requires forall i | 0 <= i < |t.children| :: t.children[i].id == body[i].id
    requires RepOf(t.children[j..], body[j..], n)
    requires n < RunsOf(body[j..])
    ensures Advanced(t, body, j, n, RunBody(t, body[j..], false))
    decreases body, |body| - j
  {
    assert j < |body|;
    var s := body[j];
    var runs := Runs(s);
    assert body[j..][0] == s && body[j..][1..] == body[j + 1..];
    FindsInOrder(t.children, body, j);
    if n >= runs {
      SkipsDone(t, body, j, n);
    } else {
      TakesNext(t, body, j, n);
    }
  }

  /** A completed child is passed over without effect. */
  lemma {:induction false} SkipsDone(t: Tracker, body: seq<Section>, j: nat, n: nat)
    requires Distinct(body) && j < |body|
    requires j <= |t.children| <= |body|
    requires forall i | 0 <= i < |t.children| :: t.children[i].id == body[i].id
    requires RepOf(t.children[j..], body[j..], n)
    requires Runs(body[j]) <= n < RunsOf(body[j..])
    ensures Advanced(t, body, j, n, RunBody(t, body[j..], false))
    decreases body, |body| - j, 0
  {
    hide VisitSection, RunBody, RepOf, DoneOf, RunsOf;
    Discovered(t.children[j..], body[j..], n);
    RepAt(t.children, body, j, n);
    CountsAt(body, j, n);
    CycleAdvances(t, body, j + 1, n - Runs(body[j]));
    var r := RunBody(t, body[j + 1..], false);
    assert RunBody(t, body[j..], false) == r by {
      FindsInOrder(t.children, body, j);
      VisitsDone(t, body[j], j);
      RunAt(t, body, j, false);
      assert [] + r.log == r.log;
    }
    ShiftAdvanced(t, body, j, n, r);
  }

  lemma {:induction false} Discovered(kids: seq<Tracker>, body: seq<Section>, n: nat)
    requires RepOf(kids, body, n) && n > 0
    ensures kids != []
  {
  }

  lemma {:induction false} VisitsDone(t: Tracker, s: Section, j: nat)
    requires j < |t.children| && j == FindChild(t.children, s.id)
    requires IsComplete(t.children[j].state)
    ensures VisitSection(t, s, false) == Outcome(t, false, [], false)
  {
    assert t.children[j := t.children[j]] == t.children;
  }

  lemma {:induction false} ShiftAdvanced(t: Tracker, body: seq<Section>, j: nat, n: nat, r: Outcome)
    requires j < |body| && j < |t.children|
    requires Runs(body[j]) <= n < RunsOf(body[j..])
    requires Rep(t.children[j], body[j], Runs(body[j]))
    requires Advanced(t, body, j + 1, n - Runs(body[j]), r)
    ensures Advanced(t, body, j, n, r)
  {
    hide RepOf, Rep, Done, DoneOf, RunsOf, Runs;
    CountsAt(body, j, n);
    CountsAt(body, j, n + 1);
    PrefixKept(t.children, r.tracker.children, j);
    RepAt(r.tracker.children, body, j, n + 1);
    Assoc(Done(body[j], Runs(body[j])), DoneOf(body[j + 1..], n - Runs(body[j])), r.log);
  }

  lemma Assoc(a: seq<NameAndLocation>, b: seq<NameAndLocation>, c: seq<NameAndLocation>)
    ensures a + (b + c) == (a + b) + c
  {
  }

  /** The step that `SectionAdvances` describes, seen from the parent. */
  ghost predicate Entered(t: Tracker, body: seq<Section>, j: nat, n: nat, v: Outcome)
    requires j < |body|
  {
    var s := body[j];
    && v.completed && v.tracker.id == t.id
    && n < Runs(s)
    && j <= |t.children| && j < |v.tracker.children| <= |body|
    && v.tracker.children[..j] == t.children[..j]
    && Rep(v.tracker.children[j], s, n + 1)
    && Done(s, n + 1) == Done(s, n) + v.log
    && v.tracker.state == (if v.threw && s.body == [] then NeedsAnotherRun else ExecutingChildren)
    && (s.body == [] ==> v.threw == s.throws)
    && (s.body != [] && v.threw ==> n + 1 < Runs(s))
  }

  /** The first child with unused runs is entered, and is the only one. */
  lemma {:induction false} TakesNext(t: Tracker, body: seq<Section>, j: nat, n: nat)
    requires Distinct(body) && j < |body|
    requires j <= |t.children| <= |body|
    requires forall i | 0 <= i < |t.children| :: t.children[i].id == body[i].id
    requires RepOf(t.children[j..], body[j..], n)
    requires n < Runs(body[j])
    ensures Advanced(t, body, j, n, RunBody(t, body[j..], false))
    decreases body, |body| - j, 1
  {
    hide VisitSection, RunBody, RepOf, DoneOf, RunsOf, Runs, Distinct, Advanced;
    EntersNext(t, body, j, n);
    RunAt(t, body, j, false);
    var v := VisitSection(t, body[j], false);
    if v.threw {
      ThrownAdvanced(t, body, j, n, v);
    } else {
      RestIsSkipped(v.tracker, body, j + 1);
      var r := RunBody(v.tracker, body[j + 1..], true);
      assert v.log + r.log == v.log;
      QuietAdvanced(t, v, body, j, n, r.(log := v.log));
    }
  }

  lemma {:induction false} EntersNext(t: Tracker, body: seq<Section>, j: nat, n: nat)
    requires Distinct(body) && j < |body|
    requires j <= |t.children| <= |body|
    requires forall i | 0 <= i < |t.children| :: t.children[i].id == body[i].id
    requires RepOf(t.children[j..], body[j..], n)
    requires n < Runs(body[j])
    ensures var v := VisitSection(t, body[j], false);
            && Entered(t, body, j, n, v)
            && RepOf(v.tracker.children[j + 1..], body[j + 1..], 0)
            && forall i | 0 <= i < |v.tracker.children| :: v.tracker.children[i].id == body[i].id
    decreases body, |body| - j, 0
  {
    hide VisitSection, RepOf, Done, Runs, Rep, FindChild;
    NextKnown(t, body, j, n);
    var kids := Acquired(t.children, body[j].id);
    SectionAdvances(t, kids, body[j], j, n);
    var kids' := VisitSection(t, body[j], false).tracker.children;
    EnteredAt(t.children, kids, kids', j);
  }

  lemma {:induction false} NextKnown(t: Tracker, body: seq<Section>, j: nat, n: nat)
    requires Distinct(body) && j < |body|
    requires j <= |t.children| <= |body|
    requires forall i | 0 <= i < |t.children| :: t.children[i].id == body[i].id
    requires RepOf(t.children[j..], body[j..], n)
    requires n < Runs(body[j])
    ensures var kids := Acquired(t.children, body[j].id);
            && FindChild(t.children, body[j].id) == j < |kids| <= |body|
            && kids[..j] == t.children[..j]
            && (forall i | 0 <= i < |kids| :: kids[i].id == body[i].id)
            && Rep(kids[j], body[j], n) && RepOf(kids[j + 1..], body[j + 1..], 0)
  {
    FindsInOrder(t.children, body, j);
    var kids := Acquired(t.children, body[j].id);
    if j < |t.children| {
      RepAt(t.children, body, j, n);
    } else {
      assert t.children[j..] == [] && kids[j + 1..] == [];
    }
  }

  lemma EnteredAt(kids0: seq<Tracker>, kids: seq<Tracker>, kids': seq<Tracker>, j: nat)
    requires j <= |kids0| && j < |kids| && kids[..j] == kids0[..j]
    requires |kids'| == |kids| && kids' == kids[j := kids'[j]]
    ensures kids'[..j] == kids0[..j] && kids'[j + 1..] == kids[j + 1..]
    ensures forall i | 0 <= i < |kids| && i != j :: kids'[i] == kids[i]
  {
  }

  lemma {:induction false} ThrownAdvanced(t: Tracker, body: seq<Section>, j: nat, n: nat, v: Outcome)
    requires j < |body| && Entered(t, body, j, n, v) && v.threw
    requires RepOf(v.tracker.children[j + 1..], body[j + 1..], 0)
    ensures Advanced(t, body, j, n, v)
  {
    hide RepOf, Done, DoneOf, RunsOf;
    var kids := v.tracker.children;
    RepAt(kids, body, j, n + 1);
    CountsAt(body, j, n);
    CountsAt(body, j, n + 1);
    DoneOfNothing(body[j + 1..]);
    Untouched(kids[j + 1..], body[j + 1..]);
    assert |kids| > j + 1 ==> kids[|kids| - 1] == kids[j + 1..][|kids| - j - 2];
  }

  lemma {:induction false} QuietAdvanced(t: Tracker, v: Outcome, body: seq<Section>, j: nat, n: nat, r: Outcome)
    requires j < |body| && Entered(t, body, j, n, v) && !v.threw
    requires r.completed && !r.threw && r.log == v.log
    requires r.tracker.id == t.id && r.tracker.state == v.tracker.state
    requires |r.tracker.children| == |body|
    requires r.tracker.children[..j + 1] == v.tracker.children[..j + 1]
    requires RepOf(r.tracker.children[j + 1..], body[j + 1..], 0)
    ensures Advanced(t, body, j, n, r)
  {
    hide RepOf, Rep, Done, DoneOf, RunsOf, Runs;
    PrefixKept(v.tracker.children, r.tracker.children, j);
    RepAt(r.tracker.children, body, j, n + 1);
    CountsAt(body, j, n);
    CountsAt(body, j, n + 1);
    DoneOfNothing(body[j + 1..]);
  }

  lemma {:induction false} DoneOfNothing(body: seq<Section>)
    ensures DoneOf(body, 0) == []
    decreases body
  {
    if body != [] {
      DoneOfNothing(body[1..]);
    }
  }

  /** Once every child has used its runs, a further cycle enters none of them. */
  lemma {:induction false} AllDone(t: Tracker, body: seq<Section>, j: nat)
    requires Distinct(body) && j <= |body| == |t.children|
    requires forall i | 0 <= i < |body| :: t.children[i].id == body[i].id
    requires RepOf(t.children[j..], body[j..], RunsOf(body[j..]))
    ensures RunBody(t, body[j..], false) == Outcome(t, false, [], false)
    decreases |body| - j
  {
    hide VisitSection, RunBody, RepOf, RunsOf, Distinct;
    if j == |body| {
      assert body[j..] == [];
      RunNothing(t, false);
    } else {
      CountsAt(body, j, 0);
      RepAt(t.children, body, j, RunsOf(body[j..]));
      FindsInOrder(t.children, body, j);
      VisitsDone(t, body[j], j);
      RunAt(t, body, j, false);
      AllDone(t, body, j + 1);
    }
  }

  lemma {:induction false} RunNothing(t: Tracker, completed: bool)
    ensures RunBody(t, [], completed) == Outcome(t, completed, [], false)
  {
  }

  lemma {:induction false} DoneOfAll(body: seq<Section>, n: nat)
    requires n >= RunsOf(body)
    ensures DoneOf(body, n) == LeavesOf(body)
    decreases body
  {
    hide Done, Leaves, Runs;
    if body != [] {
      DoneAll(body[0]);
      DoneOfAll(body[1..], n - Runs(body[0]));
    }
  }

  lemma {:induction false} DoneAll(s: Section)
    ensures Done(s, Runs(s)) == Leaves(s)
    decreases s
  {
    if s.body != [] {
      DoneOfAll(s.body, Runs(s));
    }
  }

  /** Entering a section with unused runs uses up exactly one of them. */
  lemma {:induction false} SectionAdvances(p: Tracker, kids: seq<Tracker>, s: Section, j: nat, n: nat)
    requires Distinct(s.body)
    requires kids == Acquired(p.children, s.id) && j == FindChild(p.children, s.id)
    requires Rep(kids[j], s, n) && n < Runs(s)
    ensures var v := VisitSection(p, s, false);
            && v.completed
            && v.tracker.id == p.id
            && |v.tracker.children| == |kids|
            && v.tracker.children == kids[j := v.tracker.children[j]]
            && v.tracker.children[j].id == s.id
            && Rep(v.tracker.children[j], s, n + 1)
            && Done(s, n + 1) == Done(s, n) + v.log
            && v.tracker.state == (if v.threw && s.body == [] then NeedsAnotherRun else ExecutingChildren)
            && (s.body == [] ==> v.threw == s.throws)
            && (s.body != [] && v.threw ==> n + 1 < Runs(s))
    decreases s
  {
    assert !IsComplete(kids[j].state);
    if s.body != [] {
      hide RunBody, RepOf, DoneOf, RunsOf;
      NodeAdvances(kids[j], s.id, s.body, n);
      DoneOfNothing(s.body);
      assert s == Section(s.id, s.body, s.throws);
    }
  }

  /** The cycle inside a section that has subsections. */
  lemma {:induction false} NodeAdvances(t: Tracker, id: NameAndLocation, body: seq<Section>, n: nat)
    requires body != [] && Distinct(body) && n < RunsOf(body) + Replay(body)
    requires t.id == id && RepOf(t.children, body, n)
    ensures var r := RunBody(t.(state := Executing), body, false);
            && (forall throws :: Rep(Closed(r.tracker), Section(id, body, throws), n + 1))
            && DoneOf(body, n + 1) == DoneOf(body, n) + r.log
            && (r.threw ==> n + 1 < RunsOf(body) + Replay(body))
    decreases body, |body| + 1
  {
    hide VisitSection, RunBody, RepOf, DoneOf, RunsOf;
    var k := t.(state := Executing);
    assert k.children[0..] == k.children && body[0..] == body;
    var r := RunBody(k, body, false);
    RepIds(k.children, body, n);
    if n < RunsOf(body) {
      CycleAdvances(k, body, 0, n);
      Discovered(r.tracker.children, body, n + 1);
      assert r.tracker.children[0..] == r.tracker.children;
      LastComplete(r.tracker.children, body, n + 1);
    } else {
      Discovered(k.children, body, n);
      LastComplete(k.children, body, n);
      AllDone(k, body, 0);
      DoneOfAll(body, n + 1);
      DoneOfAll(body, n);
    }
  }

  // ---------------------------------------------------------------------
  // The tracker context
  // ---------------------------------------------------------------------

  /** The current tracker is held as the route that leads to it from the root. */
  predicate ValidPath(t: Tracker, p: seq<nat>) {
    p == [] || (p[0] < |t.children| && ValidPath(t.children[p[0]], p[1..]))
  }

  function At(t: Tracker, p: seq<nat>): Tracker
    requires ValidPath(t, p)
  {
    if p == [] then t else At(t.children[p[0]], p[1..])
  }

  function Put(t: Tracker, p: seq<nat>, x: Tracker): Tracker
    requires ValidPath(t, p)
  {
    if p == [] then x
    else t.(children := t.children[p[0] := Put(t.children[p[0]], p[1..], x)])
  }

  /** Every tracker above the current one is executing children. */
  predicate OpenAbove(t: Tracker, p: seq<nat>)
    requires ValidPath(t, p)
  {
    p == [] || (t.state == ExecutingChildren && OpenAbove(t.children[p[0]], p[1..]))
  }

  lemma {:induction false} PutAt(t: Tracker, p: seq<nat>, x: Tracker)
    requires ValidPath(t, p)
    ensures ValidPath(Put(t, p, x), p) && At(Put(t, p, x), p) == x
    ensures OpenAbove(t, p) ==> OpenAbove(Put(t, p, x), p)
    ensures Put(t, p, At(t, p)) == t
    decreases p
  {
    if p != [] {
      PutAt(t.children[p[0]], p[1..], x);
      assert t.children[p[0] := t.children[p[0]]] == t.children;
    }
  }

  lemma {:induction false} PutPut(t: Tracker, p: seq<nat>, x: Tracker, y: Tracker)
    requires ValidPath(t, p)
    ensures ValidPath(Put(t, p, x), p) && Put(Put(t, p, x), p, y) == Put(t, p, y)
    decreases p
  {
    if p != [] {
      PutPut(t.children[p[0]], p[1..], x, y);
      var c := Put(t.children[p[0]], p[1..], x);
      assert t.children[p[0] := c][p[0] := Put(c, p[1..], y)] == t.children[p[0] := Put(c, p[1..], y)];
    }
  }

  /** Going one level down. */
  lemma {:induction false} PutChild(t: Tracker, p: seq<nat>, i: nat, x: Tracker)
    requires ValidPath(t, p) && i < |At(t, p).children|
    ensures ValidPath(t, p + [i]) && At(t, p + [i]) == At(t, p).children[i]
    ensures Put(t, p + [i], x) == Put(t, p, At(t, p).(children := At(t, p).children[i := x]))
    ensures OpenAbove(t, p) && At(t, p).state == ExecutingChildren ==> OpenAbove(t, p + [i])
    ensures OpenAbove(t, p + [i]) ==> OpenAbove(t, p) && At(t, p).state == ExecutingChildren
    decreases p
  {
    var q := p + [i];
    if p == [] {
      assert q[1..] == [];
    } else {
      assert q[1..] == p[1..] + [i];
      PutChild(t.children[p[0]], p[1..], i, x);
    }
  }

  /** Section `s` is met in good order: complete or untouched once the cycle is over,
      and otherwise complete or with runs left. */
  ghost predicate Meets(t: Tracker, s: Section, completed: bool, n: nat) {
    var k := Acquired(t.children, s.id)[FindChild(t.children, s.id)];
    if completed then !IsOpen(k.state)
    else IsComplete(k.state) || (Rep(k, s, n) && n < Runs(s))
  }

  /** Sections `body[j..]` are met in good order. */
  ghost predicate MeetsAll(t: Tracker, body: seq<Section>, j: nat, completed: bool, n: nat)
    requires j <= |body|
  {
    && Distinct(body)
    && j <= |t.children| <= |body|
    && (forall i | 0 <= i < |t.children| :: t.children[i].id == body[i].id)
    && RepOf(t.children[j..], body[j..], if completed then 0 else n)
    && n <= RunsOf(body[j..])
  }

  /** The runs left to the sections after `body[j]`. */
  function Left(body: seq<Section>, j: nat, n: nat): nat
    requires j < |body|
  {
    n - Min(n, Runs(body[j]))
  }

  lemma {:induction false} MeetsNext(t: Tracker, body: seq<Section>, j: nat, completed: bool, n: nat)
    requires j < |body| && MeetsAll(t, body, j, completed, n)
    ensures Distinct(body[j].body)
    ensures Meets(t, body[j], completed, Min(n, Runs(body[j])))
    ensures var v := VisitSection(t, body[j], completed);
            v.threw || MeetsAll(v.tracker, body, j + 1, v.completed, if v.completed then 0 else Left(body, j, n))
  {
    hide VisitSection, RepOf, RunsOf, DoneOf, Done, Runs, FindChild;
    var s := body[j];
    CountsAt(body, j, n);
    if completed {
      VisitsUntouched(t, body, j);
      FindsInOrder(t.children, body, j);
    } else if n < Runs(s) {
      NextKnown(t, body, j, n);
      EntersNext(t, body, j, n);
    } else {
      Discovered(t.children[j..], body[j..], n);
      RepAt(t.children, body, j, n);
      FindsInOrder(t.children, body, j);
      VisitsDone(t, s, j);
    }
  }

  class TrackerContext {
    var root: Tracker
    var path: seq<nat>
    var completed: bool
    var log: seq<NameAndLocation>
    var unfinished: seq<NameAndLocation>

    ghost predicate Valid()
      reads this
    {
      ValidPath(root, path) && OpenAbove(root, path)
    }

    function Current(): Tracker
      requires Valid()
      reads this
    {
      At(root, path)
    }

    constructor ()
      ensures Valid() && log == [] && unfinished == []
    {
      root := Tracker(NameAndLocation("{root}", "catch.hpp", 0), NotStarted, []);
      path, completed := [], false;
      log, unfinished := [], [];
    }

    method StartRun()
      modifies this
      ensures Valid() && path == [] && !completed && root.children == []
      ensures log == old(log) && unfinished == old(unfinished)
    {
      root := Tracker(NameAndLocation("{root}", "catch.hpp", 0), NotStarted, []);
      path, completed := [], false;
    }

    method StartCycle()
      modifies this`path, this`completed
      ensures Valid() && path == [] && !completed
    {
      path, completed := [], false;
    }

    method OpenChild(p: seq<nat>)
      requires ValidPath(root, p) && OpenAbove(root, p)
      modifies this`root
      ensures root == Put(old(root), p, At(old(root), p).(state := ExecutingChildren))
      ensures ValidPath(root, p) && OpenAbove(root, p)
      decreases |p|
    {
      ghost var t := At(root, p).(state := ExecutingChildren);
      PutAt(root, p, t);
      if At(root, p).state != ExecutingChildren {
        root := Put(root, p, At(root, p).(state := ExecutingChildren));
        if p != [] {
          var q := p[..|p| - 1];
          assert p == q + [p[|p| - 1]];
          ParentOf(root, q, p[|p| - 1]);
          PutAt(root, q, At(root, q));
          OpenChild(q);
        }
      }
    }

    /** Opens child `i` of the current tracker and moves to it. */
    method Open(i: nat)
      requires Valid() && i < |Current().children|
      modifies this`root, this`path
      ensures Valid()
      ensures path == old(path) + [i]
      ensures var t := old(Current());
              root == Put(old(root), old(path),
                          Tracker(t.id, ExecutingChildren, t.children[i := t.children[i].(state := Executing)]))
      ensures Current() == old(Current()).children[i].(state := Executing)
    {
      var t := At(root, path);
      var t1 := t.(children := t.children[i := t.children[i].(state := Executing)]);
      root := Put(root, path, t1);
      PutAt(old(root), path, t1);
      PutAt(root, path, t1.(state := ExecutingChildren));
      OpenChild(path);
      PutPut(old(root), path, t1, t1.(state := ExecutingChildren));
      PutChild(root, path, i, t1.children[i]);
      path := path + [i];
    }

    /** Finds or creates the child `id` of the current tracker, and opens it unless it is complete. */
    method Acquire(id: NameAndLocation) returns (i: nat)
      requires Valid()
      modifies this`root, this`path
      ensures Valid()
      ensures i == FindChild(old(Current()).children, id)
      ensures var t := old(Current());
              var kids := Acquired(t.children, id);
              if completed || IsComplete(kids[i].state) then
                path == old(path) && root == Put(old(root), path, t.(children := kids))
              else
                && path == old(path) + [i]
                && root == Put(old(root), old(path),
                               Tracker(t.id, ExecutingChildren, kids[i := kids[i].(state := Executing)]))
                && Current() == kids[i].(state := Executing)
    {
      var t := At(root, path);
      i := FindChild(t.children, id);
      PutAt(root, path, t);
      var t1 := t.(children := Acquired(t.children, id));
      PutAt(root, path, t1);
      root := Put(root, path, t1);
      if !completed && !IsComplete(t1.children[i].state) {
        ghost var k := t1.children[i].(state := Executing);
        Open(i);
        PutPut(old(root), old(path), t1, Tracker(t.id, ExecutingChildren, t1.children[i := k]));
      }
    }

    /** Ends the current tracker; its state is never an illogical one. */
    method Close()
      requires Valid() && path != [] && IsOpen(Current().state)
      modifies this`root, this`path, this`completed
      ensures Valid() && completed
      ensures path == old(path[..|path| - 1])
      ensures ValidPath(old(root), old(path)) && root == Put(old(root), old(path), Closed(old(Current())))
    {
      var t := At(root, path);
      PutAt(root, path, Closed(t));
      match t.state {
        case NeedsAnotherRun =>
          assert Put(root, path, t) == root;
        case Executing =>
          root := Put(root, path, t.(state := CompletedSuccessfully));
        case ExecutingChildren =>
          if t.children == [] || IsComplete(t.children[|t.children| - 1].state) {
            root := Put(root, path, t.(state := CompletedSuccessfully));
          } else {
            assert Put(root, path, t) == root;
          }
      }
      MoveToParent();
      completed := true;
    }

    method MoveToParent()
      requires Valid() && path != []
      modifies this`path
      ensures Valid() && path == old(path[..|path| - 1]) && Current().state == ExecutingChildren
    {
      var q := path[..|path| - 1];
      assert path == q + [path[|path| - 1]];
      ParentOf(root, q, path[|path| - 1]);
      path := q;
    }

    /** Marks the current tracker failed and its parent as needing another run. */
    method Fail()
      requires Valid() && path != []
      modifies this`root, this`path, this`completed
      ensures Valid() && completed
      ensures path == old(path[..|path| - 1])
      ensures ValidPath(old(root), path)
      ensures var t := At(old(root), path);
              var i := old(path[|path| - 1]);
              && i < |t.children|
              && root == Put(old(root), path,
                             Tracker(t.id, NeedsAnotherRun, t.children[i := old(Current()).(state := Failed)]))
    {
      var q, i := path[..|path| - 1], path[|path| - 1];
      assert path == q + [i];
      ParentOf(root, q, i);
      var failed := At(root, path).(state := Failed);
      PutChild(root, q, i, failed);
      root := Put(root, path, failed);
      ghost var t1 := At(old(root), q).(children := At(old(root), q).children[i := failed]);
      PutAt(old(root), q, t1);
      root := Put(root, q, At(root, q).(state := NeedsAnotherRun));
      PutAt(old(root), q, t1.(state := NeedsAnotherRun));
      PutPut(old(root), q, t1, t1.(state := NeedsAnotherRun));
      path, completed := q, true;
    }

    /** A section of the test body: `sectionStarted`, its contents, and the end of its scope. */
    method RunSection(s: Section, ghost n: nat) returns (threw: bool)
      requires Valid() && unfinished == []
      requires Distinct(s.body) && Meets(Current(), s, completed, n)
      modifies this
      ensures Valid() && path == old(path)
      ensures var v := VisitSection(old(Current()), s, old(completed));
              && root == Put(old(root), path, v.tracker)
              && Current() == v.tracker && completed == v.completed
              && log == old(log) + v.log && threw == v.threw
      ensures threw <==> unfinished != []
      decreases s, 1
    {
      hide VisitSection, RunBody, RepOf, Rep, Runs, Distinct, ValidPath, OpenAbove, Put, At, FindChild, Acquired;
      threw := false;
      var p := path;
      ghost var t := Current();
      ghost var kids := Acquired(t.children, s.id);
      VisitCases(t, s, completed);
      var i := Acquire(s.id);
      PutAt(old(root), p, t.(children := kids));
      ghost var t1 := Tracker(t.id, ExecutingChildren, kids[i := kids[i].(state := Executing)]);
      PutAt(old(root), p, t1);
      if IsOpen(At(root, p).children[i].state) {
        if s.body != [] {
          Enterable(kids[i], s, n);
        }
        threw := RunContents(s, n, old(root), p, i, t1);
        ghost var x := VisitSection(t, s, false).tracker.children[i];
        assert t1.children[i := x] == kids[i := x];
      }
      PutAt(old(root), p, VisitSection(t, s, old(completed)).tracker);
    }

    /** The contents of an entered section and the end of its scope. */
    method RunContents(s: Section, ghost n: nat, ghost r0: Tracker, ghost p: seq<nat>, ghost i: nat, ghost t: Tracker)
      returns (threw: bool)
      requires Valid() && unfinished == [] && !completed && path == p + [i]
      requires ValidPath(r0, p) && i < |t.children| && root == Put(r0, p, t)
      requires Current() == t.children[i] && t.children[i].state == Executing && t.state == ExecutingChildren
      requires s.body != [] ==> MeetsAll(t.children[i], s.body, 0, false, n)
      modifies this
      ensures Valid() && path == p && completed
      ensures threw <==> unfinished != []
      ensures var r := if s.body == [] then Outcome(t.children[i], true, [s.id], s.throws)
                       else RunBody(t.children[i], s.body, false);
              && threw == r.threw && log == old(log) + r.log
              && root == Put(r0, p,
                   if threw && s.body == []
                   then Tracker(t.id, NeedsAnotherRun, t.children[i := r.tracker.(state := Failed)])
                   else t.(children := t.children[i := Closed(r.tracker)]))
      decreases s, 0
    {
      hide RunBody, ValidPath, OpenAbove, Put, At, MeetsAll;
      if s.body == [] {
        log, threw := log + [s.id], s.throws;
        EndSection(s, threw, r0, p, i, t);
      } else {
        ghost var k := RunBody(t.children[i], s.body, false).tracker;
        StaysOpen(t.children[i], s.body, false);
        threw := RunSections(s.body, n);
        ReplaceChild(r0, p, t, i, k);
        ghost var t1 := t.(children := t.children[i := k]);
        EndSection(s, threw, r0, p, i, t1);
        assert t1.children[i := Closed(k)] == t.children[i := Closed(k)];
      }
    }

    /** The end of a section's scope: the innermost section left by an exception fails. */
    method EndSection(s: Section, threw: bool, ghost r0: Tracker, ghost p: seq<nat>, ghost i: nat, ghost t: Tracker)
      requires Valid() && path == p + [i]
      requires ValidPath(r0, p) && i < |t.children| && root == Put(r0, p, t)
      requires Current() == t.children[i] && IsOpen(t.children[i].state) && t.state == ExecutingChildren
      requires unfinished != [] ==> threw
      modifies this`root, this`path, this`completed, this`unfinished
      ensures Valid() && path == p && completed
      ensures unfinished == if threw then old(unfinished) + [s.id] else []
      ensures root == Put(r0, p,
        if threw && old(unfinished) == []
        then Tracker(t.id, NeedsAnotherRun, t.children[i := t.children[i].(state := Failed)])
        else t.(children := t.children[i := Closed(t.children[i])]))
    {
      hide ValidPath, OpenAbove, Put, At;
      assert path[..|path| - 1] == p;
      PutAt(r0, p, t);
      if threw && unfinished == [] {
        Fail();
        PutPut(r0, p, t, Tracker(t.id, NeedsAnotherRun, t.children[i := t.children[i].(state := Failed)]));
      } else {
        Close();
        ReplaceChild(r0, p, t, i, Closed(t.children[i]));
      }
      if threw {
        unfinished := unfinished + [s.id];
      }
    }

    /** The sections of a body, in order, until one throws. */
    method RunSections(body: seq<Section>, ghost n: nat) returns (threw: bool)
      requires Valid() && unfinished == [] && !completed
      requires MeetsAll(Current(), body, 0, false, n)
      modifies this
      ensures Valid() && path == old(path)
      ensures var r := RunBody(old(Current()), body, false);
              && root == Put(old(root), path, r.tracker)
              && Current() == r.tracker && completed == r.completed
              && log == old(log) + r.log && threw == r.threw
      ensures threw <==> unfinished != []
      decreases body, 0
    {
      hide RunBody, VisitSection, RepOf, Distinct, RunsOf, Runs, ValidPath, OpenAbove, Put, At;
      threw := false;
      ghost var m: nat := n;
      ghost var t0 := Current();
      PutAt(root, path, t0);
      assert body[0..] == body;
      for j := 0 to |body|
        invariant Valid() && path == old(path) && unfinished == []
        invariant root == Put(old(root), path, Current())
        invariant MeetsAll(Current(), body, j, completed, m)
        invariant var r := RunBody(Current(), body[j..], completed);
                  && RunBody(t0, body, false).(log := []) == r.(log := [])
                  && old(log) + RunBody(t0, body, false).log == log + r.log
      {
        ghost var t, c := Current(), completed;
        MeetsNext(t, body, j, completed, m);
        RunAt(t, body, j, completed);
        PutAt(old(root), path, t);
        threw := RunSection(body[j], Min(m, Runs(body[j])));
        PutPut(old(root), path, t, Current());
        if threw {
          return;
        }
        m := if completed then 0 else Left(body, j, m);
      }
      assert body[|body|..] == [];
      RunNothing(Current(), completed);
    }

    /** Runs a test case to completion, counting the cycles. */
    method RunTest(tc: Section) returns (cycles: nat)
      requires Distinct(tc.body) && unfinished == []
      modifies this
      ensures Valid() && unfinished == []
      ensures log == old(log) + Leaves(tc)
      ensures cycles == Runs(tc)
    {
      hide RepOf, DoneOf, RunsOf, Distinct, LeavesOf;
      StartRun();
      cycles := 0;
      var done := false;
      ghost var s := tc.(throws := false);
      while !done
        invariant Valid() && unfinished == [] && cycles <= Runs(s)
        invariant cycles == 0 ==> root.children == []
        invariant cycles > 0 ==> |root.children| == 1 && Rep(root.children[0], s, cycles)
        invariant log == old(log) + Done(s, cycles)
        invariant done <==> cycles == Runs(s)
        decreases Runs(s) - cycles
      {
        ghost var r0, n := root, cycles;
        ghost var k := if n == 0 then Tracker(s.id, NotStarted, []) else root.children[0];
        assert Rep(k, s, n) && !IsComplete(k.state);
        StartCycle();
        var i := Acquire(tc.id);
        assert i == 0 && path == [0] && root.children == [k.(state := Executing)];
        RunCurrentTest(tc, n, k);
        cycles := cycles + 1;
        done := root.children[i].state == CompletedSuccessfully;
      }
      DoneAll(s);
    }

    /** One execution of the test body; exceptions stop here. */
    method RunCurrentTest(tc: Section, ghost n: nat, ghost k: Tracker)
      requires Valid() && unfinished == [] && !completed
      requires path == [0] && root.children == [k.(state := Executing)]
      requires Distinct(tc.body) && Rep(k, tc.(throws := false), n) && n < Runs(tc)
      modifies this
      ensures Valid() && unfinished == [] && path == []
      ensures |root.children| == 1 && Rep(root.children[0], tc.(throws := false), n + 1)
      ensures old(log) <= log && Done(tc, n + 1) == Done(tc, n) + log[|old(log)|..]
    {
      hide RunBody, RunsOf, DoneOf, Distinct;
      ghost var t, r0 := k.(state := Executing), root;
      assert At(root, path) == t by { assert path[1..] == []; }
      if tc.body == [] {
        log := log + [tc.id];
      } else {
        NodeAdvances(k, tc.id, tc.body, n);
        DoneOfNothing(tc.body);
        Enterable(k, tc.(throws := false), n);
        StaysOpen(t, tc.body, false);
        var _ := RunSections(tc.body, n);
        t := RunBody(t, tc.body, false).tracker;
        assert Put(r0, path, t).children == [t];
      }
      Close();
      unfinished := [];
    }
  }

  lemma {:induction false} VisitCases(p: Tracker, s: Section, completed: bool)
    ensures
      var kids, i := Acquired(p.children, s.id), FindChild(p.children, s.id);
      var v := VisitSection(p, s, completed);
      if completed || IsComplete(kids[i].state) then
        v == Outcome(p.(children := kids), completed, [], false)
      else
        var k := kids[i].(state := Executing);
        if s.body == [] then
          v == Outcome(Tracker(p.id, if s.throws then NeedsAnotherRun else ExecutingChildren,
                               kids[i := if s.throws then k.(state := Failed) else Closed(k)]), true, [s.id], s.throws)
        else
          var r := RunBody(k, s.body, false);
          v == Outcome(Tracker(p.id, ExecutingChildren, kids[i := Closed(r.tracker)]), true, r.log, r.threw)
  {
  }

  /** The state of every tracker between cycles: completed children, then at most one that
      is in progress, then children that have not started. */
  lemma {:induction false} ChildrenInOrder(kids: seq<Tracker>, body: seq<Section>, n: nat) returns (i: nat)
    requires RepOf(kids, body, n)
    ensures i <= |kids|
    ensures forall j | 0 <= j < i :: IsComplete(kids[j].state)
    ensures forall j | i < j < |kids| :: kids[j].state == NotStarted
    ensures i < |kids| ==> !IsComplete(kids[i].state)
    decreases body
  {
    i := 0;
    if kids != [] {
      var k := Min(n, Runs(body[0]));
      if k == Runs(body[0]) {
        i := ChildrenInOrder(kids[1..], body[1..], n - k);
        i := i + 1;
        assert forall j | 1 <= j < |kids| :: kids[j] == kids[1..][j - 1];
      } else {
        Untouched(kids[1..], body[1..]);
        assert forall j | 1 <= j < |kids| :: kids[j] == kids[1..][j - 1];
      }
    }
  }

  /** Without exceptions the number of cycles is the number of leaves. */
  predicate Quiet(s: Section) {
    !s.throws && forall i | 0 <= i < |s.body| :: Quiet(s.body[i])
  }

  lemma {:induction false} QuietRuns(s: Section)
    requires Quiet(s)
    ensures Runs(s) == |Leaves(s)|
    decreases s
  {
    if s.body != [] {
      QuietRunsOf(s.body);
    }
  }

  lemma {:induction false} QuietRunsOf(body: seq<Section>)
    requires forall i | 0 <= i < |body| :: Quiet(body[i])
    ensures RunsOf(body) == |LeavesOf(body)|
    decreases body
  {
    if body != [] {
      QuietRuns(body[0]);
      QuietRunsOf(body[1..]);
    }
  }

  /** Replacing a child of a replaced tracker. */
  lemma {:induction false} ReplaceChild(t: Tracker, p: seq<nat>, x: Tracker, i: nat, y: Tracker)
    requires ValidPath(t, p) && i < |x.children|
    ensures ValidPath(Put(t, p, x), p + [i])
    ensures Put(Put(t, p, x), p + [i], y) == Put(t, p, x.(children := x.children[i := y]))
  {
    PutAt(t, p, x);
    PutChild(Put(t, p, x), p, i, y);
    PutPut(t, p, x, x.(children := x.children[i := y]));
  }

  lemma {:induction false} StaysOpen(t: Tracker, body: seq<Section>, completed: bool)
    requires IsOpen(t.state)
    ensures IsOpen(RunBody(t, body, completed).tracker.state)
    decreases body
  {
    if body != [] {
      var v := VisitSection(t, body[0], completed);
      StaysOpen(v.tracker, body[1..], v.completed);
    }
  }

  lemma {:induction false} Enterable(t: Tracker, s: Section, n: nat)
    requires s.body != [] && Distinct(s.body) && Rep(t, s, n) && n < Runs(s)
    ensures MeetsAll(t, s.body, 0, false, n)
  {
    assert t.children[0..] == t.children && s.body[0..] == s.body;
    RepIds(t.children, s.body, n);
  }

  lemma {:induction false} ParentOf(t: Tracker, q: seq<nat>, i: nat)
    requires ValidPath(t, q + [i])
    ensures ValidPath(t, q) && i < |At(t, q).children|
    ensures OpenAbove(t, q + [i]) ==> OpenAbove(t, q) && At(t, q).state == ExecutingChildren
    decreases q
  {
    var p := q + [i];
    if q != [] {
      assert p[1..] == q[1..] + [i];
      ParentOf(t.children[q[0]], q[1..], i);
    }
  }
}
