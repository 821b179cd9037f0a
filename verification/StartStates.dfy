/** The states that `Analyzer::start` and `Analyzer::run` assert, over every run. */
module StartStates {
  import opened Options
  import opened Supervisor
  import opened PokeBound

  predicate Asserted(a: Analyzer) {
    a.executing.Some? && !a.acted ==>
      && (a.executing.value.kind == Start ==> a.state == INITIALIZED)
      && (a.executing.value.kind == Run ==> a.state == STARTED)
  }

  /** Every analyzer that has taken a start or a run, and not yet acted on it, is in the state asserted. */
  predicate AssertsHold(s: Sup) {
    forall i | 0 <= i < |s.pigs| && s.pigs[i].analyzer.Some? :: Asserted(s.pigs[i].analyzer.value)
  }

  function KindCount(q: seq<Cmd>, kind: Kind): nat {
    if q == [] then 0 else (if q[0].kind == kind then 1 else 0) + KindCount(q[1..], kind)
  }

  lemma {:induction false} KindCountAppend(q: seq<Cmd>, c: Cmd, kind: Kind)
    ensures KindCount(q + [c], kind) == KindCount(q, kind) + if c.kind == kind then 1 else 0
  {
    if q != [] {
      assert (q + [c])[1..] == q[1..] + [c];
      KindCountAppend(q[1..], c, kind);
    }
  }

  /** The commands of this kind an analyzer still has to act on. */
  function Todo(a: Analyzer, kind: Kind): nat {
    KindCount(a.pending, kind) + if a.executing.Some? && !a.acted && a.executing.value.kind == kind then 1 else 0
  }

  /** As many more of this kind as the broadcast under way has for pig `i`. */
  function Coming(pc: Pc, i: nat, kind: Kind): nat {
    if pc.Broadcasting? && pc.cmd.kind == kind && pc.next <= i then 1 else 0
  }

  /** At most one start per lifetime, answering the second poke, and one run, answering the third. */
  predicate OnceEach(pc: Pc, i: nat, p: Pig, w: nat) {
    p.analyzer.Some? ==>
      var a := p.analyzer.value;
      && StatePokes(a) && w + a.heard + (if a.poking then 1 else 0) <= a.pokes
      && (p.thread ==> a.heard >= 1) && (!p.thread ==> a.pending == [])
      && (a.state == NEW || a.state == STOPPED ==> a.executing.None?)
      && Todo(a, Start) + Coming(pc, i, Start) + (if Live(a) >= 3 then 1 else 0) <= (if a.heard >= 2 then 1 else 0)
      && Todo(a, Run) + Coming(pc, i, Run) + (if Live(a) >= 4 then 1 else 0) <= (if a.heard >= 3 then 1 else 0)
  }

  /** No pig is commanded at another one's poke. */
  predicate Apart(s: Sup) {
    && (|s.pigs| == 1 || s.pending == 0)
    && forall i | 0 <= i < |s.pigs| :: OnceEach(s.pc, i, s.pigs[i], Waiting(s, i))
  }

  lemma OnceAsserts(pc: Pc, i: nat, p: Pig, w: nat)
    requires OnceEach(pc, i, p, w) && p.analyzer.Some?
    ensures Asserted(p.analyzer.value)
  {
  }

  lemma ThreadOnce(pc: Pc, i: nat, p: Pig, w: nat, t: Step)
    requires OnceEach(pc, i, p, w) && IsThreadStep(t) && p.thread && p.analyzer.Some?
    requires var a := p.analyzer.value;
             && (t.SetState? ==> MaySet(a, t.state) && !a.poking)
             && (t.Take? ==> a.pending != [] && a.executing.None? && a.state != NEW && a.state != STOPPED)
             && (t.Finish? ==> a.executing.Some?)
             && (t.Poke? ==> a.poking)
    ensures var p' := p.(analyzer := Some(AfterThread(p.analyzer.value, t)));
            OnceEach(pc, i, p', w) && (t.Poke? ==> OnceEach(pc, i, p', w + 1))
  {
  }

  lemma OnceFrame(pc: Pc, pc': Pc, i: nat, p: Pig, p': Pig, w: nat, w': nat)
    requires OnceEach(pc, i, p, w) && SamePokes(p, p') && w' <= w
    requires Coming(pc', i, Start) <= Coming(pc, i, Start) && Coming(pc', i, Run) <= Coming(pc, i, Run)
    ensures OnceEach(pc', i, p', w')
  {
  }

  lemma ApartFrame(s: Sup, s': Sup)
    requires Apart(s) && |s'.pigs| == |s.pigs| && s'.pending <= s.pending
    requires forall i | 0 <= i < |s.pigs| :: Waiting(s', i) <= Waiting(s, i)
    requires forall i | 0 <= i < |s.pigs| :: SamePokes(s.pigs[i], s'.pigs[i])
    requires forall i | 0 <= i < |s.pigs| ::
               Coming(s'.pc, i, Start) <= Coming(s.pc, i, Start) && Coming(s'.pc, i, Run) <= Coming(s.pc, i, Run)
    ensures Apart(s')
  {
    hide OnceEach, Count, SamePokes;
    forall i | 0 <= i < |s.pigs| ensures OnceEach(s'.pc, i, s'.pigs[i], Waiting(s', i)) {
      OnceFrame(s.pc, s'.pc, i, s.pigs[i], s'.pigs[i], Waiting(s, i), Waiting(s', i));
    }
  }

  lemma ApartUpdate(s: Sup, s': Sup, i: nat)
    requires Apart(s) && i < |s.pigs| && |s'.pigs| == |s.pigs| && s'.pending <= s.pending
    requires forall j | 0 <= j < |s.pigs| && j != i ::
               && s'.pigs[j] == s.pigs[j] && Waiting(s', j) <= Waiting(s, j)
               && Coming(s'.pc, j, Start) <= Coming(s.pc, j, Start) && Coming(s'.pc, j, Run) <= Coming(s.pc, j, Run)
    requires OnceEach(s'.pc, i, s'.pigs[i], Waiting(s', i))
    ensures Apart(s')
  {
    hide OnceEach, Count;
    forall j | 0 <= j < |s.pigs| ensures OnceEach(s'.pc, j, s'.pigs[j], Waiting(s', j)) {
      if j != i {
        OnceFrame(s.pc, s'.pc, j, s.pigs[j], s'.pigs[j], Waiting(s, j), Waiting(s', j));
      }
    }
  }

  lemma ThreadApart(s: Sup, t: Step, budget: nat)
    requires Inv(s) && Apart(s) && IsThreadStep(t) && Enabled(s, t, budget)
    ensures Apart(Apply(s, t, budget))
  {
    hide Slots, Analyzers, PigSlots, PcOk, CmdsOk, OnceEach, Count;
    var i := t.i;
    ThreadOnce(s.pc, i, s.pigs[i], Waiting(s, i), t);
    WaitingAppend(s.ring, i);
    ApartUpdate(s, Apply(s, t, budget), i);
  }

  lemma PreppedApart(s: Sup, i: nat)
    requires Apart(s) && i < |s.pigs| && s.pigs[i].analyzer.None? && !s.pigs[i].thread && Waiting(s, i) == 0
    requires !s.pc.Broadcasting?
    ensures Apart(Prepped(s, i))
  {
    hide Count;
    WaitingAppend(s.ring, i);
    ApartUpdate(s, Prepped(s, i), i);
  }

  /** One more command of a kind that was not due before. */
  lemma QueuedOnce(pc: Pc, pc': Pc, i: nat, p: Pig, w: nat, c: Cmd)
    requires OnceEach(pc, i, p, w) && p.analyzer.Some? && p.thread
    requires forall kind | kind == Start || kind == Run ::
               var a := p.analyzer.value;
               var due := Todo(a, kind) + Coming(pc', i, kind) + if kind == c.kind then 1 else 0;
               due <= Todo(a, kind) + Coming(pc, i, kind)
               || (due == 1 && if kind == Start then a.heard >= 2 && Live(a) < 3 else a.heard >= 3 && Live(a) < 4)
    ensures var a := p.analyzer.value;
            OnceEach(pc', i, p.(analyzer := Some(a.(pending := a.pending + [c]))), w)
  {
    var a := p.analyzer.value;
    KindCountAppend(a.pending, c, Start);
    KindCountAppend(a.pending, c, Run);
  }

  lemma BroadcastApart(s: Sup)
    requires s.pc.Broadcasting? && Apart(s)
    ensures Apart(MainStep(s))
  {
    hide Slots, Analyzers, PigSlots, Count, OnceEach, Todo;
    var Broadcasting(c, next, _, _) := s.pc;
    var s' := MainStep(s);
    if next < |s.pigs| && s.pigs[next].analyzer.Some? && s.pigs[next].thread && c in s.refs {
      QueuedOnce(s.pc, s'.pc, next, s.pigs[next], Waiting(s, next), c);
      ApartUpdate(s, s', next);
    } else {
      ApartFrame(s, s');
    }
  }

  lemma PoppedOnce(pc: Pc, i: nat, p: Pig, w: nat)
    requires OnceEach(pc, i, p, w) && p.analyzer.Some? && p.analyzer.value.pending != []
    ensures var a := p.analyzer.value;
            OnceEach(pc, i, p.(analyzer := Some(a.(pending := a.pending[1..]))), w)
  {
  }

  lemma StoppingApart(s: Sup)
    requires PigsOk(s) && s.pc.Stopping? && Apart(s)
    ensures Apart(MainStep(s))
  {
    hide Slots, Analyzers, PigSlots, Reaped, Count, PigOk, OnceEach;
    var i := s.pc.pig;
    var p := s.pigs[i];
    var a := p.analyzer.value;
    if a.completed != [] {
      var p' := p.(analyzer := Some(a.(completed := a.completed[1..])));
      ReapedSame(SetPig(s, i, p'), a.completed[0]);
      OnceFrame(s.pc, s.pc, i, p, p', Waiting(s, i), Waiting(s, i));
    } else if a.pending != [] {
      ReapedSame(SetPig(s, i, p.(analyzer := Some(a.(pending := a.pending[1..])))), a.pending[0]);
      PoppedOnce(s.pc, i, p, Waiting(s, i));
    } else {
      GoneOnce(MainStep(s).pc, i, p.(analyzer := None, thread := false), Waiting(s, i));
    }
    ApartUpdate(s, MainStep(s), i);
  }

  lemma GoneOnce(pc: Pc, i: nat, p: Pig, w: nat)
    requires p.analyzer.None?
    ensures OnceEach(pc, i, p, w)
  {
  }

  lemma ReapingApart(s: Sup)
    requires s.pc.Reaping? && Apart(s)
    ensures Apart(MainStep(s))
  {
    hide Slots, Analyzers, PigSlots, Reaped, Count, Apart;
    var i := s.pc.next;
    if i < |s.pigs| && s.pigs[i].analyzer.Some? && s.pigs[i].analyzer.value.completed != [] {
      var a := s.pigs[i].analyzer.value;
      ReapedSame(SetPig(s.(pc := Reaping(if |a.completed| > 1 then i else i + 1)), i,
                        s.pigs[i].(analyzer := Some(a.(completed := a.completed[1..])))), a.completed[0]);
    }
    ApartFrame(s, MainStep(s));
  }

  lemma MainStepApart(s: Sup)
    requires Inv(s) && Apart(s)
    ensures Apart(MainStep(s))
  {
    hide Slots, Analyzers, PigSlots, CmdsOk, Queued, Reaped, Apart, PigOk, Count;
    match s.pc
    case Broadcasting(_, _, _, _) => BroadcastApart(s);
    case Stopping(_) => StoppingApart(s);
    case Reaping(_) => ReapingApart(s);
    case _ => ApartFrame(s, MainStep(s));
  }

  /** What a read finds: no start is due at INITIALIZED, and no run at STARTED. */
  lemma HeardOnce(pc: Pc, i: nat, p: Pig, w: nat)
    requires OnceEach(pc, i, p, w) && w > 0 && p.analyzer.Some? && (p.analyzer.value.state != NEW ==> p.thread)
    requires !pc.Broadcasting?
    ensures var a := p.analyzer.value;
            var p' := p.(analyzer := Some(a.(heard := a.heard + 1)));
            && OnceEach(pc, i, p', w - 1) && OnceEach(pc, i, p'.(thread := true), w - 1)
            && (a.state == INITIALIZED ==> Todo(a, Start) == 0 && a.heard == 1 && Live(a) == 2)
            && (a.state == STARTED ==> Todo(a, Run) == 0 && a.heard == 2 && Live(a) == 3)
  {
  }

  lemma HeardApart(s: Sup)
    requires Apart(s) && s.pc == Top && s.ring != [] && s.ring[0] < |s.pigs| && PigOk(s, s.ring[0])
    ensures Apart(Heard(s))
  {
    hide OnceEach, Count, PigSlots;
    var i := s.ring[0];
    WaitingRead(s.ring);
    if s.pigs[i].analyzer.Some? {
      HeardOnce(s.pc, i, s.pigs[i], Waiting(s, i));
    } else {
      GoneOnce(s.pc, i, s.pigs[i], Waiting(Heard(s), i));
    }
    ApartUpdate(s, Heard(s), i);
  }

  /** A start or a run is due for the first time. */
  predicate NotYet(a: Analyzer, kind: Kind) {
    || (kind == Start && Todo(a, Start) == 0 && a.heard >= 2 && Live(a) < 3)
    || (kind == Run && Todo(a, Run) == 0 && a.heard >= 3 && Live(a) < 4)
  }

  lemma GateWaitsApart(s: Sup, i: nat, kind: Kind)
    requires Apart(s) && s.pc == Top && i < |s.pigs| && s.pigs[i].analyzer.Some?
    requires NotYet(s.pigs[i].analyzer.value, kind)
    requires s.pending > 0 && s.privileges.Kept?
    ensures Apart(Gate(s, i, true, kind))
  {
    hide OnceEach, Count, Todo, Queued, NotYet;
    var s' := Gate(s, i, true, kind);
    ComingOnce(s.pc, s'.pc, i, s.pigs[i], s'.pigs[i], Waiting(s, i), kind);
    ApartUpdate(s, s', i);
  }

  lemma GateApart(s: Sup, i: nat, waits: bool, kind: Kind)
    requires Apart(s) && s.pc == Top && i < |s.pigs| && s.pigs[i].analyzer.Some?
    requires NotYet(s.pigs[i].analyzer.value, kind)
    ensures Apart(Gate(s, i, waits, kind))
  {
    hide OnceEach, Count, Todo, StartBroadcast;
    if waits && s.pending > 0 && s.privileges.Kept? {
      GateWaitsApart(s, i, kind);
    } else {
      GateQueuesApart(s, i, waits, kind);
    }
  }

  lemma GateQueuesApart(s: Sup, i: nat, waits: bool, kind: Kind)
    requires Apart(s) && s.pc == Top && i < |s.pigs| && s.pigs[i].analyzer.Some?
    requires NotYet(s.pigs[i].analyzer.value, kind)
    requires !(waits && s.pending > 0 && s.privileges.Kept?)
    ensures Apart(Gate(s, i, waits, kind))
  {
    hide OnceEach, Count, Todo, StartBroadcast;
    var s' := Gate(s, i, waits, kind);
    if s.pigs[i].thread {
      QueuedOnce(s.pc, s'.pc, i, s.pigs[i], Waiting(s, i), Fresh(s, kind));
      ApartUpdate(s, s', i);
    } else {
      ApartFrame(s, s');
    }
  }

  lemma ComingOnce(pc: Pc, pc': Pc, i: nat, p: Pig, p': Pig, w: nat, kind: Kind)
    requires OnceEach(pc, i, p, w) && SamePokes(p, p') && p.analyzer.Some?
    requires !pc.Broadcasting? && (pc'.Broadcasting? ==> pc'.cmd.kind == kind)
    requires NotYet(p.analyzer.value, kind)
    ensures OnceEach(pc', i, p', w)
  {
  }

  lemma ReadPokeApart(s: Sup, budget: nat)
    requires Inv(s) && Apart(s) && Enabled(s, ReadPoke, budget)
    ensures Apart(Apply(s, ReadPoke, budget))
  {
    hide Slots, Gate, OnceEach, Count, Analyzers, PigSlots, CmdsOk, Todo, PcOk;
    var i := s.ring[0];
    var s1 := Heard(s);
    WaitingRead(s.ring);
    assert PigOk(s, i);
    HeardApart(s);
    var s' := Apply(s, ReadPoke, budget);
    if s.pigs[i].analyzer.None? {
      ApartFrame(s1, s');
    } else {
      var a := s.pigs[i].analyzer.value;
      HeardOnce(s.pc, i, s.pigs[i], Waiting(s, i));
      HeardTodo(a);
      match a.state
      case NEW => ApartUpdate(s1, s', i);
      case INITIALIZED => GateApart(s1, i, a.privileged, Start);
      case STARTED => GateApart(s1, i, !a.privileged, Run);
      case _ => ApartFrame(s1, s');
    }
  }

  lemma HeardTodo(a: Analyzer)
    ensures forall kind :: Todo(a.(heard := a.heard + 1), kind) == Todo(a, kind)
  {
  }

  lemma StepApart(s: Sup, t: Step, budget: nat)
    requires Inv(s) && Apart(s) && Enabled(s, t, budget)
    ensures Apart(Apply(s, t, budget))
  {
    hide Slots, Analyzers, PigSlots, CmdsOk, MainStep, Prepped, Handled, Apart, Count;
    if IsThreadStep(t) {
      ThreadApart(s, t, budget);
    } else {
      var s' := Apply(s, t, budget);
      match t
      case PrepNext =>
        if s.swine < |s.pigs| {
          assert PigOk(s, s.swine);
          PreppedEffect(s, s.swine);
          PreppedApart(s, s.swine);
          ApartFrame(Prepped(s, s.swine), s');
        } else {
          ApartFrame(s, s');
        }
      case ReadPoke => ReadPokeApart(s, budget);
      case Prep =>
        LazyPigFinds(s.pigs);
        var i := LazyPig(s.pigs);
        assert PigOk(s, i);
        PreppedEffect(s, i);
        PreppedApart(s, i);
        ApartFrame(Prepped(s, i), s');
      case Main => MainStepApart(s);
      case _ => ApartFrame(s, s');
    }
  }

  lemma {:induction false} RunApart(run: seq<Sup>, steps: seq<Step>, budget: nat, k: nat)
    requires IsRun(run, steps, budget) && k < |run| && (run[0].pending == 0 || |run[0].pigs| == 1)
    ensures Apart(run[k])
    decreases k
  {
    hide Inv, Apply, Enabled;
    if k > 0 {
      RunIsSafe(run, steps, budget, k - 1);
      RunApart(run, steps, budget, k - 1);
      StepApart(run[k - 1], steps[k - 1], budget);
    }
  }

  // ----- one analyzer that must start privileged, and others that must not -----

  /** A started analyzer whose run is held back until privileges are dropped. */
  predicate HeldBack(p: Pig) {
    && p.thread && p.analyzer.Some? && p.awaiting
    && var a := p.analyzer.value;
       !a.privileged && !a.poking && !a.done && a.executing.None? && a.state == STARTED && a.pending == []
  }

  lemma HoldBack(run0: seq<Sup>, steps0: seq<Step>, budget: nat, n: nat, i: nat)
    returns (run: seq<Sup>, steps: seq<Step>)
    requires Leads(run0, steps0, budget, n)
    requires var s := Last(run0);
             && i < |s.pigs| && Starting(s.pigs[i])
             && s.ring == [] && s.pc == Top && s.pending >= 2 && s.privileges.Kept? && !s.lost
    ensures Leads(run, steps, budget, n) && run[0] == run0[0]
    ensures OnlyPig(Last(run0).(pending := Last(run0).pending - 1), Last(run), i) && HeldBack(Last(run).pigs[i])
  {
    hide IsRun;
    run, steps := Extend(run0, steps0, budget, n, Poke(i));
    assert Last(run).ring == [i];
    run, steps := Extend(run, steps, budget, n, ReadPoke);
    run, steps := Extend(run, steps, budget, n, Finish(i));
  }

  predicate HeldTo(s: Sup, n: nat, k: nat) {
    && |s.pigs| == n && k < n && s.pc == Top && !s.lost && s.pending == n - k && s.privileges.Kept? && s.ring == []
    && forall i | 0 <= i < n :: if i < k then HeldBack(s.pigs[i]) else s.pigs[i] == THREADED
  }

  lemma {:induction false} HoldAll(n: nat, budget: nat, k: nat) returns (run: seq<Sup>, steps: seq<Step>)
    requires k < n && budget > 2
    ensures Leads(run, steps, budget, n) && run[0].pending == n && HeldTo(Last(run), n, k)
    decreases k
  {
    hide IsRun, HeldBack, Awaits, Starting;
    if k == 0 {
      run, steps := StartAll(n, n, budget, n);
    } else {
      run, steps := HoldAll(n, budget, k - 1);
      run, steps := Initialize(run, steps, budget, n, k - 1);
      run, steps := BeginStart(run, steps, budget, n, k - 1);
      run, steps := HoldBack(run, steps, budget, n, k - 1);
    }
  }

  lemma InitializePrivileged(run0: seq<Sup>, steps0: seq<Step>, budget: nat, n: nat, i: nat)
    returns (run: seq<Sup>, steps: seq<Step>)
    requires Leads(run0, steps0, budget, n) && budget > 2
    requires var s := Last(run0); i < |s.pigs| && s.pigs[i] == THREADED && s.ring == [] && !s.lost
    ensures Leads(run, steps, budget, n) && run[0] == run0[0] && Last(run).ring == [i]
    ensures OnlyPig(Last(run0), Last(run).(ring := []), i)
    ensures var p := Last(run).pigs[i];
            && p.analyzer.Some? && !p.awaiting
            && p.analyzer.value.state == INITIALIZED && p.analyzer.value.privileged
  {
    hide IsRun;
    run, steps := Extend(run0, steps0, budget, n, SetState(i, INITIALIZED, true));
    run, steps := Extend(run, steps, budget, n, Poke(i));
  }

  /** The last pig's poke drops privileges. */
  lemma Drop(run0: seq<Sup>, steps0: seq<Step>, budget: nat, n: nat) returns (run: seq<Sup>, steps: seq<Step>)
    requires Leads(run0, steps0, budget, n) && n >= 2 && budget > 2 && HeldTo(Last(run0), n, n - 1)
    ensures Leads(run, steps, budget, n) && run[0] == run0[0]
    ensures var s := Last(run);
            && |s.pigs| == n && HeldBack(s.pigs[0])
            && s.pc.Broadcasting? && s.pc.next == 0 && s.pc.cmd.kind == Start && s.pc.cmd in s.refs
  {
    hide IsRun, HeldBack;
    run, steps := InitializePrivileged(run0, steps0, budget, n, n - 1);
    ghost var s := Last(run);
    assert s.pigs[0] == Last(run0).pigs[0];
    run, steps := Extend(run, steps, budget, n, ReadPoke);
    assert Last(run).pigs[0] == s.pigs[0];
  }

  lemma SecondStart(run0: seq<Sup>, steps0: seq<Step>, budget: nat, n: nat) returns (run: seq<Sup>, steps: seq<Step>)
    requires Leads(run0, steps0, budget, n)
    requires var s := Last(run0);
             && |s.pigs| == n >= 1 && HeldBack(s.pigs[0])
             && s.pc.Broadcasting? && s.pc.next == 0 && s.pc.cmd.kind == Start && s.pc.cmd in s.refs
    ensures Leads(run, steps, budget, n) && run[0] == run0[0] && !AssertsHold(Last(run))
  {
    hide IsRun;
    run, steps := Extend(run0, steps0, budget, n, Main);
    run, steps := Extend(run, steps, budget, n, Take(0));
    assert !Asserted(Last(run).pigs[0].analyzer.value);
  }

  /** `start` and `run` find the states they assert on every run exactly when privileges are not
      to be changed, or there is one pig: the broadcast that ends the waiting reaches every pig,
      also one that has been started before. */
  lemma AssertsHoldExactly(n: nat, pending: nat)
    requires n >= 1 && (pending == 0 || pending == n)
    ensures (forall run: seq<Sup>, steps: seq<Step>, budget: nat, k: nat
               | Leads(run, steps, budget, n) && run[0].pending == pending && k < |run| :: AssertsHold(run[k]))
       <==> pending == 0 || n == 1
  {
    if pending == 0 || n == 1 {
      forall run: seq<Sup>, steps: seq<Step>, budget: nat, k: nat
        | Leads(run, steps, budget, n) && run[0].pending == pending && k < |run| ensures AssertsHold(run[k]) {
        RunApart(run, steps, budget, k);
        forall i | 0 <= i < |run[k].pigs| && run[k].pigs[i].analyzer.Some?
          ensures Asserted(run[k].pigs[i].analyzer.value) {
          OnceAsserts(run[k].pc, i, run[k].pigs[i], Waiting(run[k], i));
        }
      }
    } else {
      var run, steps := HoldAll(n, 3, n - 1);
      run, steps := Drop(run, steps, 3, n);
      run, steps := SecondStart(run, steps, 3, n);
      var k: nat := |run| - 1;
      assert Leads(run, steps, 3, n) && run[0].pending == pending && k < |run| && !AssertsHold(run[k]);
    }
  }
}
