/**
  How many pokes can wait for the main thread, and so how often an analyzer may poke before
  the ring overflows.
 */
module PokeBound {
  import opened Options
  import opened Supervisor

  /** The pokes of a lifetime without the one for STOPPED. */
  function Live(a: Analyzer): int {
    a.pokes - if a.state == STOPPED then 1 else 0
  }

  /** A command of this kind waits for the analyzer or is executing. */
  predicate Has(a: Analyzer, kind: Kind) {
    || (exists k | 0 <= k < |a.pending| :: a.pending[k].kind == kind)
    || (a.executing.Some? && a.executing.value.kind == kind)
  }

  /** Pig `i` may have been commanded by the broadcast that another pig's poke set off. */
  predicate Swept(pr: Privileges, i: nat) {
    pr.Dropped? && pr.who != i
  }

  predicate SweptBy(pr: Privileges, i: nat, kind: Kind) {
    Swept(pr, i) && pr.sending == kind
  }

  /** The pokes that may wait for a slot. */
  function Allowance(pr: Privileges, i: nat): nat {
    NUM_STATES - if Swept(pr, i) then 0 else 1
  }

  predicate StatePokes(a: Analyzer) {
    match a.state
    case NEW => a.pokes == 1
    case INITIALIZED => a.pokes == 2
    case STARTED => a.pokes == 3
    case STOPPED => a.pokes >= 2
    case _ => a.pokes >= 4
  }

  /** How much the main thread must have read for an analyzer to be where it is: a start is sent
      for the second poke and a run for the third, unless they were broadcast. */
  predicate Answered(pr: Privileges, i: nat, a: Analyzer) {
    && (Live(a) >= 3 || Has(a, Start) ==> a.heard >= 2 || SweptBy(pr, i, Start))
    && (Has(a, Run) ==> a.heard >= 3 || (a.heard >= 2 && SweptBy(pr, i, Start)) || SweptBy(pr, i, Run))
    && (Live(a) >= 4 ==> a.heard >= 3 || (a.heard >= 2 && Swept(pr, i)))
  }

  /** The pokes of slot `i` that wait, `w` of them, are those asked for and not yet read. */
  predicate PokeOk(pr: Privileges, i: nat, p: Pig, w: nat) {
    if p.analyzer.None? then w <= Allowance(pr, i)
    else
      var a := p.analyzer.value;
      && StatePokes(a) && a.pokes <= NUM_STATES + 2
      && w + a.heard + (if a.poking then 1 else 0) == a.pokes
      && if p.thread then a.heard >= 1 && Answered(pr, i, a)
         else a.state == NEW && a.pending == [] && a.executing.None?
  }

  /** The pig at whose poke a start or a run is being broadcast needs no broadcast. */
  predicate SweepOk(s: Sup) {
    s.pc.Broadcasting? && (s.pc.cmd.kind == Start || s.pc.cmd.kind == Run) ==>
      && s.privileges.Dropped? && s.privileges.sending == s.pc.cmd.kind
      && s.privileges.who < |s.pigs| && s.pigs[s.privileges.who].analyzer.Some?
      && s.pigs[s.privileges.who].analyzer.value.heard >= if s.pc.cmd.kind == Start then 2 else 3
  }

  predicate PokesOk(s: Sup) {
    && !s.lost && SweepOk(s)
    && (s.privileges.Dropped? ==> s.privileges.who < |s.pigs|)
    && forall i | 0 <= i < |s.pigs| :: PokeOk(s.privileges, i, s.pigs[i], Waiting(s, i))
  }

  // ----- room -----

  function Without(ring: seq<nat>, x: nat): (r: seq<nat>)
    ensures |r| == |ring| - Count(ring, x)
    ensures forall j: nat | j != x :: Count(r, j) == Count(ring, j)
    ensures forall k | 0 <= k < |r| :: r[k] in ring && r[k] != x
  {
    if ring == [] then []
    else
      assert ring == [ring[0]] + ring[1..];
      if ring[0] == x then Without(ring[1..], x) else [ring[0]] + Without(ring[1..], x)
  }

  function Allowances(pr: Privileges, n: nat): nat {
    if n == 0 then 0 else Allowances(pr, n - 1) + Allowance(pr, n - 1)
  }

  lemma {:induction false} RingBound(ring: seq<nat>, pr: Privileges, n: nat)
    requires forall k | 0 <= k < |ring| :: ring[k] < n
    requires forall i | 0 <= i < n :: Count(ring, i) <= Allowance(pr, i)
    ensures |ring| <= Allowances(pr, n)
    decreases n
  {
    if n == 0 {
      assert ring == [];
    } else {
      hide Count, Without, Allowance;
      var r := Without(ring, n - 1);
      assert forall i: nat | i < n - 1 :: Count(r, i) == Count(ring, i);
      assert Count(ring, n - 1) <= Allowance(pr, n - 1);
      assert forall k | 0 <= k < |r| :: r[k] < n - 1;
      RingBound(r, pr, n - 1);
    }
  }

  lemma {:induction false} AllowancesBound(pr: Privileges, n: nat)
    ensures Allowances(pr, n) <= NUM_STATES * n
    ensures pr.Dropped? ==> pr.who < n ==> Allowances(pr, n) <= NUM_STATES * n - 1
    ensures pr.Kept? ==> Allowances(pr, n) == (NUM_STATES - 1) * n
  {
    if n > 0 {
      AllowancesBound(pr, n - 1);
    }
  }

  /** The bound on every slot leaves room for one more poke of a slot below it. */
  lemma RoomForPoke(s: Sup, i: nat)
    requires i < |s.pigs| && (forall k | 0 <= k < |s.ring| :: s.ring[k] < |s.pigs|)
    requires s.privileges.Dropped? ==> s.privileges.who < |s.pigs|
    requires forall j | 0 <= j < |s.pigs| :: Waiting(s, j) <= Allowance(s.privileges, j)
    requires Waiting(s, i) < Allowance(s.privileges, i)
    ensures |s.ring| < Capacity(s)
  {
    hide Allowance, Allowances;
    var ring := s.ring + [i];
    WaitingAppend(s.ring, i);
    RingBound(ring, s.privileges, |s.pigs|);
    AllowancesBound(s.privileges, |s.pigs|);
  }

  lemma WithinAllowance(pr: Privileges, i: nat, p: Pig, w: nat)
    requires PokeOk(pr, i, p, w)
    ensures w + (if p.analyzer.Some? && p.analyzer.value.poking then 1 else 0) <= Allowance(pr, i)
  {
  }

  lemma AllWithin(s: Sup)
    requires PokesOk(s)
    ensures forall j | 0 <= j < |s.pigs| :: Waiting(s, j) <= Allowance(s.privileges, j)
  {
    hide Count, Allowance;
    forall j | 0 <= j < |s.pigs| ensures Waiting(s, j) <= Allowance(s.privileges, j) {
      WithinAllowance(s.privileges, j, s.pigs[j], Waiting(s, j));
    }
  }

  // ----- steps -----

  lemma PokesUpdate(s: Sup, s': Sup, i: nat)
    requires PokesOk(s) && i < |s.pigs| && |s'.pigs| == |s.pigs| && !s'.lost
    requires s'.privileges == s.privileges && SweepOk(s')
    requires forall j | 0 <= j < |s.pigs| && j != i :: s'.pigs[j] == s.pigs[j] && Waiting(s', j) == Waiting(s, j)
    requires PokeOk(s'.privileges, i, s'.pigs[i], Waiting(s', i))
    ensures PokesOk(s')
  {
    hide PokeOk, Count, SweepOk;
  }

  predicate SamePokes(p: Pig, p': Pig) {
    && p.thread == p'.thread && p.analyzer.Some? == p'.analyzer.Some?
    && (p.analyzer.Some? ==> p'.analyzer.value.(completed := p.analyzer.value.completed) == p.analyzer.value)
  }

  lemma SamePokesOk(pr: Privileges, i: nat, p: Pig, p': Pig, w: nat)
    requires PokeOk(pr, i, p, w) && SamePokes(p, p')
    ensures PokeOk(pr, i, p', w)
  {
  }

  lemma PokesFrame(s: Sup, s': Sup)
    requires PokesOk(s) && |s'.pigs| == |s.pigs| && s'.lost == s.lost
    requires s'.privileges == s.privileges && SweepOk(s')
    requires s'.ring == s.ring
    requires forall i | 0 <= i < |s.pigs| :: SamePokes(s.pigs[i], s'.pigs[i])
    ensures PokesOk(s')
  {
    hide PokeOk, Count, SweepOk, SamePokes;
    forall i | 0 <= i < |s.pigs| ensures PokeOk(s'.privileges, i, s'.pigs[i], Waiting(s', i)) {
      SamePokesOk(s.privileges, i, s.pigs[i], s'.pigs[i], Waiting(s, i));
    }
  }

  lemma ThreadPokeOk(pr: Privileges, i: nat, p: Pig, w: nat, t: Step)
    requires PokeOk(pr, i, p, w) && IsThreadStep(t) && p.thread && p.analyzer.Some?
    requires var a := p.analyzer.value;
             && (t.SetState? ==> MaySet(a, t.state) && !a.poking && a.pokes < NUM_STATES + 2)
             && (t.Take? ==> a.pending != [] && a.executing.None?)
             && (t.Finish? ==> a.executing.Some?)
             && (t.Poke? ==> a.poking)
    ensures var p' := p.(analyzer := Some(AfterThread(p.analyzer.value, t)));
            PokeOk(pr, i, p', if t.Poke? then w + 1 else w)
  {
    var a := p.analyzer.value;
    var a' := AfterThread(a, t);
    forall kind | Has(a', kind) ensures Has(a, kind) {
      if t.Take? {
        assert a.pending[0].kind == a'.executing.value.kind;
      }
    }
  }

  lemma ThreadPokes(s: Sup, t: Step, budget: nat)
    requires Inv(s) && PokesOk(s) && IsThreadStep(t) && Enabled(s, t, budget) && budget <= NUM_STATES + 2
    ensures PokesOk(Apply(s, t, budget))
  {
    hide Slots, Analyzers, PigSlots, PcOk, CmdsOk, PokeOk, Allowance, Allowances, Count;
    var i := t.i;
    var s' := Apply(s, t, budget);
    var w := Waiting(s, i);
    ThreadPokeOk(s.privileges, i, s.pigs[i], w, t);
    WaitingAppend(s.ring, i);
    if t.Poke? {
      AllWithin(s);
      WithinAllowance(s.privileges, i, s.pigs[i], w);
      RoomForPoke(s, i);
    }
    PokesUpdate(s, s', i);
  }

  lemma PreppedPokes(s: Sup, i: nat)
    requires PokesOk(s) && i < |s.pigs| && s.pigs[i].analyzer.None? && !s.pigs[i].thread && Waiting(s, i) == 0
    requires forall k | 0 <= k < |s.ring| :: s.ring[k] < |s.pigs|
    requires !s.pc.Broadcasting?
    ensures PokesOk(Prepped(s, i))
  {
    hide Count, Allowances;
    AllWithin(s);
    RoomForPoke(s, i);
    WaitingAppend(s.ring, i);
    PokesUpdate(s, Prepped(s, i), i);
  }

  lemma QueuedPokeOk(pr: Privileges, i: nat, p: Pig, w: nat, c: Cmd)
    requires PokeOk(pr, i, p, w) && p.analyzer.Some? && p.thread
    requires c.kind == Start ==> p.analyzer.value.heard >= 2 || SweptBy(pr, i, Start)
    requires var a := p.analyzer.value;
             c.kind == Run ==> a.heard >= 3 || (a.heard >= 2 && SweptBy(pr, i, Start)) || SweptBy(pr, i, Run)
    ensures var a := p.analyzer.value;
            PokeOk(pr, i, p.(analyzer := Some(a.(pending := a.pending + [c]))), w)
  {
    var a := p.analyzer.value;
    var a' := a.(pending := a.pending + [c]);
    forall kind | Has(a', kind) && kind != c.kind ensures Has(a, kind) {
    }
  }

  lemma QueuedPokes(s: Sup, i: nat, c: Cmd)
    requires PokesOk(s) && i < |s.pigs| && SweepOk(s)
    requires s.pigs[i].analyzer.Some? ==>
               var a := s.pigs[i].analyzer.value;
               && (c.kind == Start ==> a.heard >= 2 || SweptBy(s.privileges, i, Start))
               && (c.kind == Run ==> a.heard >= 3 || (a.heard >= 2 && SweptBy(s.privileges, i, Start))
                                     || SweptBy(s.privileges, i, Run))
    ensures var s' := Queued(s, i, c).0;
            PokesOk(s') && |s'.pigs| == |s.pigs| && s'.pc == s.pc && s'.privileges == s.privileges
            && forall j | 0 <= j < |s.pigs| ::
                 && s'.pigs[j].analyzer.Some? == s.pigs[j].analyzer.Some?
                 && (s.pigs[j].analyzer.Some? ==> s'.pigs[j].analyzer.value.heard == s.pigs[j].analyzer.value.heard)
  {
    hide PokeOk, Count;
    var s' := Queued(s, i, c).0;
    if s.pigs[i].analyzer.Some? && s.pigs[i].thread {
      QueuedPokeOk(s.privileges, i, s.pigs[i], Waiting(s, i), c);
    }
    PokesUpdate(s, s', i);
  }

  lemma ReapedSame(s: Sup, c: Cmd)
    ensures var s' := Reaped(s, c);
            && s'.pigs == s.pigs && s'.ring == s.ring && s'.lost == s.lost && s'.privileges == s.privileges
                && s'.pc == s.pc
            && s'.pending == s.pending
  {
    hide Slots;
  }

  lemma PendingPopped(pr: Privileges, i: nat, p: Pig, w: nat)
    requires PokeOk(pr, i, p, w) && p.analyzer.Some? && p.analyzer.value.pending != []
    ensures var a := p.analyzer.value;
            PokeOk(pr, i, p.(analyzer := Some(a.(pending := a.pending[1..]))), w)
  {
    var a := p.analyzer.value;
    var a' := a.(pending := a.pending[1..]);
    forall kind | Has(a', kind) ensures Has(a, kind) {
    }
  }

  lemma StoppingPokes(s: Sup)
    requires PigsOk(s) && s.pc.Stopping? && PokesOk(s)
    ensures PokesOk(MainStep(s))
  {
    hide Slots, Analyzers, PigSlots, Reaped, Count, PigOk, PokeOk, Allowance;
    var i := s.pc.pig;
    var p := s.pigs[i];
    var a := p.analyzer.value;
    if a.completed != [] {
      var p' := p.(analyzer := Some(a.(completed := a.completed[1..])));
      ReapedSame(SetPig(s, i, p'), a.completed[0]);
      SamePokesOk(s.privileges, i, p, p', Waiting(s, i));
    } else if a.pending != [] {
      ReapedSame(SetPig(s, i, p.(analyzer := Some(a.(pending := a.pending[1..])))), a.pending[0]);
      PendingPopped(s.privileges, i, p, Waiting(s, i));
    } else {
      WithinAllowance(s.privileges, i, p, Waiting(s, i));
      GonePokeOk(s.privileges, i, p.(analyzer := None, thread := false), Waiting(s, i));
    }
    PokesUpdate(s, MainStep(s), i);
  }

  lemma GonePokeOk(pr: Privileges, i: nat, p: Pig, w: nat)
    requires p.analyzer.None? && w <= Allowance(pr, i)
    ensures PokeOk(pr, i, p, w)
  {
  }

  lemma ReapingPokes(s: Sup)
    requires s.pc.Reaping? && PokesOk(s)
    ensures PokesOk(MainStep(s))
  {
    hide Slots, Analyzers, PigSlots, Reaped, Count, PokesOk;
    var i := s.pc.next;
    if i < |s.pigs| && s.pigs[i].analyzer.Some? && s.pigs[i].analyzer.value.completed != [] {
      var a := s.pigs[i].analyzer.value;
      ReapedSame(SetPig(s.(pc := Reaping(if |a.completed| > 1 then i else i + 1)), i,
                        s.pigs[i].(analyzer := Some(a.(completed := a.completed[1..])))), a.completed[0]);
    }
    PokesFrame(s, MainStep(s));
  }

  lemma BroadcastPokes(s: Sup)
    requires s.pc.Broadcasting? && PokesOk(s)
    ensures PokesOk(MainStep(s))
  {
    hide Slots, Analyzers, PigSlots, Queued, Count, PokeOk;
    var Broadcasting(c, next, _, _) := s.pc;
    if next < |s.pigs| {
      QueuedPokes(s, next, c);
      PokesFrame(Queued(s, next, c).0, MainStep(s));
    } else {
      PokesFrame(s, MainStep(s));
    }
  }

  lemma MainStepPokes(s: Sup)
    requires Inv(s) && PokesOk(s)
    ensures PokesOk(MainStep(s))
  {
    hide Slots, Analyzers, PigSlots, CmdsOk, Queued, Reaped, PokesOk, PigOk;
    match s.pc
    case Broadcasting(_, _, _, _) => BroadcastPokes(s);
    case Stopping(_) => StoppingPokes(s);
    case Reaping(_) => ReapingPokes(s);
    case _ => PokesFrame(s, MainStep(s));
  }

  /** Once privileges are dropped every slot is allowed at least what it was before. */
  lemma DroppedPokeOk(pr: Privileges, i: nat, p: Pig, w: nat)
    requires PokeOk(Kept, i, p, w)
    ensures PokeOk(pr, i, p, w)
  {
  }

  lemma SweepStarts(s: Sup, i: nat, kind: Kind)
    requires PokesOk(s) && s.pc == Top && i < |s.pigs| && s.pigs[i].analyzer.Some? && s.privileges.Kept?
    requires kind == Start || kind == Run
    requires s.pigs[i].analyzer.value.heard >= if kind == Start then 2 else 3
    ensures PokesOk(StartBroadcast(s.(privileges := Dropped(i, kind)), kind, true))
  {
    hide PokeOk, Count;
    var s' := StartBroadcast(s.(privileges := Dropped(i, kind)), kind, true);
    forall j | 0 <= j < |s.pigs| ensures PokeOk(s'.privileges, j, s'.pigs[j], Waiting(s', j)) {
      DroppedPokeOk(s'.privileges, j, s.pigs[j], Waiting(s, j));
    }
  }

  lemma GatePokes(s: Sup, i: nat, waits: bool, kind: Kind)
    requires PokesOk(s) && s.pc == Top && i < |s.pigs| && s.pigs[i].analyzer.Some?
    requires kind == Start || kind == Run
    requires var a := s.pigs[i].analyzer.value;
             if kind == Start then a.heard >= 2 else a.heard >= 3 || (a.heard >= 2 && SweptBy(s.privileges, i, Start))
    ensures PokesOk(Gate(s, i, waits, kind))
  {
    hide Queued, PokeOk, Count, PokesOk, StartBroadcast;
    if waits && s.pending > 0 && s.privileges.Kept? {
      var s1 := if s.pigs[i].awaiting then s
                else SetPig(s, i, s.pigs[i].(awaiting := true)).(pending := s.pending - 1);
      PokesFrame(s, s1);
      if s1.pending == 0 {
        SweepStarts(s1, i, kind);
      }
    } else {
      var s1 := WithNew(s, kind);
      PokesFrame(s, s1);
      QueuedPokes(s1, i, Fresh(s, kind));
      PokesFrame(Queued(s1, i, Fresh(s, kind)).0, Gate(s, i, waits, kind));
    }
  }

  lemma HeardPokeOk(pr: Privileges, i: nat, p: Pig, w: nat)
    requires PokeOk(pr, i, p, w) && w > 0
    ensures p.analyzer.None? ==> PokeOk(pr, i, p, w - 1)
    ensures p.analyzer.Some? ==>
              var a := p.analyzer.value;
              var p' := p.(analyzer := Some(a.(heard := a.heard + 1)));
              && PokeOk(pr, i, p', w - 1) && PokeOk(pr, i, p'.(thread := true), w - 1)
              && (a.state == INITIALIZED ==> a.heard >= 1)
              && (a.state == STARTED ==> a.heard >= 2 || (a.heard >= 1 && SweptBy(pr, i, Start)))
  {
    if p.analyzer.Some? {
      var a := p.analyzer.value;
      var a' := a.(heard := a.heard + 1);
      assert forall kind :: Has(a', kind) == Has(a, kind);
    }
  }

  lemma HeardPokes(s: Sup)
    requires PokesOk(s) && s.pc == Top && s.ring != [] && s.ring[0] < |s.pigs|
    ensures PokesOk(Heard(s))
  {
    hide PokeOk, Count, Allowance;
    var i := s.ring[0];
    WaitingRead(s.ring);
    HeardPokeOk(s.privileges, i, s.pigs[i], Waiting(s, i));
    PokesUpdate(s, Heard(s), i);
  }

  lemma ReadPokePokes(s: Sup, budget: nat)
    requires PokesOk(s) && Enabled(s, ReadPoke, budget)
    ensures PokesOk(Apply(s, ReadPoke, budget))
  {
    hide Slots, Gate, PokeOk, Count, Allowance;
    var i := s.ring[0];
    var s1 := Heard(s);
    WaitingRead(s.ring);
    HeardPokes(s);
    HeardPokeOk(s.privileges, i, s.pigs[i], Waiting(s, i));
    var s' := Apply(s, ReadPoke, budget);
    if s.pigs[i].analyzer.None? {
      PokesFrame(s1, s');
    } else {
      var a := s.pigs[i].analyzer.value;
      match a.state
      case NEW => PokesUpdate(s1, s', i);
      case INITIALIZED => GatePokes(s1, i, a.privileged, Start);
      case STARTED => GatePokes(s1, i, !a.privileged, Run);
      case _ => PokesFrame(s1, s');
    }
  }

  /** Every step keeps the bound. */
  lemma StepPokes(s: Sup, t: Step, budget: nat)
    requires Inv(s) && PokesOk(s) && Enabled(s, t, budget) && budget <= NUM_STATES + 2
    ensures PokesOk(Apply(s, t, budget))
  {
    hide Slots, Analyzers, PigSlots, CmdsOk, MainStep, Prepped, Handled, PokesOk, Count;
    if IsThreadStep(t) {
      ThreadPokes(s, t, budget);
    } else {
      var s' := Apply(s, t, budget);
      match t
      case PrepNext =>
        if s.swine < |s.pigs| {
          assert PigOk(s, s.swine);
          PreppedEffect(s, s.swine);
          PreppedPokes(s, s.swine);
          PokesFrame(Prepped(s, s.swine), s');
        } else {
          PokesFrame(s, s');
        }
      case ReadPoke => ReadPokePokes(s, budget);
      case Prep =>
        LazyPigFinds(s.pigs);
        var i := LazyPig(s.pigs);
        assert PigOk(s, i);
        PreppedPokes(s, i);
        PokesFrame(Prepped(s, i), s');
      case Main => MainStepPokes(s);
      case _ => PokesFrame(s, s');
    }
  }

  /** No poke is lost in a run whose analyzers poke at most twice more than there are states. */
  lemma {:induction false} RingSuffices(run: seq<Sup>, steps: seq<Step>, budget: nat, k: nat)
    requires IsRun(run, steps, budget) && k < |run| && budget <= NUM_STATES + 2
    ensures PokesOk(run[k])
    decreases k
  {
    hide Inv, Apply, Enabled;
    if k > 0 {
      RunIsSafe(run, steps, budget, k - 1);
      RingSuffices(run, steps, budget, k - 1);
      StepPokes(run[k - 1], steps[k - 1], budget);
    }
  }

  // ----- one poke more per lifetime is too many -----

  ghost predicate Leads(run: seq<Sup>, steps: seq<Step>, budget: nat, n: nat) {
    run != [] && IsRun(run, steps, budget) && |run[0].pigs| == n
  }

  function Last(run: seq<Sup>): Sup
    requires run != []
  {
    run[|run| - 1]
  }

  lemma Extend(run: seq<Sup>, steps: seq<Step>, budget: nat, n: nat, t: Step)
    returns (run': seq<Sup>, steps': seq<Step>)
    requires Leads(run, steps, budget, n) && Enabled(Last(run), t, budget)
    ensures Leads(run', steps', budget, n) && Last(run') == Apply(Last(run), t, budget) && run'[0] == run[0]
  {
    hide Apply, Enabled, Initial;
    run' := run + [Apply(Last(run), t, budget)];
    steps' := steps + [t];
  }

  // ----- all analyzers are prepared, then their threads started -----

  predicate PreppedTo(s: Sup, n: nat, pending: nat, k: nat) {
    && |s.pigs| == n && k <= n && s.pc == Prepping && s.swine == k && !s.lost
    && s.pending == pending && s.privileges == Kept
    && |s.ring| == k && (forall j | 0 <= j < k :: s.ring[j] == j)
    && forall i | 0 <= i < n :: s.pigs[i] == Pig(if i < k then Some(NEWBORN) else None, false, false)
  }

  lemma {:induction false} PrepAll(n: nat, pending: nat, budget: nat, k: nat)
    returns (run: seq<Sup>, steps: seq<Step>)
    requires 1 <= n && k <= n && (pending == 0 || pending == n)
    ensures Leads(run, steps, budget, n) && run[0].pending == pending && PreppedTo(Last(run), n, pending, k)
    decreases k
  {
    if k == 0 {
      var s := Sup(seq(n, _ => Pig(None, false, false)), [], map[], [], 0, 0, pending, Kept, Prepping, false, false);
      run, steps := [s], [];
    } else {
      run, steps := PrepAll(n, pending, budget, k - 1);
      run, steps := Extend(run, steps, budget, n, PrepNext);
    }
  }

  const THREADED := Pig(Some(NEWBORN.(heard := 1)), true, false)

  predicate StartedTo(s: Sup, n: nat, pending: nat, k: nat) {
    && |s.pigs| == n && k <= n && s.pc == Top && !s.lost && s.pending == pending && s.privileges == Kept
    && |s.ring| == n - k && (forall j | 0 <= j < n - k :: s.ring[j] == k + j)
    && forall i | 0 <= i < n :: s.pigs[i] == if i < k then THREADED else Pig(Some(NEWBORN), false, false)
  }

  lemma {:induction false} StartAll(n: nat, pending: nat, budget: nat, k: nat)
    returns (run: seq<Sup>, steps: seq<Step>)
    requires 1 <= n && k <= n && (pending == 0 || pending == n)
    ensures Leads(run, steps, budget, n) && run[0].pending == pending && StartedTo(Last(run), n, pending, k)
    decreases k
  {
    if k == 0 {
      run, steps := PrepAll(n, pending, budget, n);
      run, steps := Extend(run, steps, budget, n, PrepNext);
    } else {
      run, steps := StartAll(n, pending, budget, k - 1);
      ghost var s := Last(run);
      assert s.ring[0] == k - 1;
      run, steps := Extend(run, steps, budget, n, ReadPoke);
      assert forall j | 0 <= j < n - k :: s.ring[1..][j] == s.ring[j + 1];
    }
  }

  // ----- each is brought up and told to run -----

  /** The commands each analyzer is given, and the state it is in after `d` of them. */
  const SCRIPT := [Run, Pause, Resume, Pause, Resume, Pause]

  function StateAfter(d: nat): AState {
    if d == 0 then STARTED else if d % 2 == 1 then RUNNING else PAUSED
  }

  /** An analyzer that has carried out `d` commands of the script and has those up to `b` before it. */
  predicate Armed(p: Pig, d: nat, b: nat) {
    && d <= b <= |SCRIPT| && p.thread && p.analyzer.Some?
    && var a := p.analyzer.value;
       && !a.poking && !a.done && a.executing.None? && a.state == StateAfter(d) && a.pokes == 3 + d
       && |a.pending| == b - d && forall k | 0 <= k < b - d :: a.pending[k].kind == SCRIPT[d + k]
  }

  /** Nothing but pig `i`, and the commands that exist, has changed. */
  predicate OnlyPig(s: Sup, s': Sup, i: nat) {
    && i < |s.pigs| == |s'.pigs| && s'.ring == s.ring && s'.pc == s.pc && s'.pending == s.pending
    && !s.lost && !s'.lost && s'.privileges == s.privileges
    && forall j | 0 <= j < |s.pigs| && j != i :: s'.pigs[j] == s.pigs[j]
  }

  predicate Awaits(p: Pig, kind: Kind) {
    && p.thread && !p.awaiting && p.analyzer.Some?
    && var a := p.analyzer.value;
       && !a.privileged && !a.poking && !a.done && a.executing.None? && a.state == INITIALIZED && a.pokes == 2
       && |a.pending| == 1 && a.pending[0].kind == kind
  }

  lemma Initialize(run0: seq<Sup>, steps0: seq<Step>, budget: nat, n: nat, i: nat)
    returns (run: seq<Sup>, steps: seq<Step>)
    requires Leads(run0, steps0, budget, n) && budget > 2
    requires var s := Last(run0);
             && i < |s.pigs| && s.pigs[i] == THREADED
             && s.ring == [] && s.pc == Top && !s.lost
    ensures Leads(run, steps, budget, n) && run[0] == run0[0]
    ensures OnlyPig(Last(run0), Last(run), i) && Awaits(Last(run).pigs[i], Start)
  {
    hide IsRun;
    run, steps := Extend(run0, steps0, budget, n, SetState(i, INITIALIZED, false));
    run, steps := Extend(run, steps, budget, n, Poke(i));
    assert Last(run).ring == [i];
    run, steps := Extend(run, steps, budget, n, ReadPoke);
  }

  predicate Starting(p: Pig) {
    && p.thread && !p.awaiting && p.analyzer.Some?
    && var a := p.analyzer.value;
       && !a.privileged && a.poking && !a.done && a.executing.Some? && a.acted && a.state == STARTED && a.pokes == 3
       && a.pending == []
  }

  lemma BeginStart(run0: seq<Sup>, steps0: seq<Step>, budget: nat, n: nat, i: nat)
    returns (run: seq<Sup>, steps: seq<Step>)
    requires Leads(run0, steps0, budget, n) && budget > 2
    requires i < |Last(run0).pigs| && Awaits(Last(run0).pigs[i], Start) && !Last(run0).lost
    ensures Leads(run, steps, budget, n) && run[0] == run0[0]
    ensures OnlyPig(Last(run0), Last(run), i) && Starting(Last(run).pigs[i])
  {
    hide IsRun;
    run, steps := Extend(run0, steps0, budget, n, Take(i));
    run, steps := Extend(run, steps, budget, n, SetState(i, STARTED, false));
  }

  /** It has been told to run while it finishes its start. */
  predicate Told(p: Pig) {
    && p.thread && p.analyzer.Some?
    && var a := p.analyzer.value;
       && !a.poking && !a.done && a.executing.Some? && a.acted && a.state == STARTED && a.pokes == 3
       && |a.pending| == 1 && a.pending[0].kind == Run
  }

  lemma Announce(run0: seq<Sup>, steps0: seq<Step>, budget: nat, n: nat, i: nat)
    returns (run: seq<Sup>, steps: seq<Step>)
    requires Leads(run0, steps0, budget, n)
    requires var s := Last(run0);
             && i < |s.pigs| && Starting(s.pigs[i])
             && s.ring == [] && s.pc == Top && s.pending == 0 && !s.lost
    ensures Leads(run, steps, budget, n)
    ensures OnlyPig(Last(run0), Last(run), i) && Told(Last(run).pigs[i])
  {
    hide IsRun;
    run, steps := Extend(run0, steps0, budget, n, Poke(i));
    assert Last(run).ring == [i];
    run, steps := Extend(run, steps, budget, n, ReadPoke);
  }

  lemma EndStart(run0: seq<Sup>, steps0: seq<Step>, budget: nat, n: nat, i: nat)
    returns (run: seq<Sup>, steps: seq<Step>)
    requires Leads(run0, steps0, budget, n) && i < |Last(run0).pigs| && Told(Last(run0).pigs[i]) && !Last(run0).lost
    ensures Leads(run, steps, budget, n)
    ensures OnlyPig(Last(run0), Last(run), i) && Armed(Last(run).pigs[i], 0, 1)
  {
    hide IsRun;
    run, steps := Extend(run0, steps0, budget, n, Finish(i));
  }

  predicate UpTo(s: Sup, n: nat, k: nat) {
    && |s.pigs| == n && k <= n && s.pc == Top && !s.lost && s.pending == 0 && s.ring == []
    && forall i | 0 <= i < n :: if i < k then Armed(s.pigs[i], 0, 1) else s.pigs[i] == THREADED
  }

  lemma {:induction false} BringUpAll(n: nat, budget: nat, k: nat) returns (run: seq<Sup>, steps: seq<Step>)
    requires 1 <= n && k <= n && budget > NUM_STATES + 2
    ensures Leads(run, steps, budget, n) && UpTo(Last(run), n, k)
    decreases k
  {
    hide IsRun, Armed, Awaits, Starting, Told;
    if k == 0 {
      run, steps := StartAll(n, 0, budget, n);
    } else {
      run, steps := BringUpAll(n, budget, k - 1);
      run, steps := Initialize(run, steps, budget, n, k - 1);
      run, steps := BeginStart(run, steps, budget, n, k - 1);
      run, steps := Announce(run, steps, budget, n, k - 1);
      run, steps := EndStart(run, steps, budget, n, k - 1);
    }
  }

  // ----- the rest of the script is broadcast -----

  predicate ArmedTo(s: Sup, n: nat, b: nat) {
    && |s.pigs| == n && s.pc == Idle && !s.lost && s.ring == []
    && forall i | 0 <= i < n :: Armed(s.pigs[i], 0, b)
  }

  predicate SentTo(s: Sup, n: nat, b: nat, x: nat) {
    && |s.pigs| == n && x <= n && !s.lost && s.ring == [] && b < |SCRIPT|
    && s.pc.Broadcasting? && s.pc.next == x && !s.pc.fromHandle && s.pc.cmd in s.refs && s.pc.cmd.kind == SCRIPT[b]
    && forall i | 0 <= i < n :: Armed(s.pigs[i], 0, if i < x then b + 1 else b)
  }

  lemma ArmedMore(p: Pig, d: nat, b: nat, c: Cmd)
    requires Armed(p, d, b) && b < |SCRIPT| && c.kind == SCRIPT[b]
    ensures Armed(p.(analyzer := Some(p.analyzer.value.(pending := p.analyzer.value.pending + [c]))), d, b + 1)
  {
  }

  lemma {:induction false} SendTo(run0: seq<Sup>, steps0: seq<Step>, budget: nat, n: nat, b: nat, x: nat)
    returns (run: seq<Sup>, steps: seq<Step>)
    requires Leads(run0, steps0, budget, n) && ArmedTo(Last(run0), n, b) && 1 <= b < |SCRIPT| && x <= n
    ensures Leads(run, steps, budget, n) && SentTo(Last(run), n, b, x)
    decreases x
  {
    hide IsRun;
    if x == 0 {
      assert SCRIPT[b] != Start && SCRIPT[b] != Run;
      run, steps := Extend(run0, steps0, budget, n, NewCommand(SCRIPT[b]));
      hide Armed;
    } else {
      run, steps := SendTo(run0, steps0, budget, n, b, x - 1);
      ghost var s := Last(run);
      ArmedMore(s.pigs[x - 1], 0, b, s.pc.cmd);
      run, steps := Extend(run, steps, budget, n, Main);
    }
  }

  lemma {:induction false} ArmAll(n: nat, budget: nat, b: nat) returns (run: seq<Sup>, steps: seq<Step>)
    requires 1 <= n && 1 <= b <= |SCRIPT| && budget > NUM_STATES + 2
    ensures Leads(run, steps, budget, n) && ArmedTo(Last(run), n, b)
    decreases b
  {
    hide IsRun, Armed;
    if b == 1 {
      run, steps := BringUpAll(n, budget, n);
      run, steps := Extend(run, steps, budget, n, ReadNothing);
    } else {
      run, steps := ArmAll(n, budget, b - 1);
      run, steps := SendTo(run, steps, budget, n, b - 1, n);
      run, steps := Extend(run, steps, budget, n, Main);
    }
  }

  // ----- all carry it out before the main thread reads on -----

  function Share(m: nat, i: nat): nat {
    if m < NUM_STATES * i then 0 else if m > NUM_STATES * i + NUM_STATES then NUM_STATES else m - NUM_STATES * i
  }

  /** `m` pokes wait: six from each of the first pigs, the rest from the next one. */
  predicate PumpedTo(s: Sup, n: nat, m: nat) {
    && |s.pigs| == n && !s.lost && |s.ring| == m
    && forall i | 0 <= i < n :: Armed(s.pigs[i], Share(m, i), |SCRIPT|)
  }

  /** A pig is carrying out its next command and has yet to poke. */
  predicate Acting(p: Pig, d: nat) {
    && d < |SCRIPT| && p.thread && p.analyzer.Some?
    && var a := p.analyzer.value;
       && a.poking && !a.done && a.executing.Some? && a.acted && a.state == StateAfter(d + 1) && a.pokes == 4 + d
       && |a.pending| == |SCRIPT| - d - 1
       && forall k | 0 <= k < |a.pending| :: a.pending[k].kind == SCRIPT[d + 1 + k]
  }

  lemma Act(run0: seq<Sup>, steps0: seq<Step>, budget: nat, n: nat, i: nat, d: nat)
    returns (run: seq<Sup>, steps: seq<Step>)
    requires Leads(run0, steps0, budget, n) && budget > NUM_STATES + 2 && d < |SCRIPT|
    requires i < |Last(run0).pigs| && Armed(Last(run0).pigs[i], d, |SCRIPT|) && !Last(run0).lost
    ensures Leads(run, steps, budget, n)
    ensures OnlyPig(Last(run0), Last(run), i) && Acting(Last(run).pigs[i], d)
  {
    hide IsRun;
    run, steps := Extend(run0, steps0, budget, n, Take(i));
    run, steps := Extend(run, steps, budget, n, SetState(i, StateAfter(d + 1), false));
  }

  /** Its poke goes into the ring or is lost. */
  lemma CarryOut(run0: seq<Sup>, steps0: seq<Step>, budget: nat, n: nat, i: nat, d: nat)
    returns (run: seq<Sup>, steps: seq<Step>)
    requires Leads(run0, steps0, budget, n) && i < |Last(run0).pigs| && Acting(Last(run0).pigs[i], d)
    ensures Leads(run, steps, budget, n)
    ensures var s, s' := Last(run0), Last(run);
            && |s'.pigs| == |s.pigs| && Armed(s'.pigs[i], d + 1, |SCRIPT|)
            && (forall j | 0 <= j < |s.pigs| && j != i :: s'.pigs[j] == s.pigs[j])
            && if |s.ring| < Capacity(s) then s'.ring == s.ring + [i] && s'.lost == s.lost else s'.lost
  {
    hide IsRun;
    run, steps := Extend(run0, steps0, budget, n, Poke(i));
    run, steps := Extend(run, steps, budget, n, Finish(i));
  }

  lemma PumpOne(run0: seq<Sup>, steps0: seq<Step>, n: nat, budget: nat, m: nat)
    returns (run: seq<Sup>, steps: seq<Step>)
    requires m <= NUM_STATES * n - 1 && budget > NUM_STATES + 2
    requires Leads(run0, steps0, budget, n) && PumpedTo(Last(run0), n, m)
    ensures Leads(run, steps, budget, n)
    ensures if m < NUM_STATES * n - 1 then PumpedTo(Last(run), n, m + 1) else Last(run).lost
  {
    hide IsRun, Armed, Acting;
    var i := m / NUM_STATES;
    assert Share(m, i) == m - NUM_STATES * i < NUM_STATES;
    run, steps := Act(run0, steps0, budget, n, i, Share(m, i));
    run, steps := CarryOut(run, steps, budget, n, i, Share(m, i));
    forall j | 0 <= j < n && j != i ensures Share(m + 1, j) == Share(m, j) {
    }
  }

  lemma {:induction false} PumpAll(n: nat, budget: nat, m: nat) returns (run: seq<Sup>, steps: seq<Step>)
    requires 1 <= n && m <= NUM_STATES * n - 1 && budget > NUM_STATES + 2
    ensures Leads(run, steps, budget, n) && PumpedTo(Last(run), n, m)
    decreases m
  {
    hide IsRun, Armed;
    if m == 0 {
      run, steps := ArmAll(n, budget, |SCRIPT|);
    } else {
      run, steps := PumpAll(n, budget, m - 1);
      run, steps := PumpOne(run, steps, n, budget, m - 1);
    }
  }

  /** No run loses a poke exactly when a lifetime pokes at most twice more than there are states.
      With one poke more, a burst of pauses and resumes carried out while the main thread is away
      overflows the ring. */
  lemma RingSufficesExactly(n: nat, budget: nat)
    requires n >= 1
    ensures (forall run: seq<Sup>, steps: seq<Step>, k: nat | Leads(run, steps, budget, n) && k < |run| :: !run[k].lost)
       <==> budget <= NUM_STATES + 2
  {
    if budget <= NUM_STATES + 2 {
      forall run: seq<Sup>, steps: seq<Step>, k: nat | Leads(run, steps, budget, n) && k < |run| ensures !run[k].lost {
        RingSuffices(run, steps, budget, k);
      }
    } else {
      var run, steps := PumpAll(n, budget, NUM_STATES * n - 1);
      run, steps := PumpOne(run, steps, n, budget, NUM_STATES * n - 1);
      var k: nat := |run| - 1;
      assert Leads(run, steps, budget, n) && k < |run| && run[k].lost;
    }
  }
}
