/**
  The packet-thread supervisor: the main thread and its analyzer threads as a step
  system.  Every loop iteration of the main thread that touches shared data is a step
  of its own, and analyzer threads may move between any two of them.
 */
module Supervisor {
  import opened Options
  import PokeRing

  datatype AState = NEW | INITIALIZED | STARTED | RUNNING | PAUSED | STOPPED

  const NUM_STATES: nat := 6

  /** What a command asks of an analyzer; `Other` leaves its state alone. */
  datatype Kind = Start | Run | Pause | Resume | Other

  /** Commands are compared by their address, which `id` stands for. */
  datatype Cmd = Cmd(id: nat, kind: Kind)

  /** `poking`: the state has been set and the poke for it is still to come.  `pokes` and `heard`:
      the pokes asked for in this lifetime, and those of them the main thread has read.
      `acted`: the command that is executing has set the state.  `done`: the thread function has returned. */
  datatype Analyzer = Analyzer(
    state: AState, privileged: bool, poking: bool, pokes: nat, heard: nat, done: bool,
    pending: seq<Cmd>, executing: Option<Cmd>, acted: bool, completed: seq<Cmd>)

  datatype Pig = Pig(analyzer: Option<Analyzer>, thread: bool, awaiting: bool)

  /** Whether privileges have been dropped, and if so at whose poke and with which broadcast. */
  datatype Privileges = Kept | Dropped(who: nat, sending: Kind)

  /** Where the main thread is. */
  datatype Pc =
    | Prepping
    | Top
    | Idle
    | Broadcasting(cmd: Cmd, next: nat, dispatched: nat, fromHandle: bool)
    | Stopping(pig: nat)
    | Reaping(next: nat)
    | DroppingOrphans
    | Exited

  /** `refs` holds the commands that exist, with their reference counts; `nextCmd` numbers the next one.
      `lost` and `fault` record a poke that found the ring full and a failed assertion or a
      command deleted while queued or twice. */
  datatype Sup = Sup(
    pigs: seq<Pig>, ring: seq<nat>, refs: map<Cmd, nat>, orphans: seq<Cmd>, nextCmd: nat,
    swine: nat, pending: nat, privileges: Privileges, pc: Pc, lost: bool, fault: bool)

  datatype Step =
    | PrepNext
    | ReadPoke
    | ReadNothing
    | Prep
    | NewCommand(kind: Kind)
    | StartReap
    | Skip
    | Main
    | Leave
    | SetState(i: nat, state: AState, privileged: bool)
    | Poke(i: nat)
    | Take(i: nat)
    | Finish(i: nat)
    | Return(i: nat)

  // ---------------------------------------------------------------------
  // Shared data
  // ---------------------------------------------------------------------

  /** The values a ring of the size chosen by `snort_main` holds. */
  function Capacity(s: Sup): int {
    PokeRing.Capacity(|s.pigs| * NUM_STATES + 1)
  }

  function Poked(s: Sup, i: nat): Sup {
    if |s.ring| < Capacity(s) then s.(ring := s.ring + [i]) else s.(lost := true)
  }

  function SetPig(s: Sup, i: nat, p: Pig): Sup
    requires i < |s.pigs|
  {
    s.(pigs := s.pigs[i := p])
  }

  function PigSlots(p: Pig): multiset<Cmd> {
    if p.analyzer.None? then multiset{}
    else
      var a := p.analyzer.value;
      multiset(a.pending) + (if a.executing.Some? then multiset{a.executing.value} else multiset{})
          + multiset(a.completed)
  }

  /** All queue slots of all analyzers. */
  function Slots(pigs: seq<Pig>): multiset<Cmd> {
    if pigs == [] then multiset{} else PigSlots(pigs[0]) + Slots(pigs[1..])
  }

  /** The number of pigs with an analyzer. */
  function Analyzers(pigs: seq<Pig>): nat {
    if pigs == [] then 0 else (if pigs[0].analyzer.Some? then 1 else 0) + Analyzers(pigs[1..])
  }

  // ---------------------------------------------------------------------
  // The main thread
  // ---------------------------------------------------------------------

  const NEWBORN := Analyzer(NEW, false, false, 1, 0, false, [], None, false, [])

  /** `new Analyzer`: it starts in state NEW and pokes for it. */
  function Prepped(s: Sup, i: nat): Sup
    requires i < |s.pigs|
  {
    Poked(SetPig(s, i, s.pigs[i].(analyzer := Some(NEWBORN))), i)
  }

  /** `get_lazy_pig`: the first slot without an analyzer, or the number of slots. */
  function LazyPig(pigs: seq<Pig>): (i: nat)
    ensures i <= |pigs|
    ensures i < |pigs| ==> pigs[i].analyzer.None?
    ensures forall j | 0 <= j < i :: pigs[j].analyzer.Some?
  {
    if pigs == [] || pigs[0].analyzer.None? then 0 else 1 + LazyPig(pigs[1..])
  }

  /** `queue_command` for a command that exists; whether it was dispatched. */
  function Queued(s: Sup, i: nat, c: Cmd): (Sup, bool)
    requires i < |s.pigs|
  {
    var p := s.pigs[i];
    if p.analyzer.None? || !p.thread then (s, false)
    else if c !in s.refs then (s.(fault := true), true)
    else
      var a := p.analyzer.value;
      (SetPig(s, i, p.(analyzer := Some(a.(pending := a.pending + [c])))).(refs := s.refs[c := s.refs[c] + 1]), true)
  }

  /** `delete` of a command. */
  function Deleted(s: Sup, c: Cmd): Sup {
    s.(refs := s.refs - {c}, fault := s.fault || c !in s.refs || c in Slots(s.pigs) || c in s.orphans)
  }

  /** `reap_command`: gives up one reference, and deletes the command with the last one. */
  function Reaped(s: Sup, c: Cmd): Sup {
    if c !in s.refs || s.refs[c] == 0 then s.(fault := true)
    else
      var s1 := s.(refs := s.refs[c := s.refs[c] - 1]);
      if s1.refs[c] == 0 then Deleted(s1, c) else s1
  }

  /** The command created next. */
  function Fresh(s: Sup, kind: Kind): Cmd {
    Cmd(s.nextCmd, kind)
  }

  function WithNew(s: Sup, kind: Kind): Sup {
    s.(refs := s.refs[Fresh(s, kind) := 0], nextCmd := s.nextCmd + 1)
  }

  function StartBroadcast(s: Sup, kind: Kind, fromHandle: bool): Sup {
    WithNew(s, kind).(pc := Broadcasting(Fresh(s, kind), 0, 0, fromHandle))
  }

  /** Waiting for all pigs before privileges are dropped, or commanding this pig alone. */
  function Gate(s: Sup, i: nat, waits: bool, kind: Kind): Sup
    requires i < |s.pigs|
  {
    if waits && s.pending > 0 && s.privileges.Kept? then
      var s1 := if s.pigs[i].awaiting then s
                else SetPig(s, i, s.pigs[i].(awaiting := true)).(pending := s.pending - 1);
      if s1.pending > 0 then s1 else StartBroadcast(s1.(privileges := Dropped(i, kind)), kind, true)
    else
      var (s1, dispatched) := Queued(WithNew(s, kind), i, Fresh(s, kind));
      if dispatched then s1 else s1.(orphans := s1.orphans + [Fresh(s, kind)])
  }

  function Handled(s: Sup, i: nat): Sup
    requires i < |s.pigs| && s.pigs[i].analyzer.Some?
  {
    var a := s.pigs[i].analyzer.value;
    match a.state
    case NEW => SetPig(s, i, s.pigs[i].(thread := true)).(fault := s.fault || s.pigs[i].thread)
    case INITIALIZED => Gate(s, i, a.privileged, Start)
    case STARTED => Gate(s, i, !a.privileged, Run)
    case STOPPED => s.(pc := Stopping(i), fault := s.fault || !s.pigs[i].thread)
    case _ => s
  }

  /** One iteration of the loop the main thread is in.  When a pig stops, its thread has been joined, so
      reaping the front of a queue and popping it are one step, in either order. */
  function MainStep(s: Sup): Sup {
    match s.pc
    case Broadcasting(c, next, dispatched, fromHandle) =>
      if next < |s.pigs| then
        var (s1, ok) := Queued(s, next, c);
        s1.(pc := Broadcasting(c, next + 1, if ok then dispatched + 1 else dispatched, fromHandle))
      else
        var s1 := if dispatched == 0 then s.(orphans := s.orphans + [c]) else s;
        s1.(pc := if fromHandle then Top else Idle)
    case Stopping(i) =>
      if i >= |s.pigs| || s.pigs[i].analyzer.None? then s.(fault := true)
      else
        var a := s.pigs[i].analyzer.value;
        if a.completed != [] then
          Reaped(SetPig(s, i, s.pigs[i].(analyzer := Some(a.(completed := a.completed[1..])))), a.completed[0])
        else if a.pending != [] then
          Reaped(SetPig(s, i, s.pigs[i].(analyzer := Some(a.(pending := a.pending[1..])))), a.pending[0])
        else
          var s1 := SetPig(s, i, s.pigs[i].(analyzer := None, thread := false));
          if s.swine == 0 then s1.(fault := true) else s1.(swine := s.swine - 1, pc := Top)
    case Reaping(next) =>
      if next >= |s.pigs| then s.(pc := DroppingOrphans)
      else if s.pigs[next].analyzer.None? then s.(pc := Reaping(next + 1))
      else
        var a := s.pigs[next].analyzer.value;
        var n := |a.completed|;
        var s1 := s.(pc := Reaping(if n > 1 then next else next + 1));
        if n == 0 then s1
        else Reaped(SetPig(s1, next, s.pigs[next].(analyzer := Some(a.(completed := a.completed[1..])))),
            a.completed[0])
    case DroppingOrphans =>
      if s.orphans == [] then s.(pc := Top)
      else Deleted(s.(orphans := s.orphans[1..]), s.orphans[0])
    case _ => s
  }

  // ---------------------------------------------------------------------
  // Steps
  // ---------------------------------------------------------------------

  function Thread(s: Sup, i: nat): Option<Analyzer> {
    if i < |s.pigs| && s.pigs[i].thread && s.pigs[i].analyzer.Some? && !s.pigs[i].analyzer.value.done
    then s.pigs[i].analyzer else None
  }

  /** The state changes a command makes: `start` asserts INITIALIZED and `run` asserts STARTED, while
      `pause` and `resume` do nothing in a wrong state. */
  predicate Grants(kind: Kind, from: AState, to: AState) {
    match kind
    case Start => from == INITIALIZED && to == STARTED
    case Run => from == STARTED && (to == RUNNING || to == PAUSED)
    case Pause => from == RUNNING && to == PAUSED
    case Resume => from == PAUSED && to == RUNNING
    case Other => false
  }

  /** Whether a command is over without a change of state. */
  predicate Passes(kind: Kind, state: AState) {
    match kind
    case Start => false
    case Run => false
    case Pause => state != RUNNING
    case Resume => state != PAUSED
    case Other => true
  }

  /** The state changes an analyzer makes next.  Outside commands it initializes, pauses itself while
      running, and stops. */
  predicate MaySet(a: Analyzer, to: AState) {
    if a.executing.Some? then !a.acted && Grants(a.executing.value.kind, a.state, to)
    else match to
      case INITIALIZED => a.state == NEW
      case PAUSED => a.state == RUNNING
      case STOPPED => a.state != STOPPED
      case _ => false
  }

  /** When a step can be taken.  A lifetime of an analyzer asks for at most `budget` pokes. */
  predicate Enabled(s: Sup, t: Step, budget: nat) {
    match t
    case PrepNext => s.pc == Prepping
    case ReadPoke => s.pc == Top && s.ring != [] && s.ring[0] < |s.pigs|
    case ReadNothing => s.pc == Top && s.ring == []
    case Prep => s.pc == Idle && s.swine < |s.pigs|
    case NewCommand(kind) => s.pc == Idle && kind != Start && kind != Run
    case StartReap => s.pc == Idle
    case Skip => s.pc == Idle
    case Main =>
      s.pc.Broadcasting? || s.pc.Reaping? || s.pc.DroppingOrphans?
      // `join` waits for the thread function to return
      || (s.pc.Stopping? &&
          (s.pc.pig < |s.pigs| && s.pigs[s.pc.pig].analyzer.Some? ==> s.pigs[s.pc.pig].analyzer.value.done))
    case Leave => s.pc == Top && s.swine == 0
    case SetState(i, st, _) =>
      && Thread(s, i).Some? && !Thread(s, i).value.poking
      && MaySet(Thread(s, i).value, st)
      && Thread(s, i).value.pokes < budget
    case Poke(i) => Thread(s, i).Some? && Thread(s, i).value.poking
    case Take(i) =>
      && Thread(s, i).Some? && !Thread(s, i).value.poking
      && Thread(s, i).value.state != NEW && Thread(s, i).value.state != STOPPED
      && Thread(s, i).value.executing.None? && Thread(s, i).value.pending != []
    case Finish(i) =>
      && Thread(s, i).Some? && !Thread(s, i).value.poking && Thread(s, i).value.executing.Some?
      && (Thread(s, i).value.acted || Passes(Thread(s, i).value.executing.value.kind, Thread(s, i).value.state))
    case Return(i) => Thread(s, i).Some? && !Thread(s, i).value.poking && Thread(s, i).value.state == STOPPED
  }

  function SetThread(s: Sup, i: nat, a: Analyzer): Sup
    requires i < |s.pigs|
  {
    SetPig(s, i, s.pigs[i].(analyzer := Some(a)))
  }

  predicate IsThreadStep(t: Step) {
    t.SetState? || t.Poke? || t.Take? || t.Finish? || t.Return?
  }

  /** The analyzer after one of its own steps. */
  function AfterThread(a: Analyzer, t: Step): Analyzer
    requires IsThreadStep(t)
    requires t.Take? ==> a.pending != []
    requires t.Finish? ==> a.executing.Some?
  {
    match t
    case SetState(_, st, privileged) =>
      a.(state := st, privileged := if st == INITIALIZED then privileged else a.privileged,
         poking := true, pokes := a.pokes + 1, acted := a.executing.Some?)
    case Poke(_) => a.(poking := false)
    case Take(_) => a.(pending := a.pending[1..], executing := Some(a.pending[0]), acted := false)
    case Finish(_) => a.(executing := None, acted := false, completed := a.completed + [a.executing.value])
    case Return(_) => a.(done := true)
  }

  /** The main thread has read the first poke of the ring. */
  function Heard(s: Sup): Sup
    requires s.ring != [] && s.ring[0] < |s.pigs|
  {
    var i := s.ring[0];
    var s1 := s.(ring := s.ring[1..]);
    if s.pigs[i].analyzer.Some? then
      var a := s.pigs[i].analyzer.value;
      SetThread(s1, i, a.(heard := a.heard + 1))
    else s1
  }

  function Apply(s: Sup, t: Step, budget: nat): Sup
    requires Enabled(s, t, budget)
  {
    match t
    case PrepNext =>
      if s.swine < |s.pigs| then Prepped(s, s.swine).(swine := s.swine + 1) else s.(pc := Top)
    case ReadPoke =>
      if s.pigs[s.ring[0]].analyzer.Some? then Handled(Heard(s), s.ring[0])
      else Heard(s).(pending := if s.pending > 0 then s.pending - 1 else 0)
    case ReadNothing => s.(pc := Idle)
    case Prep =>
      var i := LazyPig(s.pigs);
      if i == |s.pigs| then s.(fault := true) else Prepped(s, i).(swine := s.swine + 1, pc := Top)
    case NewCommand(kind) => StartBroadcast(s, kind, false)
    case StartReap => s.(pc := Reaping(0))
    case Skip => s.(pc := Top)
    case Main => MainStep(s)
    case Leave => s.(pc := Exited)
    case Poke(i) => Poked(SetThread(s, i, AfterThread(Thread(s, i).value, t)), i)
    case _ => SetThread(s, t.i, AfterThread(Thread(s, t.i).value, t))
  }

  predicate Initial(s: Sup) {
    && s.pigs != []
    && (forall i | 0 <= i < |s.pigs| :: s.pigs[i] == Pig(None, false, false))
    && s.ring == [] && s.refs == map[] && s.orphans == [] && s.swine == 0
    && s.privileges == Kept && (s.pending == 0 || s.pending == |s.pigs|)
    && !s.lost && !s.fault && (s.pc == Prepping || s.pc == Top)
  }

  /** A run: its states, from an initial one, each reached from the one before by some step. */
  ghost predicate IsRun(run: seq<Sup>, steps: seq<Step>, budget: nat) {
    && |run| == |steps| + 1
    && Initial(run[0])
    && forall k | 0 <= k < |steps| :: Enabled(run[k], steps[k], budget) && run[k + 1] == Apply(run[k], steps[k], budget)
  }

  // ---------------------------------------------------------------------
  // Invariants
  // ---------------------------------------------------------------------

  function Count(ring: seq<nat>, i: nat): nat {
    multiset(ring)[i]
  }

  /** The pokes of pig `i` that wait in the ring. */
  function Waiting(s: Sup, i: nat): nat {
    Count(s.ring, i)
  }

  /** A pig has a thread only with an analyzer; the thread is started by the first poke, and
      nothing is queued before that. */
  predicate PigOk(s: Sup, i: nat)
    requires i < |s.pigs|
  {
    var p := s.pigs[i];
    if p.analyzer.None? then !p.thread
    else
      var a := p.analyzer.value;
      && (a.state != NEW ==> p.thread)
      && (a.state == NEW ==> !a.poking && Waiting(s, i) <= if p.thread then 0 else 1)
      && (!p.thread ==> PigSlots(p) == multiset{})
      && (a.done ==> a.state == STOPPED && !a.poking)
      && (a.state == STOPPED ==> a.executing.None?)
  }

  /** Between an empty read of the ring and the next one, slots without an analyzer have no poke. */
  predicate RingWasEmpty(s: Sup) {
    forall i | 0 <= i < |s.pigs| && s.pigs[i].analyzer.None? :: Waiting(s, i) == 0
  }

  predicate PcOk(s: Sup) {
    match s.pc
    case Prepping =>
      && s.swine <= |s.pigs| && RingWasEmpty(s)
      && forall i | 0 <= i < |s.pigs| :: s.pigs[i].analyzer.Some? <==> i < s.swine
    case Idle => RingWasEmpty(s)
    case Broadcasting(_, next, _, fromHandle) => next <= |s.pigs| && (!fromHandle ==> RingWasEmpty(s))
    case Stopping(i) =>
      i < |s.pigs| && s.pigs[i].analyzer.Some? && s.pigs[i].analyzer.value.state == STOPPED && s.pigs[i].thread
    case Reaping(next) => next <= |s.pigs|
    case Exited => s.swine == 0
    case _ => true
  }

  predicate PigsOk(s: Sup) {
    && (forall i | 0 <= i < |s.pigs| :: PigOk(s, i))
    && (forall k | 0 <= k < |s.ring| :: s.ring[k] < |s.pigs|)
    && s.swine == Analyzers(s.pigs)
    && PcOk(s)
  }

  predicate InHand(s: Sup, c: Cmd) {
    s.pc.Broadcasting? && s.pc.cmd == c
  }

  /** An existing command is in the orphan queue with no reference, or is referenced exactly once
      for every queue slot that holds it. */
  predicate CmdOk(s: Sup, c: Cmd)
    requires c in s.refs
  {
    && c.id < s.nextCmd
    && s.refs[c] == Slots(s.pigs)[c]
    && if InHand(s, c) then c !in s.orphans && s.refs[c] == s.pc.dispatched
       else c in s.orphans <==> s.refs[c] == 0
  }

  predicate CmdsOk(s: Sup) {
    && (forall c | c in s.refs :: CmdOk(s, c))
    && (forall c | c in Slots(s.pigs) :: c in s.refs)
    && (forall c | c in s.orphans :: c in s.refs)
    && (forall j, k | 0 <= j < k < |s.orphans| :: s.orphans[j] != s.orphans[k])
    && (s.pc.Broadcasting? ==> s.pc.cmd in s.refs)
  }

  predicate Inv(s: Sup) {
    !s.fault && PigsOk(s) && CmdsOk(s)
  }

  // ----- counting over the pigs -----

  lemma {:induction false} SlotsUpdate(pigs: seq<Pig>, i: nat, p: Pig)
    requires i < |pigs|
    ensures Slots(pigs[i := p]) + PigSlots(pigs[i]) == Slots(pigs) + PigSlots(p)
    ensures PigSlots(pigs[i]) <= Slots(pigs)
    decreases pigs
  {
    hide PigSlots;
    if i == 0 {
      assert pigs[i := p][1..] == pigs[1..];
    } else {
      assert pigs[i := p][1..] == pigs[1..][i - 1 := p];
      SlotsUpdate(pigs[1..], i - 1, p);
      var a, x, y := PigSlots(pigs[0]), Slots(pigs[1..]), Slots(pigs[1..][i - 1 := p]);
      assert (a + y) + PigSlots(pigs[i]) == a + (y + PigSlots(pigs[i]))
          == a + (x + PigSlots(p)) == (a + x) + PigSlots(p);
    }
  }

  lemma {:induction false} AnalyzersUpdate(pigs: seq<Pig>, i: nat, p: Pig)
    requires i < |pigs|
    ensures Analyzers(pigs[i := p]) + (if pigs[i].analyzer.Some? then 1 else 0)
         == Analyzers(pigs) + (if p.analyzer.Some? then 1 else 0)
    decreases pigs
  {
    if i == 0 {
      assert pigs[i := p][1..] == pigs[1..];
    } else {
      assert pigs[i := p][1..] == pigs[1..][i - 1 := p];
      AnalyzersUpdate(pigs[1..], i - 1, p);
    }
  }

  lemma {:induction false} AnalyzersBounds(pigs: seq<Pig>)
    ensures Analyzers(pigs) <= |pigs|
    ensures Analyzers(pigs) == |pigs| <==> forall i | 0 <= i < |pigs| :: pigs[i].analyzer.Some?
    ensures Analyzers(pigs) == 0 <==> forall i | 0 <= i < |pigs| :: pigs[i].analyzer.None?
    decreases pigs
  {
    if pigs != [] {
      AnalyzersBounds(pigs[1..]);
      assert forall i | 1 <= i < |pigs| :: pigs[i] == pigs[1..][i - 1];
      assert forall i | 0 <= i < |pigs| - 1 :: pigs[1..][i] == pigs[i + 1];
    }
  }

  lemma {:induction false} NoSlots(pigs: seq<Pig>)
    requires forall i | 0 <= i < |pigs| :: pigs[i].analyzer.None?
    ensures Slots(pigs) == multiset{}
    decreases pigs
  {
    if pigs != [] {
      NoSlots(pigs[1..]);
    }
  }

  // ----- initial states -----

  lemma InitialOk(s: Sup)
    requires Initial(s)
    ensures Inv(s)
  {
    NoSlots(s.pigs);
    AnalyzersBounds(s.pigs);
  }

  // ----- framing -----

  lemma CmdsFrame(s: Sup, s': Sup)
    requires CmdsOk(s)
    requires s'.refs == s.refs && s'.orphans == s.orphans && s'.nextCmd == s.nextCmd
    requires Slots(s'.pigs) == Slots(s.pigs)
    requires s'.pc == s.pc || (!s.pc.Broadcasting? && !s'.pc.Broadcasting?)
    ensures CmdsOk(s')
  {
    hide Slots;
    forall c | c in s'.refs ensures CmdOk(s', c) {
      assert CmdOk(s, c);
    }
  }

  lemma PigsFrame(s: Sup, s': Sup, i: nat)
    requires PigsOk(s) && i < |s.pigs| && |s'.pigs| == |s.pigs|
    requires forall j | 0 <= j < |s.pigs| && j != i :: s'.pigs[j] == s.pigs[j] && Waiting(s', j) <= Waiting(s, j)
    requires PigOk(s', i)
    requires forall k | 0 <= k < |s'.ring| :: s'.ring[k] < |s.pigs|
    ensures forall j | 0 <= j < |s.pigs| :: PigOk(s', j)
  {
    hide PigSlots, Analyzers;
    forall j | 0 <= j < |s.pigs| ensures PigOk(s', j) {
      assert PigOk(s, j);
    }
  }

  lemma WaitingAppend(ring: seq<nat>, i: nat)
    ensures forall j: nat :: Count(ring + [i], j) == Count(ring, j) + if j == i then 1 else 0
  {
  }

  lemma WaitingRead(ring: seq<nat>)
    requires ring != []
    ensures forall j: nat :: Count(ring[1..], j) == Count(ring, j) - if j == ring[0] then 1 else 0
    ensures Count(ring, ring[0]) >= 1
    ensures forall k | 0 <= k < |ring| - 1 :: ring[1..][k] == ring[k + 1]
  {
    assert ring == [ring[0]] + ring[1..];
  }

  // ----- analyzer threads -----

  lemma ThreadSlots(s: Sup, i: nat, a: Analyzer)
    requires i < |s.pigs| && s.pigs[i].analyzer.Some?
    requires PigSlots(s.pigs[i].(analyzer := Some(a))) == PigSlots(s.pigs[i])
    ensures var s' := SetThread(s, i, a);
            && Slots(s'.pigs) == Slots(s.pigs) && Analyzers(s'.pigs) == Analyzers(s.pigs)
  {
    hide PigSlots;
    var p := s.pigs[i].(analyzer := Some(a));
    SlotsUpdate(s.pigs, i, p);
    Cancel(Slots(s.pigs[i := p]), Slots(s.pigs), PigSlots(p));
    AnalyzersUpdate(s.pigs, i, p);
  }

  lemma Cancel(a: multiset<Cmd>, b: multiset<Cmd>, m: multiset<Cmd>)
    requires a + m == b + m
    ensures a == b
  {
    forall x ensures a[x] == b[x] {
      assert (a + m)[x] == (b + m)[x];
    }
  }

  lemma ThreadKeepsSlots(p: Pig, t: Step)
    requires IsThreadStep(t) && p.analyzer.Some?
    requires t.Take? ==> p.analyzer.value.pending != [] && p.analyzer.value.executing.None?
    requires t.Finish? ==> p.analyzer.value.executing.Some?
    ensures PigSlots(p.(analyzer := Some(AfterThread(p.analyzer.value, t)))) == PigSlots(p)
  {
    var a := p.analyzer.value;
    if t.Take? {
      assert a.pending == [a.pending[0]] + a.pending[1..];
    }
  }

  /** The effect of an analyzer's own step on the whole state. */
  lemma ThreadEffect(s: Sup, t: Step, budget: nat)
    requires IsThreadStep(t) && Enabled(s, t, budget)
    ensures t.i < |s.pigs| && s.pigs[t.i].analyzer.Some? && s.pigs[t.i].thread
    ensures t.Take? ==> s.pigs[t.i].analyzer.value.pending != [] && s.pigs[t.i].analyzer.value.executing.None?
    ensures t.Finish? ==> s.pigs[t.i].analyzer.value.executing.Some?
    ensures var a := s.pigs[t.i].analyzer.value;
            var s' := Apply(s, t, budget);
            && s'.(ring := s.ring, lost := s.lost) == SetThread(s, t.i, AfterThread(a, t))
            && (s'.ring == s.ring || (t.Poke? && s'.ring == s.ring + [t.i]))
            && (t.SetState? ==> a.state != STOPPED && t.state != NEW && (t.state == STOPPED ==> a.executing.None?))
            && (t.Poke? ==> a.poking)
            && (t.Take? ==> a.state != STOPPED)
            && (t.Return? ==> a.state == STOPPED && !a.poking)
            && !a.done
  {
  }

  lemma ThreadPigOk(s: Sup, t: Step, budget: nat)
    requires PigsOk(s) && IsThreadStep(t) && Enabled(s, t, budget)
    ensures PigOk(Apply(s, t, budget), t.i)
  {
    hide Analyzers, PigSlots, Apply, Enabled, PcOk, Thread;
    ThreadEffect(s, t, budget);
    assert PigOk(s, t.i);
    var p := s.pigs[t.i];
    WaitingAppend(s.ring, t.i);
    ThreadKeepsSlots(p, t);
    assert Apply(s, t, budget).pigs[t.i] == p.(analyzer := Some(AfterThread(p.analyzer.value, t)));
  }

  lemma ThreadStepOk(s: Sup, t: Step, budget: nat)
    requires Inv(s) && IsThreadStep(t) && Enabled(s, t, budget)
    ensures Inv(Apply(s, t, budget))
  {
    hide Slots, Analyzers, PigSlots, PigOk, PigsOk, CmdsOk, PcOk, Apply, Enabled, Thread;
    ThreadEffect(s, t, budget);
    ThreadKeepsSlots(s.pigs[t.i], t);
    ThreadSlots(s, t.i, AfterThread(s.pigs[t.i].analyzer.value, t));
    CmdsFrame(s, Apply(s, t, budget));
    ThreadPigOk(s, t, budget);
    ThreadPigs(s, t, budget);
  }

  lemma ThreadPigs(s: Sup, t: Step, budget: nat)
    requires PigsOk(s) && IsThreadStep(t) && Enabled(s, t, budget)
    requires t.i < |Apply(s, t, budget).pigs| && PigOk(Apply(s, t, budget), t.i)
    requires Analyzers(Apply(s, t, budget).pigs) == Analyzers(s.pigs)
    ensures PigsOk(Apply(s, t, budget))
  {
    hide Slots, Analyzers, PigSlots, PcOk, Apply, Enabled, Thread;
    ThreadEffect(s, t, budget);
    assert PigOk(s, t.i);
    PokedFrame(s, Apply(s, t, budget), t.i);
  }

  lemma PokedFrame(s: Sup, s': Sup, i: nat)
    requires PigsOk(s) && i < |s.pigs| && |s'.pigs| == |s.pigs|
    requires s'.ring == s.ring || s'.ring == s.ring + [i]
    requires forall j | 0 <= j < |s.pigs| && j != i :: s'.pigs[j] == s.pigs[j]
    requires PigOk(s', i) && s'.pigs[i].analyzer.Some? && s.pigs[i].analyzer.Some?
    requires s.pigs[i].analyzer.value.state == STOPPED ==>
             s'.pigs[i].analyzer.value.state == STOPPED && s'.pigs[i].thread
    requires s'.swine == s.swine == Analyzers(s'.pigs) && s'.pc == s.pc
    ensures PigsOk(s')
  {
    hide Slots, Analyzers, PigSlots;
    WaitingAppend(s.ring, i);
    PigsFrame(s, s', i);
  }

  // ----- commands -----

  /** A pig whose queues changed, and nothing else about it. */
  predicate Requeued(p: Pig, p': Pig) {
    && p.analyzer.Some? && p'.analyzer.Some? && p.thread
    && p' == p.(analyzer := Some(p.analyzer.value.(pending := p'.analyzer.value.pending,
                                                   completed := p'.analyzer.value.completed)))
  }

  lemma RequeuedOk(s: Sup, s': Sup, i: nat)
    requires PigsOk(s) && i < |s.pigs| && |s'.pigs| == |s.pigs| && s'.pigs == s.pigs[i := s'.pigs[i]]
    requires Requeued(s.pigs[i], s'.pigs[i])
    requires s'.ring == s.ring && s'.swine == s.swine
    ensures (forall j | 0 <= j < |s.pigs| :: PigOk(s', j)) && s'.swine == Analyzers(s'.pigs)
    ensures RingWasEmpty(s) ==> RingWasEmpty(s')
  {
    hide Slots, Analyzers, PigSlots, PcOk;
    assert PigOk(s, i);
    AnalyzersUpdate(s.pigs, i, s'.pigs[i]);
    PigsFrame(s, s', i);
  }

  /** Queuing a command: one more reference and one more slot. */
  lemma QueuedEffect(s: Sup, i: nat, c: Cmd)
    requires i < |s.pigs| && s.pigs[i].analyzer.Some? && s.pigs[i].thread && c in s.refs
    ensures var s' := Queued(s, i, c).0;
            && Queued(s, i, c).1
            && |s'.pigs| == |s.pigs| && s'.pigs == s.pigs[i := s'.pigs[i]] && Requeued(s.pigs[i], s'.pigs[i])
            && s' == s.(pigs := s'.pigs, refs := s.refs[c := s.refs[c] + 1])
            && Slots(s'.pigs) == Slots(s.pigs) + multiset{c}
  {
    hide PigSlots, Slots;
    var p, p' := s.pigs[i], Queued(s, i, c).0.pigs[i];
    PendingSlots(p, c);
    SlotsGrow(s.pigs, i, p', c);
  }

  lemma PendingSlots(p: Pig, c: Cmd)
    requires p.analyzer.Some?
    ensures var a := p.analyzer.value;
            PigSlots(p.(analyzer := Some(a.(pending := a.pending + [c])))) == PigSlots(p) + multiset{c}
  {
  }

  lemma SlotsGrow(pigs: seq<Pig>, i: nat, p': Pig, c: Cmd)
    requires i < |pigs|
    ensures PigSlots(p') == PigSlots(pigs[i]) + multiset{c} ==> Slots(pigs[i := p']) == Slots(pigs) + multiset{c}
    ensures PigSlots(pigs[i]) == PigSlots(p') + multiset{c} ==> Slots(pigs) == Slots(pigs[i := p']) + multiset{c}
  {
    hide PigSlots, Slots;
    SlotsUpdate(pigs, i, p');
    var x, y := Slots(pigs[i := p']), Slots(pigs);
    if PigSlots(p') == PigSlots(pigs[i]) + multiset{c} {
      assert x + PigSlots(pigs[i]) == (y + multiset{c}) + PigSlots(pigs[i]);
      Cancel(x, y + multiset{c}, PigSlots(pigs[i]));
    }
    if PigSlots(pigs[i]) == PigSlots(p') + multiset{c} {
      assert (x + multiset{c}) + PigSlots(p') == y + PigSlots(p');
      Cancel(x + multiset{c}, y, PigSlots(p'));
    }
  }

  lemma NewIsUnused(s: Sup, kind: Kind)
    requires CmdsOk(s)
    ensures Fresh(s, kind) !in s.refs && Fresh(s, kind) !in s.orphans && Slots(s.pigs)[Fresh(s, kind)] == 0
  {
    hide Slots;
    assert forall c | c in s.refs :: CmdOk(s, c);
    assert Fresh(s, kind) !in Slots(s.pigs);
  }

  lemma StartBroadcastOk(s: Sup, kind: Kind, fromHandle: bool)
    requires Inv(s) && !s.pc.Broadcasting? && (!fromHandle ==> RingWasEmpty(s))
    ensures Inv(StartBroadcast(s, kind, fromHandle))
  {
    hide Slots, Analyzers, PigSlots;
    NewIsUnused(s, kind);
    var s' := StartBroadcast(s, kind, fromHandle);
    forall c | c in s'.refs ensures CmdOk(s', c) {
      if c != Fresh(s, kind) { assert CmdOk(s, c); }
    }
    forall i | 0 <= i < |s.pigs| ensures PigOk(s', i) {
      assert PigOk(s, i);
    }
  }

  /** One more dispatch of the command in hand. */
  lemma DispatchOk(s: Sup)
    requires Inv(s) && s.pc.Broadcasting? && s.pc.next < |s.pigs|
    requires s.pigs[s.pc.next].analyzer.Some? && s.pigs[s.pc.next].thread
    ensures Inv(MainStep(s))
  {
    hide Slots, Analyzers, PigSlots, PigOk, Requeued, Queued;
    var c, i := s.pc.cmd, s.pc.next;
    var s' := MainStep(s);
    assert CmdOk(s, c);
    QueuedEffect(s, i, c);
    RequeuedOk(s, s', i);
    forall d | d in s'.refs ensures CmdOk(s', d) {
      assert CmdOk(s, d);
    }
  }

  lemma BroadcastStepOk(s: Sup)
    requires Inv(s) && s.pc.Broadcasting?
    ensures Inv(MainStep(s))
  {
    hide Slots, Analyzers, PigSlots, PigOk, CmdsOk;
    var c, i := s.pc.cmd, s.pc.next;
    if i < |s.pigs| && s.pigs[i].analyzer.Some? && s.pigs[i].thread {
      DispatchOk(s);
    } else if i < |s.pigs| {
      CmdsSkip(s);
      PigsKept(s, MainStep(s));
    } else {
      BroadcastEndOk(s);
      PigsKept(s, MainStep(s));
    }
  }

  /** Only the position of the main thread changed. */
  lemma PigsKept(s: Sup, s': Sup)
    requires PigsOk(s) && s'.pigs == s.pigs && s'.ring == s.ring && s'.swine == s.swine
    requires PcOk(s) ==> PcOk(s')
    ensures PigsOk(s')
  {
    hide Analyzers, PigSlots;
    forall j | 0 <= j < |s.pigs| ensures PigOk(s', j) {
      assert PigOk(s, j);
    }
  }

  lemma CmdsSkip(s: Sup)
    requires CmdsOk(s) && s.pc.Broadcasting?
    ensures CmdsOk(s.(pc := s.pc.(next := s.pc.next + 1)))
  {
    hide Slots;
    var s' := s.(pc := s.pc.(next := s.pc.next + 1));
    forall d | d in s'.refs ensures CmdOk(s', d) {
      assert CmdOk(s, d);
    }
  }

  /** The end of a broadcast: a command that found no analyzer becomes an orphan. */
  lemma BroadcastEndOk(s: Sup)
    requires CmdsOk(s) && s.pc.Broadcasting? && s.pc.next >= |s.pigs|
    ensures CmdsOk(MainStep(s))
  {
    hide Slots;
    var s' := MainStep(s);
    assert CmdOk(s, s.pc.cmd);
    forall d | d in s'.refs ensures CmdOk(s', d) {
      assert CmdOk(s, d);
    }
  }

  /** A popped queue entry gives up its reference. */
  lemma ReapedOk(s: Sup, s1: Sup, c: Cmd)
    requires CmdsOk(s) && !s.pc.Broadcasting? && !s1.pc.Broadcasting?
    requires s1.refs == s.refs && s1.orphans == s.orphans && s1.nextCmd == s.nextCmd && s1.fault == s.fault
    requires Slots(s.pigs) == Slots(s1.pigs) + multiset{c}
    ensures var s' := Reaped(s1, c);
            CmdsOk(s') && s'.fault == s.fault && s' == s1.(refs := s'.refs)
  {
    hide Slots;
    assert c in Slots(s.pigs);
    assert CmdOk(s, c);
    var s' := Reaped(s1, c);
    forall d | d in s'.refs ensures CmdOk(s', d) {
      assert CmdOk(s, d);
    }
    assert s1.refs[c] == 1 ==> c !in Slots(s1.pigs);
    forall d | d in Slots(s'.pigs) ensures d in s'.refs {
      assert d in Slots(s.pigs);
    }
  }

  lemma PopCompletedSlots(p: Pig)
    requires p.analyzer.Some? && p.analyzer.value.completed != []
    ensures var a := p.analyzer.value;
            PigSlots(p) == PigSlots(p.(analyzer := Some(a.(completed := a.completed[1..])))) + multiset{a.completed[0]}
  {
    Front(p.analyzer.value.completed);
  }

  lemma PopPendingSlots(p: Pig)
    requires p.analyzer.Some? && p.analyzer.value.pending != []
    ensures var a := p.analyzer.value;
            PigSlots(p) == PigSlots(p.(analyzer := Some(a.(pending := a.pending[1..])))) + multiset{a.pending[0]}
  {
    Front(p.analyzer.value.pending);
  }

  lemma Front(q: seq<Cmd>)
    requires q != []
    ensures multiset(q) == multiset(q[1..]) + multiset{q[0]}
  {
    assert q == [q[0]] + q[1..];
  }

  /** Popping the front of a queue of pig `i` and reaping it. */
  lemma PopAndReapOk(s: Sup, i: nat, p': Pig, c: Cmd, pc: Pc)
    requires Inv(s) && !s.pc.Broadcasting? && !pc.Broadcasting? && i < |s.pigs|
    requires Requeued(s.pigs[i], p') && PigSlots(s.pigs[i]) == PigSlots(p') + multiset{c}
    requires PcOk(SetPig(s, i, p').(pc := pc))
    ensures Inv(Reaped(SetPig(s, i, p').(pc := pc), c))
  {
    hide Slots, Analyzers, PigSlots, PigOk, CmdOk, Requeued, Reaped;
    var s1 := SetPig(s, i, p').(pc := pc);
    SlotsGrow(s.pigs, i, p', c);
    ReapedOk(s, s1, c);
    RequeuedOk(s, s1, i);
    PigsKept(s1, Reaped(s1, c));
  }

  lemma StoppingStepOk(s: Sup)
    requires Inv(s) && s.pc.Stopping?
    ensures Inv(MainStep(s))
  {
    hide Slots, Analyzers, PigSlots, CmdsOk, Reaped;
    var i := s.pc.pig;
    var p := s.pigs[i];
    var a := p.analyzer.value;
    assert PigOk(s, i);
    if a.completed != [] {
      PopCompletedSlots(p);
      PopAndReapOk(s, i, p.(analyzer := Some(a.(completed := a.completed[1..]))), a.completed[0], s.pc);
    } else if a.pending != [] {
      PopPendingSlots(p);
      PopAndReapOk(s, i, p.(analyzer := Some(a.(pending := a.pending[1..]))), a.pending[0], s.pc);
    } else {
      StoppedOk(s);
    }
  }

  /** The analyzer and its thread are gone, and every command it held has been reaped. */
  lemma StoppedOk(s: Sup)
    requires Inv(s) && s.pc.Stopping?
    requires var a := s.pigs[s.pc.pig].analyzer.value; a.completed == [] && a.pending == []
    ensures Inv(MainStep(s)) && s.swine > 0
  {
    hide Slots, Analyzers, PigSlots, CmdsOk;
    var i := s.pc.pig;
    var p := s.pigs[i];
    assert PigOk(s, i);
    DrainedSlots(p);
    var p' := p.(analyzer := None, thread := false);
    NoneSlots(p');
    SlotsUpdate(s.pigs, i, p');
    AnalyzersUpdate(s.pigs, i, p');
    Cancel(Slots(s.pigs[i := p']), Slots(s.pigs), multiset{});
    var s' := MainStep(s);
    assert s'.pigs == s.pigs[i := p'];
    CmdsFrame(s, s');
    PigsFrame(s, s', i);
  }

  lemma DrainedSlots(p: Pig)
    requires p.analyzer.Some?
    requires p.analyzer.value.pending == [] && p.analyzer.value.completed == [] && p.analyzer.value.executing.None?
    ensures PigSlots(p) == multiset{}
  {
  }

  lemma NoneSlots(p: Pig)
    requires p.analyzer.None?
    ensures PigSlots(p) == multiset{}
  {
  }

  lemma ReapingStepOk(s: Sup)
    requires Inv(s) && s.pc.Reaping?
    ensures Inv(MainStep(s))
  {
    hide Slots, Analyzers, PigSlots, CmdsOk, Reaped;
    var i := s.pc.next;
    if i < |s.pigs| && s.pigs[i].analyzer.Some? && s.pigs[i].analyzer.value.completed != [] {
      var p := s.pigs[i];
      var a := p.analyzer.value;
      assert PigOk(s, i);
      QueueMeansThread(s, i);
      PopCompletedSlots(p);
      var p' := p.(analyzer := Some(a.(completed := a.completed[1..])));
      PopAndReapOk(s, i, p', a.completed[0], Reaping(if |a.completed| > 1 then i else i + 1));
      assert MainStep(s) == Reaped(SetPig(s, i, p').(pc := Reaping(if |a.completed| > 1 then i else i + 1)),
             a.completed[0]);
    } else {
      CmdsFrame(s, MainStep(s));
      PigsKept(s, MainStep(s));
    }
  }

  lemma QueueMeansThread(s: Sup, i: nat)
    requires PigsOk(s) && i < |s.pigs| && s.pigs[i].analyzer.Some? && s.pigs[i].analyzer.value.completed != []
    ensures s.pigs[i].thread
  {
    assert PigOk(s, i);
    var a := s.pigs[i].analyzer.value;
    assert a.completed[0] in multiset(a.completed);
    assert a.completed[0] in PigSlots(s.pigs[i]);
  }

  lemma DroppingStepOk(s: Sup)
    requires Inv(s) && s.pc.DroppingOrphans?
    ensures Inv(MainStep(s))
  {
    hide Slots, Analyzers, PigSlots, PigOk;
    var s' := MainStep(s);
    PigsKept(s, s');
    if s.orphans == [] {
      CmdsFrame(s, s');
    } else {
      var c := s.orphans[0];
      assert c in s.orphans && CmdOk(s, c);
      assert forall d :: d in s.orphans <==> d == c || d in s.orphans[1..] by {
        assert s.orphans == [c] + s.orphans[1..];
      }
      forall d | d in s'.refs ensures CmdOk(s', d) {
        assert CmdOk(s, d);
      }
    }
  }

  // ----- the rest of the main loop -----

  /** Taking a poke from the ring. */
  lemma HeardOk(s: Sup)
    requires Inv(s) && s.pc == Top && s.ring != [] && s.ring[0] < |s.pigs|
    ensures Inv(Heard(s))
  {
    hide Slots, Analyzers, PigSlots;
    var i := s.ring[0];
    var s1 := Heard(s);
    WaitingRead(s.ring);
    assert PigOk(s, i);
    if s.pigs[i].analyzer.Some? {
      HeardSlots(s.pigs[i]);
      ThreadSlots(s, i, s1.pigs[i].analyzer.value);
    }
    CmdsFrame(s, s1);
    forall j | 0 <= j < |s.pigs| ensures PigOk(s1, j) {
      assert PigOk(s, j);
    }
  }

  lemma HeardSlots(p: Pig)
    requires p.analyzer.Some?
    ensures var a := p.analyzer.value;
            PigSlots(p.(analyzer := Some(a.(heard := a.heard + 1)))) == PigSlots(p)
  {
  }

  /** The poke of a NEW analyzer is read once, before its thread exists. */
  lemma StartOk(s: Sup, i: nat)
    requires Inv(s) && s.pc == Top && s.ring != [] && s.ring[0] == i < |s.pigs|
    requires s.pigs[i].analyzer.Some? && s.pigs[i].analyzer.value.state == NEW
    ensures Inv(Handled(Heard(s), i)) && !s.pigs[i].thread
  {
    hide Slots, Analyzers, PigSlots;
    assert PigOk(s, i);
    WaitingRead(s.ring);
    HeardOk(s);
    var s1 := Heard(s);
    var p' := s1.pigs[i].(thread := true);
    SamePigSlots(s1.pigs[i], p');
    SlotsUpdate(s1.pigs, i, p');
    AnalyzersUpdate(s1.pigs, i, p');
    Cancel(Slots(s1.pigs[i := p']), Slots(s1.pigs), PigSlots(p'));
    var s' := Handled(s1, i);
    CmdsFrame(s1, s');
    assert PigOk(s1, i);
    PigsFrame(s1, s', i);
  }

  lemma SamePigSlots(p: Pig, p': Pig)
    requires p.analyzer == p'.analyzer
    ensures PigSlots(p) == PigSlots(p')
  {
  }

  /** Marking a pig as waiting changes nothing else. */
  lemma AwaitingOk(s: Sup, i: nat, pending: nat)
    requires Inv(s) && s.pc == Top && i < |s.pigs|
    ensures Inv(SetPig(s, i, s.pigs[i].(awaiting := true)).(pending := pending))
  {
    hide Slots, Analyzers, PigSlots;
    var p' := s.pigs[i].(awaiting := true);
    var s' := SetPig(s, i, p').(pending := pending);
    SamePigSlots(s.pigs[i], p');
    SlotsUpdate(s.pigs, i, p');
    AnalyzersUpdate(s.pigs, i, p');
    Cancel(Slots(s.pigs[i := p']), Slots(s.pigs), PigSlots(p'));
    CmdsFrame(s, s');
    assert PigOk(s, i);
    PigsFrame(s, s', i);
  }

  /** A new command for one pig is queued, or becomes an orphan. */
  lemma QueueNewOk(s: Sup, i: nat, kind: Kind)
    requires Inv(s) && s.pc == Top && i < |s.pigs|
    ensures var (s1, dispatched) := Queued(WithNew(s, kind), i, Fresh(s, kind));
            Inv(if dispatched then s1 else s1.(orphans := s1.orphans + [Fresh(s, kind)]))
  {
    hide Slots, Analyzers, PigSlots, PigOk, Requeued, CmdsOk;
    NewIsUnused(s, kind);
    if s.pigs[i].analyzer.Some? && s.pigs[i].thread {
      QueuedEffect(WithNew(s, kind), i, Fresh(s, kind));
      var s' := Queued(WithNew(s, kind), i, Fresh(s, kind)).0;
      RequeuedOk(s, s', i);
      NewCmdOk(s, s', kind);
    } else {
      var s' := WithNew(s, kind).(orphans := s.orphans + [Fresh(s, kind)]);
      PigsKept(s, s');
      NewCmdOk(s, s', kind);
    }
  }

  /** One new command, in one slot or in the orphan queue. */
  lemma NewCmdOk(s: Sup, s': Sup, kind: Kind)
    requires CmdsOk(s) && s.pc == s'.pc == Top && s'.nextCmd == s.nextCmd + 1
    requires Fresh(s, kind) !in s.refs && Fresh(s, kind) !in s.orphans && Slots(s.pigs)[Fresh(s, kind)] == 0
    requires || (s'.refs == s.refs[Fresh(s, kind) := 1] && Slots(s'.pigs) == Slots(s.pigs) + multiset{Fresh(s, kind)}
                 && s'.orphans == s.orphans)
             || (s'.refs == s.refs[Fresh(s, kind) := 0] && Slots(s'.pigs) == Slots(s.pigs)
                 && s'.orphans == s.orphans + [Fresh(s, kind)])
    ensures CmdsOk(s')
  {
    hide Slots;
    forall d | d in s'.refs ensures CmdOk(s', d) {
      if d != Fresh(s, kind) { assert CmdOk(s, d); }
    }
  }

  lemma FieldsKept(s: Sup, privileges: Privileges)
    requires Inv(s)
    ensures Inv(s.(privileges := privileges))
  {
    hide Slots, Analyzers, PigSlots, PigOk;
    CmdsFrame(s, s.(privileges := privileges));
    PigsKept(s, s.(privileges := privileges));
  }

  lemma GateOk(s: Sup, i: nat, waits: bool, kind: Kind)
    requires Inv(s) && s.pc == Top && i < |s.pigs|
    ensures Inv(Gate(s, i, waits, kind))
  {
    hide Inv, Queued, WithNew, StartBroadcast;
    if waits && s.pending > 0 && s.privileges.Kept? {
      if !s.pigs[i].awaiting {
        AwaitingOk(s, i, s.pending - 1);
      }
      var s1 := if s.pigs[i].awaiting then s
                else SetPig(s, i, s.pigs[i].(awaiting := true)).(pending := s.pending - 1);
      if s1.pending == 0 {
        FieldsKept(s1, Dropped(i, kind));
        StartBroadcastOk(s1.(privileges := Dropped(i, kind)), kind, true);
      }
    } else {
      QueueNewOk(s, i, kind);
    }
  }

  lemma ReadPokeOk(s: Sup, budget: nat)
    requires Inv(s) && Enabled(s, ReadPoke, budget)
    ensures Inv(Apply(s, ReadPoke, budget))
  {
    hide Slots, Analyzers, PigSlots, CmdsOk, Gate;
    var i := s.ring[0];
    var s1 := Heard(s);
    HeardOk(s);
    if s.pigs[i].analyzer.None? {
      var s' := Apply(s, ReadPoke, budget);
      CmdsFrame(s1, s');
      PigsKept(s1, s');
    } else {
      assert PigOk(s, i);
      var a := s.pigs[i].analyzer.value;
      match a.state
      case NEW => StartOk(s, i);
      case INITIALIZED => GateOk(s1, i, a.privileged, Start);
      case STARTED => GateOk(s1, i, !a.privileged, Run);
      case STOPPED =>
        var s' := s1.(pc := Stopping(i));
        CmdsFrame(s1, s');
        PigsKept(s1, s');
      case RUNNING =>
      case PAUSED =>
    }
  }

  lemma PreppedEffect(s: Sup, i: nat)
    requires i < |s.pigs| && s.pigs[i].analyzer.None?
    ensures var s' := Prepped(s, i);
            var p' := s.pigs[i].(analyzer := Some(NEWBORN));
            && s'.(ring := s.ring, lost := s.lost) == s.(pigs := s.pigs[i := p'])
            && (s'.ring == s.ring || s'.ring == s.ring + [i])
            && PigSlots(p') == multiset{}
            && Slots(s'.pigs) == Slots(s.pigs) && Analyzers(s'.pigs) == Analyzers(s.pigs) + 1
  {
    hide Slots, Analyzers, PigSlots;
    var p' := s.pigs[i].(analyzer := Some(NEWBORN));
    NoneSlots(s.pigs[i]);
    DrainedSlots(p');
    SlotsUpdate(s.pigs, i, p');
    AnalyzersUpdate(s.pigs, i, p');
    Cancel(Slots(s.pigs[i := p']), Slots(s.pigs), multiset{});
  }

  /** A slot is prepared only when none of its pokes waits. */
  lemma PreppedOk(s: Sup, i: nat, pc: Pc)
    requires Inv(s) && i < |s.pigs| && s.pigs[i].analyzer.None? && RingWasEmpty(s) && !s.pc.Broadcasting?
    requires pc == Top || (pc == Prepping == s.pc && i == s.swine)
    ensures Inv(Prepped(s, i).(swine := s.swine + 1, pc := pc))
  {
    hide Slots, Analyzers, PigSlots, Prepped, CmdsOk;
    PreppedEffect(s, i);
    CmdsFrame(s, Prepped(s, i).(swine := s.swine + 1, pc := pc));
    PreppedPigs(s, i, Prepped(s, i).(swine := s.swine + 1, pc := pc));
  }

  lemma PreppedPigs(s: Sup, i: nat, s': Sup)
    requires PigsOk(s) && i < |s.pigs| && s.pigs[i].analyzer.None? && RingWasEmpty(s)
    requires s'.pc == Top || (s'.pc == Prepping == s.pc && i == s.swine)
    requires s'.ring == s.ring || s'.ring == s.ring + [i]
    requires s'.swine == s.swine + 1 == Analyzers(s'.pigs)
    requires var p' := s.pigs[i].(analyzer := Some(NEWBORN));
             PigSlots(p') == multiset{} && s'.pigs == s.pigs[i := p']
    ensures PigsOk(s')
  {
    hide Slots, Analyzers, PigSlots;
    assert PigOk(s, i);
    WaitingAppend(s.ring, i);
    assert PigOk(s', i);
    PigsFrame(s, s', i);
  }

  /** `get_lazy_pig` finds a slot whenever it is asked to. */
  lemma LazyPigFinds(pigs: seq<Pig>)
    requires Analyzers(pigs) < |pigs|
    ensures LazyPig(pigs) < |pigs|
  {
    AnalyzersBounds(pigs);
  }

  lemma SimpleStepOk(s: Sup, s': Sup)
    requires Inv(s) && s' == s.(pc := s'.pc) && !s.pc.Broadcasting? && !s'.pc.Broadcasting?
    requires PcOk(s')
    ensures Inv(s')
  {
    hide Slots, Analyzers, PigSlots, PigOk;
    CmdsFrame(s, s');
    PigsKept(s, s');
  }

  lemma MainStepOk(s: Sup)
    requires Inv(s)
    requires s.pc.Broadcasting? || s.pc.Stopping? || s.pc.Reaping? || s.pc.DroppingOrphans?
    ensures Inv(MainStep(s))
  {
    hide Inv, MainStep;
    match s.pc
    case Broadcasting(_, _, _, _) => BroadcastStepOk(s);
    case Stopping(_) => StoppingStepOk(s);
    case Reaping(_) => ReapingStepOk(s);
    case DroppingOrphans => DroppingStepOk(s);
  }

  /** Every step keeps the invariant. */
  lemma StepOk(s: Sup, t: Step, budget: nat)
    requires Inv(s) && Enabled(s, t, budget)
    ensures Inv(Apply(s, t, budget))
  {
    if IsThreadStep(t) {
      ThreadStepOk(s, t, budget);
    } else {
      MainThreadOk(s, t, budget);
    }
  }

  lemma MainThreadOk(s: Sup, t: Step, budget: nat)
    requires Inv(s) && Enabled(s, t, budget) && !IsThreadStep(t)
    ensures Inv(Apply(s, t, budget))
  {
    hide Slots, Analyzers, PigSlots, CmdsOk, MainStep, StartBroadcast, PigOk, Prepped, Handled, LazyPig;
    match t
    case PrepNext =>
      if s.swine < |s.pigs| {
        PreppedEffect(s, s.swine);
        PreppedOk(s, s.swine, Prepping);
      } else {
        SimpleStepOk(s, Apply(s, t, budget));
      }
    case ReadPoke => ReadPokeOk(s, budget);
    case ReadNothing => EmptyRead(s);
    case Prep =>
      LazyPigFinds(s.pigs);
      PreppedOk(s, LazyPig(s.pigs), Top);
    case NewCommand(kind) => StartBroadcastOk(s, kind, false);
    case StartReap => SimpleStepOk(s, Apply(s, t, budget));
    case Skip => SimpleStepOk(s, Apply(s, t, budget));
    case Main => MainStepOk(s);
    case Leave => SimpleStepOk(s, Apply(s, t, budget));
  }

  lemma EmptyRead(s: Sup)
    requires Inv(s) && s.pc == Top && s.ring == []
    ensures Inv(s.(pc := Idle))
  {
    SimpleStepOk(s, s.(pc := Idle));
  }

  // ---------------------------------------------------------------------
  // Whole runs
  // ---------------------------------------------------------------------

  /** In every state of every run no assertion fails and no command is deleted while it is
      queued or twice; reference counts, the number of swine and the threads are as they should be. */
  lemma {:induction false} RunIsSafe(run: seq<Sup>, steps: seq<Step>, budget: nat, k: nat)
    requires IsRun(run, steps, budget) && k < |run|
    ensures Inv(run[k])
    decreases k
  {
    hide Inv, Apply, Enabled;
    if k == 0 {
      InitialOk(run[0]);
    } else {
      RunIsSafe(run, steps, budget, k - 1);
      StepOk(run[k - 1], steps[k - 1], budget);
    }
  }

  /** The main loop is left only when every analyzer and thread is gone, and then only orphans are left
      of all the commands ever dispatched. */
  lemma ExitedClean(run: seq<Sup>, steps: seq<Step>, budget: nat, k: nat)
    requires IsRun(run, steps, budget) && k < |run| && run[k].pc == Exited
    ensures forall i | 0 <= i < |run[k].pigs| :: run[k].pigs[i].analyzer.None? && !run[k].pigs[i].thread
    ensures forall c :: c in run[k].refs <==> c in run[k].orphans
  {
    var s := run[k];
    RunIsSafe(run, steps, budget, k);
    AnalyzersBounds(s.pigs);
    NoSlots(s.pigs);
    forall i | 0 <= i < |s.pigs| ensures !s.pigs[i].thread {
      assert PigOk(s, i);
    }
    forall c ensures c in s.refs <==> c in s.orphans {
      if c in s.refs { assert CmdOk(s, c); }
    }
  }
}
