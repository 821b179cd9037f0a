/**
  Statement compilation: the visitor that swaps its block builder, its state, its
  assignment kind and its parameter list around every `with` block.
 */
module VtlVisit {
  import opened Options
  import opened VtlSyntax
  import opened VtlCompile

  // ---------------------------------------------------------------------
  // Statements
  // ---------------------------------------------------------------------

  datatype PyStmt =
    | Assign(target: PyExpr, source: PyExpr)
    | If(test: PyExpr, thn: seq<PyStmt>, els: seq<PyStmt>)
    | WithName(context: string, asName: PyExpr, body: seq<PyStmt>)
    | WithCall(func: string, args: seq<PyExpr>, body: seq<PyStmt>)
    | For(variable: string, bounds: seq<PyExpr>, body: seq<PyStmt>)
    | Do(func: string, args: seq<PyExpr>)

  datatype State = MODULE | INSTANTIATION | PORT | PARAM

  datatype Kind = CON | COMB | FF

  datatype Decl =
    | Localparam(name: VExpr, init: VExpr)
    | Param(name: VExpr, init: VExpr)
    | Parameter(name: VExpr, init: VExpr)

  datatype VType = VType(name: VExpr, range: Modifier)

  datatype Direction = Input | Output | NoDirection

  datatype VStmt =
    | ConAssign(lhs: VExpr, rhs: VExpr)
    | CombAssign(lhs: VExpr, rhs: VExpr)
    | FFAssign(lhs: VExpr, rhs: VExpr)
    | Declare(decl: Decl)
    | Define(name: VExpr, vtype: VType)
    | Port(name: VExpr, vtype: VType, direction: Direction)
    | Connect(socket: string, net: VExpr)
    | AlwaysComb(block: seq<VStmt>)
    | AlwaysFF(negedge: bool, trigger: VExpr, block: seq<VStmt>)
    | IfOnly(condition: VExpr, thn: seq<VStmt>)
    | IfElse(condition: VExpr, thn: seq<VStmt>, els: seq<VStmt>)
    | ForLoop(variable: VExpr, start: VExpr, end: VExpr, block: seq<VStmt>)
    | Instantiate(moduleName: VExpr, name: VExpr, connections: seq<VStmt>, params: seq<Decl>)
    | Text(text: string)
    | CallTask(func: string, args: seq<VExpr>)

  // ---------------------------------------------------------------------
  // What a statement emits, on values
  // ---------------------------------------------------------------------

  /** `inside_for`, `for_var` and `for_value`, which no block restores. */
  datatype LoopState = LoopState(inside: bool, variable: string, value: int)

  datatype Context = Context(globals: map<string, Global>, state: State, kind: Kind)

  /** What a visit appends to the current block, to the current parameter list and to the
      module's ports, and what it leaves in the module's parameter list and loop fields. */
  datatype Emitted = Emitted(
    stmts: seq<VStmt>, params: seq<Decl>, ports: seq<VStmt>, moduleParams: Option<seq<Decl>>, loop: LoopState)

  function ScopeOf(c: Context, l: LoopState): Scope {
    Scope(c.globals, if l.inside then Inside(l.variable, l.value) else Outside)
  }

  function Just(s: VStmt, l: LoopState): Emitted {
    Emitted([s], [], [], None, l)
  }

  function Nothing(l: LoopState): Emitted {
    Emitted([], [], [], None, l)
  }

  function Then(a: Emitted, b: Emitted): Emitted {
    Emitted(a.stmts + b.stmts, a.params + b.params, a.ports + b.ports,
            if b.moduleParams.Some? then b.moduleParams else a.moduleParams, b.loop)
  }

  function FirstArg(e: PyExpr): Option<PyExpr> {
    if e.Call? && e.args != [] then Some(e.args[0]) else None
  }

  function CompileType(e: PyExpr, sc: Scope): Option<VType> {
    if !e.Call? || e.args == [] then None
    else
      var n :- CompileName(e.args[0], sc);
      if |e.args| == 1 then Some(VType(n, NoModifier))
      else if |e.args| == 2 then None
      else
        var u :- CompileExpr(e.args[1], sc);
        var l :- CompileExpr(e.args[2], sc);
        Some(VType(n, Part(u, l)))
  }

  function DirectionOf(s: string): Direction {
    if s == "input" || s == "Input" then Input
    else if s == "output" || s == "Output" then Output
    else NoDirection
  }

  function AssignOf(kind: Kind, l: VExpr, r: VExpr): VStmt {
    match kind
    case CON => ConAssign(l, r)
    case COMB => CombAssign(l, r)
    case FF => FFAssign(l, r)
  }

  const Literals := {"b", "d", "h", "Defined"}

  function EmitAssign(target: PyExpr, value: PyExpr, c: Context, l: LoopState): Option<Emitted> {
    var sc := ScopeOf(c, l);
    match c.state
    case PARAM =>
      if value.Call? && value.func == "Localparam" then
        var n :- CompileName(target, sc);
        var a :- FirstArg(value);
        var v :- CompileExpr(a, sc);
        Some(Nothing(l).(params := [Localparam(n, v)]))
      else if value.Call? && value.func == "Param" then
        var n :- CompileName(target, sc);
        var a :- FirstArg(value);
        var v :- CompileExpr(a, sc);
        Some(Nothing(l).(params := [Param(n, v)]))
      else if value.Call? then Some(Nothing(l))
      else
        var n :- CompileName(target, sc);
        var v :- CompileExpr(value, sc);
        Some(Nothing(l).(params := [Parameter(n, v)]))
    case PORT =>
      var n :- CompileName(target, sc);
      var t :- CompileType(value, sc);
      Some(Just(Port(n, t, DirectionOf(value.func)), l))
    case MODULE =>
      if value.Call? && value.func !in Literals then
        if value.func == "Localparam" then
          var n :- CompileName(target, sc);
          var a :- FirstArg(value);
          var v :- CompileExpr(a, sc);
          Some(Just(Declare(Localparam(n, v)), l))
        else if value.func == "Param" then
          var n :- CompileName(target, sc);
          var a :- FirstArg(value);
          var v :- CompileExpr(a, sc);
          Some(Just(Declare(Param(n, v)), l))
        else if value.func == "Def" then
          var n :- CompileName(target, sc);
          var t :- CompileType(value, sc);
          Some(Just(Define(n, t), l))
        else Some(Nothing(l))
      else
        var n :- CompileName(target, sc);
        var v :- CompileExpr(value, sc);
        Some(Just(AssignOf(c.kind, n, v), l))
    case INSTANTIATION =>
      var n :- CompileName(target, sc);
      if !n.VName? then None
      else
        var v :- CompileExpr(value, sc);
        Some(Just(Connect(n.name, v), l))
  }

  function EmitCall(func: string, args: seq<PyExpr>, c: Context, l: LoopState): Option<Emitted> {
    if func == "vtl_include" then Some(Nothing(l))
    else if func == "T" then
      if args != [] && args[0].Str? then Some(Just(Text(args[0].s), l)) else None
    else
      var vs :- CompileAll(args, ScopeOf(c, l));
      Some(Just(CallTask("$" + func, vs), l))
  }

  function GlobalInt(e: PyExpr, globals: map<string, Global>): Option<int> {
    if e.Num? then Some(e.n)
    else if e.Name? && e.id in globals && globals[e.id].GInt? then Some(globals[e.id].n)
    else None
  }

  function Range(lower: int, upper: int, step: int): seq<int>
    requires step != 0
    decreases if step > 0 then upper - lower else lower - upper
  {
    if (step > 0 && lower >= upper) || (step < 0 && lower <= upper) then []
    else [lower] + Range(lower + step, upper, step)
  }

  /** Python's `range`: one argument, or three. */
  function RangeOf(bounds: seq<PyExpr>, globals: map<string, Global>): Option<seq<int>> {
    if bounds == [] || |bounds| == 2 then None
    else
      var a :- GlobalInt(bounds[0], globals);
      if |bounds| == 1 then Some(Range(0, a, 1))
      else
        var b :- GlobalInt(bounds[1], globals);
        var s :- GlobalInt(bounds[2], globals);
        if s == 0 then None else Some(Range(a, b, s))
  }

  function Emit(s: PyStmt, c: Context, l: LoopState): Option<Emitted>
    decreases s, 0
  {
    match s
    case Assign(target, value) => EmitAssign(target, value, c, l)
    case Do(func, args) => EmitCall(func, args, c, l)
    case If(test, thn, els) =>
      var cond :- CompileExpr(test, ScopeOf(c, l));
      var t :- EmitAll(thn, c, l);
      var e :- EmitAll(els, c, t.loop);
      Some(Then(t, e).(stmts := [if els == [] then IfOnly(cond, t.stmts) else IfElse(cond, t.stmts, e.stmts)]))
    case WithName(context, asName, body) =>
      if c.state == MODULE then
        if context == "AlwaysComb" then
          var b :- EmitAll(body, c.(kind := COMB), l);
          Some(b.(stmts := [AlwaysComb(b.stmts)]))
        else if context == "Params" then
          var b :- EmitAll(body, c.(state := PARAM), l);
          Some(b.(params := [], moduleParams := Some(b.params)))
        else if context == "Ports" then
          var b :- EmitAll(body, c.(state := PORT), l);
          Some(b.(stmts := [], ports := b.stmts))
        else
          var m :- CompileName(Name(context), ScopeOf(c, l));
          var n :- CompileName(asName, ScopeOf(c, l));
          var b :- EmitAll(body, c.(state := INSTANTIATION), l);
          Some(b.(stmts := [Instantiate(m, n, b.stmts, b.params)], params := []))
      else if c.state == INSTANTIATION && context == "Params" then EmitAll(body, c.(state := PARAM), l)
      else Some(Nothing(l))
    case WithCall(func, args, body) =>
      if func == "AlwaysFF" then
        if |args| < 2 || !args[0].Name? then None
        else
          var t :- CompileName(args[1], ScopeOf(c, l));
          var b :- EmitAll(body, c.(kind := FF), l);
          Some(b.(stmts := [AlwaysFF(args[0].id == "negedge", t, b.stmts)]))
      else if func == "For" then
        if |args| < 3 then None
        else
          var v :- CompileExpr(args[0], ScopeOf(c, l));
          var start :- CompileExpr(args[1], ScopeOf(c, l));
          var end :- CompileExpr(args[2], ScopeOf(c, l));
          var b :- EmitAll(body, c, l);
          Some(b.(stmts := [ForLoop(v, start, end, b.stmts)]))
      else Some(Nothing(l))
    case For(variable, bounds, body) =>
      var values :- RangeOf(bounds, c.globals);
      var b :- EmitFor(body, values, c, LoopState(true, variable, l.value));
      Some(b.(loop := b.loop.(inside := false)))
  }

  function EmitAll(stmts: seq<PyStmt>, c: Context, l: LoopState): Option<Emitted>
    decreases stmts, 0
  {
    if stmts == [] then Some(Nothing(l))
    else
      var a :- Emit(stmts[0], c, l);
      var b :- EmitAll(stmts[1..], c, a.loop);
      Some(Then(a, b))
  }

  /** The unrolled generate-for. */
  function EmitFor(body: seq<PyStmt>, values: seq<int>, c: Context, l: LoopState): Option<Emitted>
    decreases body, 1, |values|
  {
    if values == [] then Some(Nothing(l))
    else
      var a :- EmitAll(body, c, l.(value := values[0]));
      var b :- EmitFor(body, values[1..], c, a.loop);
      Some(Then(a, b))
  }

  // ---------------------------------------------------------------------
  // Every assignment has the kind of its innermost process
  // ---------------------------------------------------------------------

  predicate Kinded(s: VStmt, kind: Kind) {
    match s
    case ConAssign(_, _) => kind == CON
    case CombAssign(_, _) => kind == COMB
    case FFAssign(_, _) => kind == FF
    case AlwaysComb(block) => forall i | 0 <= i < |block| :: Kinded(block[i], COMB)
    case AlwaysFF(_, _, block) => forall i | 0 <= i < |block| :: Kinded(block[i], FF)
    case IfOnly(_, thn) => forall i | 0 <= i < |thn| :: Kinded(thn[i], kind)
    case IfElse(_, thn, els) =>
      && (forall i | 0 <= i < |thn| :: Kinded(thn[i], kind))
      && (forall i | 0 <= i < |els| :: Kinded(els[i], kind))
    case ForLoop(_, _, _, block) => forall i | 0 <= i < |block| :: Kinded(block[i], kind)
    case Instantiate(_, _, connections, _) => forall i | 0 <= i < |connections| :: Kinded(connections[i], kind)
    case _ => true
  }

  predicate AllKinded(stmts: seq<VStmt>, kind: Kind) {
    forall i | 0 <= i < |stmts| :: Kinded(stmts[i], kind)
  }

  /** What is emitted in context `c` respects the assignment kinds; outside the module
      state there are no assignments and no ports. */
  ghost predicate WellKinded(e: Emitted, c: Context) {
    && AllKinded(e.stmts, c.kind)
    && (forall k :: AllKinded(e.ports, k))
    && (c.state != MODULE ==> e.ports == [] && forall k :: AllKinded(e.stmts, k))
  }

  lemma ThenKinded(a: Emitted, b: Emitted, c: Context)
    requires WellKinded(a, c) && WellKinded(b, c)
    ensures WellKinded(Then(a, b), c)
  {
    forall k ensures AllKinded(a.ports + b.ports, k) {
      assert AllKinded(a.ports, k) && AllKinded(b.ports, k);
    }
    if c.state != MODULE {
      forall k ensures AllKinded(a.stmts + b.stmts, k) {
        assert AllKinded(a.stmts, k) && AllKinded(b.stmts, k);
      }
    }
  }

  lemma {:induction false} EmitKinded(s: PyStmt, c: Context, l: LoopState)
    requires Emit(s, c, l).Some?
    ensures WellKinded(Emit(s, c, l).value, c)
    decreases s, 1
  {
    hide EmitAll, EmitFor, Kinded, CompileExpr, CompileName, CompileAll;
    match s
    case Assign(target, value) => EmitAssignKinded(target, value, c, l);
    case Do(func, args) => EmitCallKinded(func, args, c, l);
    case If(test, thn, els) =>
      EmitAllKinded(thn, c, l);
      var t := EmitAll(thn, c, l).value;
      EmitAllKinded(els, c, t.loop);
      IfKinded(CompileExpr(test, ScopeOf(c, l)).value, t, EmitAll(els, c, t.loop).value, els == [], c);
    case WithName(context, asName, body) =>
      WithNameKinded(s, c, l);
    case WithCall(func, args, body) =>
      if func == "AlwaysFF" {
        EmitAllKinded(body, c.(kind := FF), l);
        ProcessKinded(Emit(s, c, l).value.stmts[0], EmitAll(body, c.(kind := FF), l).value, c, FF);
      } else if func == "For" {
        EmitAllKinded(body, c, l);
        LoopKinded(Emit(s, c, l).value.stmts[0], EmitAll(body, c, l).value, c);
      }
    case For(variable, bounds, body) =>
      EmitForKinded(body, RangeOf(bounds, c.globals).value, c, LoopState(true, variable, l.value));
  }

  lemma EmitAssignKinded(target: PyExpr, value: PyExpr, c: Context, l: LoopState)
    requires EmitAssign(target, value, c, l).Some?
    ensures WellKinded(EmitAssign(target, value, c, l).value, c)
  {
    hide CompileExpr, CompileName, CompileAll;
  }

  lemma EmitCallKinded(func: string, args: seq<PyExpr>, c: Context, l: LoopState)
    requires EmitCall(func, args, c, l).Some?
    ensures WellKinded(EmitCall(func, args, c, l).value, c)
  {
    hide CompileAll;
  }

  lemma IfKinded(cond: VExpr, t: Emitted, e: Emitted, only: bool, c: Context)
    requires WellKinded(t, c) && WellKinded(e, c)
    ensures var stmt := if only then IfOnly(cond, t.stmts) else IfElse(cond, t.stmts, e.stmts);
            WellKinded(Then(t, e).(stmts := [stmt]), c)
  {
    ThenKinded(t, e, c);
    var s := if only then IfOnly(cond, t.stmts) else IfElse(cond, t.stmts, e.stmts);
    forall k | AllKinded(t.stmts, k) && AllKinded(e.stmts, k) ensures Kinded(s, k) {
    }
  }

  lemma ProcessKinded(s: VStmt, b: Emitted, c: Context, kind: Kind)
    requires WellKinded(b, c.(kind := kind))
    requires (kind == COMB && s == AlwaysComb(b.stmts)) || (kind == FF && s.AlwaysFF? && s.block == b.stmts)
    ensures WellKinded(b.(stmts := [s]), c)
  {
    assert forall k :: Kinded(s, k);
  }

  lemma LoopKinded(s: VStmt, b: Emitted, c: Context)
    requires WellKinded(b, c) && s.ForLoop? && s.block == b.stmts
    ensures WellKinded(b.(stmts := [s]), c)
  {
    assert forall k | AllKinded(b.stmts, k) :: Kinded(s, k);
  }

  lemma {:induction false} WithNameKinded(s: PyStmt, c: Context, l: LoopState)
    requires s.WithName? && Emit(s, c, l).Some?
    ensures WellKinded(Emit(s, c, l).value, c)
    decreases s, 0
  {
    hide EmitAll, Kinded, CompileName;
    if c.state == MODULE {
      var inner := if s.context == "AlwaysComb" then c.(kind := COMB)
                   else if s.context == "Params" then c.(state := PARAM)
                   else if s.context == "Ports" then c.(state := PORT)
                   else c.(state := INSTANTIATION);
      EmitAllKinded(s.body, inner, l);
      var b := EmitAll(s.body, inner, l).value;
      var e := Emit(s, c, l).value;
      if s.context == "AlwaysComb" {
        ProcessKinded(AlwaysComb(b.stmts), b, c, COMB);
      } else if s.context != "Params" && s.context != "Ports" {
        InstanceKinded(e.stmts[0], b.stmts, c.kind);
      }
    } else if c.state == INSTANTIATION && s.context == "Params" {
      EmitAllKinded(s.body, c.(state := PARAM), l);
    }
  }

  lemma InstanceKinded(s: VStmt, connections: seq<VStmt>, k: Kind)
    requires s.Instantiate? && s.connections == connections && AllKinded(connections, k)
    ensures Kinded(s, k)
  {
  }

  lemma {:induction false} EmitAllKinded(stmts: seq<PyStmt>, c: Context, l: LoopState)
    requires EmitAll(stmts, c, l).Some?
    ensures WellKinded(EmitAll(stmts, c, l).value, c)
    decreases stmts, 0
  {
    if stmts != [] {
      var a := Emit(stmts[0], c, l).value;
      EmitKinded(stmts[0], c, l);
      EmitAllKinded(stmts[1..], c, a.loop);
      ThenKinded(a, EmitAll(stmts[1..], c, a.loop).value, c);
    }
  }

  lemma {:induction false} EmitForKinded(body: seq<PyStmt>, values: seq<int>, c: Context, l: LoopState)
    requires EmitFor(body, values, c, l).Some?
    ensures WellKinded(EmitFor(body, values, c, l).value, c)
    decreases body, 1, |values|
  {
    if values != [] {
      var a := EmitAll(body, c, l.(value := values[0])).value;
      EmitAllKinded(body, c, l.(value := values[0]));
      EmitForKinded(body, values[1..], c, a.loop);
      ThenKinded(a, EmitFor(body, values[1..], c, a.loop).value, c);
    }
  }

  // ---------------------------------------------------------------------
  // Generate-for
  // ---------------------------------------------------------------------

  /** A `for` that the visitor reaches. */
  predicate VisitsFor(s: PyStmt, state: State) {
    match s
    case If(_, thn, els) =>
      || (exists i | 0 <= i < |thn| :: VisitsFor(thn[i], state))
      || (exists i | 0 <= i < |els| :: VisitsFor(els[i], state))
    case WithName(context, _, body) =>
      if state == MODULE then
        exists i | 0 <= i < |body| :: VisitsFor(body[i],
          if context == "AlwaysComb" then MODULE else if context == "Params" then PARAM
          else if context == "Ports" then PORT else INSTANTIATION)
      else state == INSTANTIATION && context == "Params"
           && exists i | 0 <= i < |body| :: VisitsFor(body[i], PARAM)
    case WithCall(func, _, body) =>
      (func == "AlwaysFF" || func == "For") && exists i | 0 <= i < |body| :: VisitsFor(body[i], state)
    case For(_, _, _) => true
    case _ => false
  }

  predicate AnyFor(stmts: seq<PyStmt>, state: State) {
    exists i | 0 <= i < |stmts| :: VisitsFor(stmts[i], state)
  }

  /** A visit keeps the loop fields, unless it goes through a `for`, which leaves substitution off. */
  ghost predicate LoopAfter(e: Emitted, l: LoopState, visits: bool) {
    if visits then !e.loop.inside else e.loop == l
  }

  lemma {:induction false} EmitLoop(s: PyStmt, c: Context, l: LoopState)
    requires Emit(s, c, l).Some?
    ensures LoopAfter(Emit(s, c, l).value, l, VisitsFor(s, c.state))
    decreases s, 0
  {
    hide EmitAll, EmitFor, CompileExpr, CompileName, CompileAll;
    match s
    case Assign(_, _) =>
    case Do(_, _) =>
    case If(test, thn, els) =>
      EmitAllLoop(thn, c, l);
      EmitAllLoop(els, c, EmitAll(thn, c, l).value.loop);
    case WithName(context, asName, body) =>
      if c.state == MODULE {
        EmitAllLoop(body, if context == "AlwaysComb" then c.(kind := COMB)
                          else if context == "Params" then c.(state := PARAM)
                          else if context == "Ports" then c.(state := PORT)
                          else c.(state := INSTANTIATION), l);
      } else if c.state == INSTANTIATION && context == "Params" {
        EmitAllLoop(body, c.(state := PARAM), l);
      }
    case WithCall(func, args, body) =>
      if func == "AlwaysFF" {
        EmitAllLoop(body, c.(kind := FF), l);
      } else if func == "For" {
        EmitAllLoop(body, c, l);
      }
    case For(_, _, _) =>
  }

  lemma {:induction false} EmitAllLoop(stmts: seq<PyStmt>, c: Context, l: LoopState)
    requires EmitAll(stmts, c, l).Some?
    ensures LoopAfter(EmitAll(stmts, c, l).value, l, AnyFor(stmts, c.state))
    decreases stmts, 0
  {
    if stmts != [] {
      hide Emit, VisitsFor;
      var a := Emit(stmts[0], c, l).value;
      EmitLoop(stmts[0], c, l);
      EmitAllLoop(stmts[1..], c, a.loop);
      AnyForSplits(stmts, c.state);
    }
  }

  lemma AnyForSplits(stmts: seq<PyStmt>, state: State)
    requires stmts != []
    ensures AnyFor(stmts, state) <==> VisitsFor(stmts[0], state) || AnyFor(stmts[1..], state)
  {
    hide VisitsFor;
    assert forall i | 1 <= i < |stmts| :: stmts[i] == stmts[1..][i - 1];
    assert forall i | 0 <= i < |stmts| - 1 :: stmts[1..][i] == stmts[i + 1];
  }

  /** The loop substitution survives a body exactly when the body reaches no `for`. */
  lemma LoopKeptExactly(body: seq<PyStmt>, c: Context, l: LoopState)
    requires l.inside && EmitAll(body, c, l).Some?
    ensures EmitAll(body, c, l).value.loop == l <==> !AnyFor(body, c.state)
  {
    EmitAllLoop(body, c, l);
  }

  /** The body of a generate-for, once for every value of the variable. */
  function Unrolled(body: seq<PyStmt>, values: seq<int>, c: Context, variable: string): Option<seq<VStmt>>
    decreases |values|
  {
    if values == [] then Some([])
    else
      var a :- EmitAll(body, c, LoopState(true, variable, values[0]));
      var b :- Unrolled(body, values[1..], c, variable);
      Some(a.stmts + b)
  }

  lemma {:induction false} ForUnrolls(body: seq<PyStmt>, values: seq<int>, c: Context, l: LoopState)
    requires !AnyFor(body, c.state) && l.inside
    ensures var r := EmitFor(body, values, c, l);
            var u := Unrolled(body, values, c, l.variable);
            r.Some? == u.Some? && (r.Some? ==> r.value.stmts == u.value)
    decreases |values|
  {
    hide EmitAll;
    if values != [] {
      var l0 := LoopState(true, l.variable, values[0]);
      if EmitAll(body, c, l0).Some? {
        EmitAllLoop(body, c, l0);
        ForUnrolls(body, values[1..], c, l0);
      }
    }
  }

  lemma ThenNothing(a: Emitted, l: LoopState)
    ensures Then(a, Nothing(a.loop)) == a
    ensures Then(Nothing(l), a) == a
  {
  }

  lemma {:induction false} SingleStmt(s: PyStmt, c: Context, l: LoopState)
    ensures EmitAll([s], c, l) == Emit(s, c, l)
  {
    hide Emit;
    assert [s][1..] == [];
    if Emit(s, c, l).Some? {
      ThenNothing(Emit(s, c, l).value, l);
    }
  }

  lemma {:induction false} SingleRound(body: seq<PyStmt>, v: int, c: Context, l: LoopState)
    ensures EmitFor(body, [v], c, l) == EmitAll(body, c, l.(value := v))
  {
    hide EmitAll;
    assert [v][1..] == [];
    var r := EmitAll(body, c, l.(value := v));
    if r.Some? {
      ThenNothing(r.value, l);
    }
  }

  const InnerFor := For("j", [Num(1)], [])
  const SetX := Assign(Name("x_i_"), Num(0))
  const RawX := ConAssign(VName("x_i_", NoModifier), Constant(0, Plain, None))

  lemma {:induction false} NestedRound(c: Context, l: LoopState)
    requires c.state == MODULE && c.kind == CON && "x_i_" !in c.globals
    ensures EmitAll([InnerFor, SetX], c, l) == Some(Just(RawX, LoopState(false, "j", 0)))
  {
    var off := LoopState(false, "j", 0);
    assert Range(0, 1, 1) == [0];
    SingleRound([], 0, c, LoopState(true, "j", l.value));
    assert Emit(InnerFor, c, l) == Some(Nothing(off));
    assert EmitAssign(SetX.target, SetX.source, c, off) == Some(Just(RawX, off));
    SingleStmt(SetX, c, off);
    assert [InnerFor, SetX][1..] == [SetX];
    ThenNothing(Just(RawX, off), off);
  }

  /** In `for i: { for j: {}; x_i_ = 0 }` the marker of `i` is never filled in. */
  lemma NestedForLosesOuter(c: Context, l: LoopState)
    requires c.state == MODULE && c.kind == CON && "x_i_" !in c.globals
    ensures var r := Emit(For("i", [Num(2)], [InnerFor, SetX]), c, l);
            r.Some? && r.value.stmts == [RawX, RawX]
  {
    hide EmitAll;
    var body := [InnerFor, SetX];
    var off := LoopState(false, "j", 0);
    assert Range(0, 2, 1) == [0, 1] && [0, 1][1..] == [1];
    NestedRound(c, LoopState(true, "i", 0));
    NestedRound(c, off.(value := 1));
    SingleRound(body, 1, c, off);
    assert EmitFor(body, [0, 1], c, LoopState(true, "i", l.value)).value.stmts == [RawX] + [RawX];
  }

  // ---------------------------------------------------------------------
  // No assignment is lost
  // ---------------------------------------------------------------------

  /** The assignments in an emitted statement, at any depth. */
  function Assignments(s: VStmt): nat
    decreases s, 0
  {
    match s
    case ConAssign(_, _) => 1
    case CombAssign(_, _) => 1
    case FFAssign(_, _) => 1
    case AlwaysComb(block) => AssignmentsIn(block)
    case AlwaysFF(_, _, block) => AssignmentsIn(block)
    case IfOnly(_, thn) => AssignmentsIn(thn)
    case IfElse(_, thn, els) => AssignmentsIn(thn) + AssignmentsIn(els)
    case ForLoop(_, _, _, block) => AssignmentsIn(block)
    case Instantiate(_, _, connections, _) => AssignmentsIn(connections)
    case _ => 0
  }

  function AssignmentsIn(stmts: seq<VStmt>): nat
    decreases stmts, 0
  {
    if stmts == [] then 0 else Assignments(stmts[0]) + AssignmentsIn(stmts[1..])
  }

  /** The assignments that a statement in a module's body asks for. */
  function Requested(s: PyStmt, globals: map<string, Global>): nat
    decreases s, 0
  {
    match s
    case Assign(_, source) => if source.Call? && source.func !in Literals then 0 else 1
    case If(_, thn, els) => RequestedIn(thn, globals) + RequestedIn(els, globals)
    case WithName(context, _, body) => if context == "AlwaysComb" then RequestedIn(body, globals) else 0
    case WithCall(func, _, body) => if func == "AlwaysFF" || func == "For" then RequestedIn(body, globals) else 0
    case For(_, bounds, body) =>
      var r := RangeOf(bounds, globals);
      if r.Some? then |r.value| * RequestedIn(body, globals) else 0
    case Do(_, _) => 0
  }

  function RequestedIn(stmts: seq<PyStmt>, globals: map<string, Global>): nat
    decreases stmts, 0
  {
    if stmts == [] then 0 else Requested(stmts[0], globals) + RequestedIn(stmts[1..], globals)
  }

  lemma {:induction false} AssignmentsConcat(a: seq<VStmt>, b: seq<VStmt>)
    ensures AssignmentsIn(a + b) == AssignmentsIn(a) + AssignmentsIn(b)
    decreases a
  {
    hide Assignments;
    if a == [] {
      assert a + b == b;
    } else {
      assert (a + b)[1..] == a[1..] + b;
      AssignmentsConcat(a[1..], b);
    }
  }

  lemma OneAssignment(s: VStmt)
    ensures AssignmentsIn([s]) == Assignments(s)
  {
    hide Assignments;
    assert [s][1..] == [];
  }

  lemma {:induction false} EmitCount(s: PyStmt, c: Context, l: LoopState)
    requires Emit(s, c, l).Some?
    ensures AssignmentsIn(Emit(s, c, l).value.stmts) == if c.state == MODULE then Requested(s, c.globals) else 0
    decreases s, 1
  {
    hide EmitAll, EmitFor, CompileExpr, CompileName, CompileAll, AssignmentsIn, RequestedIn, RangeOf;
    var e := Emit(s, c, l).value;
    NoAssignment();
    if |e.stmts| == 1 {
      OneAssignment(e.stmts[0]);
    }
    match s
    case Assign(target, source) => AssignCount(target, source, c, l);
    case Do(_, _) =>
    case If(test, thn, els) =>
      EmitAllCount(thn, c, l);
      EmitAllCount(els, c, EmitAll(thn, c, l).value.loop);
      IfCount(els, c.globals);
    case WithName(context, asName, body) =>
      if c.state == MODULE {
        EmitAllCount(body, if context == "AlwaysComb" then c.(kind := COMB)
                           else if context == "Params" then c.(state := PARAM)
                           else if context == "Ports" then c.(state := PORT)
                           else c.(state := INSTANTIATION), l);
      } else if c.state == INSTANTIATION && context == "Params" {
        EmitAllCount(body, c.(state := PARAM), l);
      }
    case WithCall(func, args, body) =>
      if func == "AlwaysFF" {
        EmitAllCount(body, c.(kind := FF), l);
      } else if func == "For" {
        EmitAllCount(body, c, l);
      }
    case For(variable, bounds, body) =>
      EmitForCount(body, RangeOf(bounds, c.globals).value, c, LoopState(true, variable, l.value));
  }

  lemma NoAssignment()
    ensures AssignmentsIn([]) == 0
  {
  }

  lemma IfCount(els: seq<PyStmt>, globals: map<string, Global>)
    ensures els == [] ==> RequestedIn(els, globals) == 0
  {
  }

  lemma AssignCount(target: PyExpr, source: PyExpr, c: Context, l: LoopState)
    requires EmitAssign(target, source, c, l).Some?
    ensures var stmts := EmitAssign(target, source, c, l).value.stmts;
            if c.state == MODULE && !(source.Call? && source.func !in Literals)
            then |stmts| == 1 && Assignments(stmts[0]) == 1
            else stmts == [] || (|stmts| == 1 && Assignments(stmts[0]) == 0)
  {
    hide CompileExpr, CompileName, CompileAll;
  }

  lemma {:induction false} EmitAllCount(stmts: seq<PyStmt>, c: Context, l: LoopState)
    requires EmitAll(stmts, c, l).Some?
    ensures AssignmentsIn(EmitAll(stmts, c, l).value.stmts)
         == if c.state == MODULE then RequestedIn(stmts, c.globals) else 0
    decreases stmts, 0
  {
    hide Emit, Requested;
    if stmts != [] {
      var a := Emit(stmts[0], c, l).value;
      EmitCount(stmts[0], c, l);
      EmitAllCount(stmts[1..], c, a.loop);
      AssignmentsConcat(a.stmts, EmitAll(stmts[1..], c, a.loop).value.stmts);
    }
  }

  lemma {:induction false} EmitForCount(body: seq<PyStmt>, values: seq<int>, c: Context, l: LoopState)
    requires EmitFor(body, values, c, l).Some?
    ensures AssignmentsIn(EmitFor(body, values, c, l).value.stmts)
         == if c.state == MODULE then |values| * RequestedIn(body, c.globals) else 0
    decreases body, 1, |values|
  {
    hide EmitAll, RequestedIn;
    if values != [] {
      var a := EmitAll(body, c, l.(value := values[0])).value;
      EmitAllCount(body, c, l.(value := values[0]));
      EmitForCount(body, values[1..], c, a.loop);
      AssignmentsConcat(a.stmts, EmitFor(body, values[1..], c, a.loop).value.stmts);
      var k := RequestedIn(body, c.globals);
      assert (|values| - 1) * k + k == |values| * k;
    }
  }

  // ---------------------------------------------------------------------
  // The visitor
  // ---------------------------------------------------------------------

  class BlockBuilder {
    var block: seq<VStmt>

    constructor ()
      ensures block == []
    {
      block := [];
    }

    method Add(s: VStmt)
      modifies this
      ensures block == old(block) + [s]
    {
      block := block + [s];
    }
  }

  class VtlCompiler {
    const globals: map<string, Global>
    var state: State
    var assignKind: Kind
    var builder: BlockBuilder
    var portsBuilder: BlockBuilder
    var params: seq<Decl>
    var moduleParams: Option<seq<Decl>>
    var loop: LoopState

    function Here(): Context
      reads this
    {
      Context(globals, state, assignKind)
    }

    ghost predicate Valid()
      reads this
    {
      state == MODULE ==> builder != portsBuilder
    }

    constructor (globals: map<string, Global>)
      ensures Valid() && this.globals == globals && state == MODULE && assignKind == CON && !loop.inside
      ensures fresh(builder) && fresh(portsBuilder) && builder.block == [] && portsBuilder.block == []
    {
      this.globals := globals;
      state, assignKind := MODULE, CON;
      builder := new BlockBuilder();
      portsBuilder := new BlockBuilder();
      params, moduleParams := [], None;
      loop := LoopState(false, "", 0);
    }

    /** Everything a visit promises: the builder, the state, the assignment kind and the
        parameter list are those of before, extended by what the statement emits. */
    twostate predicate Bracketed(e: Emitted)
      reads this, builder, portsBuilder
    {
      && builder == old(builder) && portsBuilder == old(portsBuilder)
      && state == old(state) && assignKind == old(assignKind)
      && builder.block == old(builder.block) + e.stmts
      && (builder != portsBuilder ==> portsBuilder.block == old(portsBuilder.block) + e.ports)
      && params == old(params) + e.params
      && moduleParams == (if e.moduleParams.Some? then e.moduleParams else old(moduleParams))
      && loop == e.loop
    }

    /** Emits one statement into the current block. */
    method Append(e: Emitted)
      requires Valid() && e.ports == [] && e.moduleParams.None? && |e.stmts| <= 1
      modifies this, builder
      ensures Valid() && Bracketed(e)
    {
      if e.stmts != [] {
        builder.Add(e.stmts[0]);
      }
      params := params + e.params;
      loop := e.loop;
    }

    method Visit(s: PyStmt) returns (ok: bool)
      requires Valid()
      modifies this, builder, portsBuilder
      ensures ok <==> Emit(s, old(Here()), old(loop)).Some?
      ensures ok ==> Valid() && Bracketed(Emit(s, old(Here()), old(loop)).value)
      decreases s, 1
    {
      hide EmitAll, EmitFor;
      match s
      case Assign(target, source) =>
        var e := EmitAssign(target, source, Here(), loop);
        ok := e.Some?;
        if ok {
          EmitAssignSize(target, source, Here(), loop);
          Append(e.value);
        }
      case Do(func, args) =>
        var e := EmitCall(func, args, Here(), loop);
        ok := e.Some?;
        if ok {
          Append(e.value);
        }
      case If(_, _, _) =>
        ok := VisitIf(s);
      case WithName(context, _, _) =>
        if state == MODULE && context == "AlwaysComb" {
          ok := VisitAlwaysComb(s);
        } else if state == MODULE && context == "Params" {
          ok := VisitModuleParams(s);
        } else if state == MODULE && context == "Ports" {
          ok := VisitPorts(s);
        } else if state == MODULE {
          ok := VisitInstance(s);
        } else if state == INSTANTIATION && context == "Params" {
          state := PARAM;
          ok := VisitAll(s.body);
          state := INSTANTIATION;
        } else {
          ok := true;
        }
      case WithCall(func, _, _) =>
        if func == "AlwaysFF" {
          ok := VisitAlwaysFF(s);
        } else if func == "For" {
          ok := VisitForLoop(s);
        } else {
          ok := true;
        }
      case For(_, _, _) =>
        ok := VisitFor(s);
    }

    method VisitIf(s: PyStmt) returns (ok: bool)
      requires Valid() && s.If?
      modifies this, builder, portsBuilder
      ensures ok <==> Emit(s, old(Here()), old(loop)).Some?
      ensures ok ==> Valid() && Bracketed(Emit(s, old(Here()), old(loop)).value)
      decreases s, 0
    {
      hide EmitAll, EmitFor, CompileExpr;
      var cond := CompileExpr(s.test, ScopeOf(Here(), loop));
      if cond.None? {
        return false;
      }
      ghost var c, l := Here(), loop;
      var oldBuilder := builder;
      var ifBuilder := new BlockBuilder();
      builder := ifBuilder;
      ok := VisitAll(s.thn);
      if !ok {
        return;
      }
      EmitAllPorts(s.thn, c, l);
      var elseBuilder := new BlockBuilder();
      builder := elseBuilder;
      ghost var l1 := loop;
      ok := VisitAll(s.els);
      if !ok {
        return;
      }
      EmitAllPorts(s.els, c, l1);
      builder := oldBuilder;
      assert ifBuilder.block == EmitAll(s.thn, c, l).value.stmts;
      assert elseBuilder.block == EmitAll(s.els, c, l1).value.stmts;
      if s.els == [] {
        builder.Add(IfOnly(cond.value, ifBuilder.block));
      } else {
        builder.Add(IfElse(cond.value, ifBuilder.block, elseBuilder.block));
      }
    }

    method VisitAlwaysComb(s: PyStmt) returns (ok: bool)
      requires Valid() && s.WithName? && state == MODULE && s.context == "AlwaysComb"
      modifies this, builder, portsBuilder
      ensures ok <==> Emit(s, old(Here()), old(loop)).Some?
      ensures ok ==> Valid() && Bracketed(Emit(s, old(Here()), old(loop)).value)
      decreases s, 0
    {
      hide EmitAll;
      var oldBuilder, oldKind := builder, assignKind;
      var inner := new BlockBuilder();
      builder, assignKind := inner, COMB;
      ok := VisitAll(s.body);
      if !ok {
        return;
      }
      assert inner.block == EmitAll(s.body, old(Here()).(kind := COMB), old(loop)).value.stmts;
      oldBuilder.Add(AlwaysComb(inner.block));
      builder, assignKind := oldBuilder, oldKind;
    }

    method VisitModuleParams(s: PyStmt) returns (ok: bool)
      requires Valid() && s.WithName? && state == MODULE && s.context == "Params"
      modifies this, builder, portsBuilder
      ensures ok <==> Emit(s, old(Here()), old(loop)).Some?
      ensures ok ==> Valid() && Bracketed(Emit(s, old(Here()), old(loop)).value)
      decreases s, 0
    {
      hide EmitAll;
      var oldList := params;
      params, state := [], PARAM;
      ok := VisitAll(s.body);
      if !ok {
        return;
      }
      assert params == EmitAll(s.body, old(Here()).(state := PARAM), old(loop)).value.params;
      moduleParams := Some(params);
      params, state := oldList, MODULE;
    }

    method VisitPorts(s: PyStmt) returns (ok: bool)
      requires Valid() && s.WithName? && state == MODULE && s.context == "Ports"
      modifies this, builder, portsBuilder
      ensures ok <==> Emit(s, old(Here()), old(loop)).Some?
      ensures ok ==> Valid() && Bracketed(Emit(s, old(Here()), old(loop)).value)
      decreases s, 0
    {
      hide EmitAll;
      var oldBuilder := builder;
      builder, state := portsBuilder, PORT;
      ok := VisitAll(s.body);
      if !ok {
        return;
      }
      portsBuilder := builder;
      builder, state := oldBuilder, MODULE;
    }

    method VisitInstance(s: PyStmt) returns (ok: bool)
      requires Valid() && s.WithName? && state == MODULE && s.context !in {"AlwaysComb", "Params", "Ports"}
      modifies this, builder, portsBuilder
      ensures ok <==> Emit(s, old(Here()), old(loop)).Some?
      ensures ok ==> Valid() && Bracketed(Emit(s, old(Here()), old(loop)).value)
      decreases s, 0
    {
      hide EmitAll, CompileName;
      var moduleName := CompileName(Name(s.context), ScopeOf(Here(), loop));
      var name := CompileName(s.asName, ScopeOf(Here(), loop));
      if moduleName.None? || name.None? {
        return false;
      }
      var oldBuilder, oldList := builder, params;
      var connections := new BlockBuilder();
      state, builder, params := INSTANTIATION, connections, [];
      ok := VisitAll(s.body);
      if !ok {
        return;
      }
      ghost var b := EmitAll(s.body, old(Here()).(state := INSTANTIATION), old(loop)).value;
      assert connections.block == b.stmts && params == b.params;
      oldBuilder.Add(Instantiate(moduleName.value, name.value, connections.block, params));
      builder, params, state := oldBuilder, oldList, MODULE;
    }

    method VisitAlwaysFF(s: PyStmt) returns (ok: bool)
      requires Valid() && s.WithCall? && s.func == "AlwaysFF"
      modifies this, builder, portsBuilder
      ensures ok <==> Emit(s, old(Here()), old(loop)).Some?
      ensures ok ==> Valid() && Bracketed(Emit(s, old(Here()), old(loop)).value)
      decreases s, 0
    {
      hide EmitAll, CompileName;
      if |s.args| < 2 || !s.args[0].Name? {
        return false;
      }
      var trigger := CompileName(s.args[1], ScopeOf(Here(), loop));
      if trigger.None? {
        return false;
      }
      var oldBuilder, oldKind := builder, assignKind;
      ghost var l := loop;
      var inner := new BlockBuilder();
      builder, assignKind := inner, FF;
      ghost var c := Here();
      ok := VisitAll(s.body);
      if !ok {
        return;
      }
      EmitAllPorts(s.body, c, l);
      assert inner.block == EmitAll(s.body, c, l).value.stmts;
      oldBuilder.Add(AlwaysFF(s.args[0].id == "negedge", trigger.value, inner.block));
      builder, assignKind := oldBuilder, oldKind;
    }

    method VisitForLoop(s: PyStmt) returns (ok: bool)
      requires Valid() && s.WithCall? && s.func == "For"
      modifies this, builder, portsBuilder
      ensures ok <==> Emit(s, old(Here()), old(loop)).Some?
      ensures ok ==> Valid() && Bracketed(Emit(s, old(Here()), old(loop)).value)
      decreases s, 0
    {
      hide EmitAll, CompileExpr;
      if |s.args| < 3 {
        return false;
      }
      var sc := ScopeOf(Here(), loop);
      var v, start, end := CompileExpr(s.args[0], sc), CompileExpr(s.args[1], sc), CompileExpr(s.args[2], sc);
      if v.None? || start.None? || end.None? {
        return false;
      }
      var oldBuilder, oldKind := builder, assignKind;
      ghost var l := loop;
      var inner := new BlockBuilder();
      builder := inner;
      ghost var c := Here();
      ok := VisitAll(s.body);
      if !ok {
        return;
      }
      EmitAllPorts(s.body, c, l);
      assert inner.block == EmitAll(s.body, c, l).value.stmts;
      oldBuilder.Add(ForLoop(v.value, start.value, end.value, inner.block));
      builder, assignKind := oldBuilder, oldKind;
    }

    /** A generate-for, unrolled. */
    method VisitFor(s: PyStmt) returns (ok: bool)
      requires Valid() && s.For?
      modifies this, builder, portsBuilder
      ensures ok <==> Emit(s, old(Here()), old(loop)).Some?
      ensures ok ==> Valid() && Bracketed(Emit(s, old(Here()), old(loop)).value)
      decreases s, 0
    {
      hide EmitAll, EmitFor, RangeOf;
      var range := RangeOf(s.bounds, globals);
      if range.None? {
        return false;
      }
      var values := range.value;
      loop := LoopState(true, s.variable, loop.value);
      ghost var c, l, done := Here(), loop, Nothing(loop);
      EmitNoRound(s.body, values, c, l);
      for i := 0 to |values|
        invariant Valid() && Here() == c && Bracketed(done)
        invariant EmitFor(s.body, values, c, l).Some? <==> EmitFor(s.body, values[i..], c, loop).Some?
        invariant EmitFor(s.body, values[i..], c, loop).Some? ==>
                    EmitFor(s.body, values, c, l).value == Then(done, EmitFor(s.body, values[i..], c, loop).value)
      {
        EmitForAt(s.body, values, i, c, loop);
        loop := loop.(value := values[i]);
        ghost var l1 := loop;
        ok := VisitAll(s.body);
        if !ok {
          return;
        }
        ghost var e := EmitAll(s.body, c, l1).value;
        assert builder.block == old(builder.block) + (done.stmts + e.stmts);
        assert params == old(params) + (done.params + e.params);
        assert builder != portsBuilder ==> portsBuilder.block == old(portsBuilder.block) + (done.ports + e.ports);
        if EmitFor(s.body, values[i + 1..], c, loop).Some? {
          ThenAssoc(done, e, EmitFor(s.body, values[i + 1..], c, loop).value);
        }
        done := Then(done, e);
      }
      EmitNoRound(s.body, values, c, loop);
      ThenNothing(done, loop);
      loop := loop.(inside := false);
      ok := true;
    }

    method VisitAll(stmts: seq<PyStmt>) returns (ok: bool)
      requires Valid()
      modifies this, builder, portsBuilder
      ensures ok <==> EmitAll(stmts, old(Here()), old(loop)).Some?
      ensures ok ==> Valid() && Bracketed(EmitAll(stmts, old(Here()), old(loop)).value)
      decreases stmts, 0
    {
      hide Emit, EmitAll;
      ghost var c, done := Here(), Nothing(loop);
      EmitNone(stmts, c, loop);
      for i := 0 to |stmts|
        invariant Valid() && Here() == c && Bracketed(done)
        invariant EmitAll(stmts, c, old(loop)).Some? <==> EmitAll(stmts[i..], c, loop).Some?
        invariant EmitAll(stmts[i..], c, loop).Some? ==>
                    EmitAll(stmts, c, old(loop)).value == Then(done, EmitAll(stmts[i..], c, loop).value)
      {
        ghost var l, b, p, q := loop, builder.block, portsBuilder.block, params;
        EmitAllAt(stmts, i, c, l);
        ok := Visit(stmts[i]);
        if !ok {
          return;
        }
        ghost var e := Emit(stmts[i], c, l).value;
        assert builder.block == old(builder.block) + (done.stmts + e.stmts);
        assert params == old(params) + (done.params + e.params);
        assert builder != portsBuilder ==> portsBuilder.block == old(portsBuilder.block) + (done.ports + e.ports);
        if EmitAll(stmts[i + 1..], c, loop).Some? {
          ThenAssoc(done, e, EmitAll(stmts[i + 1..], c, loop).value);
        }
        done := Then(done, e);
      }
      EmitNone(stmts, c, loop);
      ThenNothing(done, loop);
      ok := true;
    }
  }

  lemma {:induction false} EmitNone(stmts: seq<PyStmt>, c: Context, l: LoopState)
    ensures EmitAll(stmts[|stmts|..], c, l) == Some(Nothing(l))
    ensures stmts[0..] == stmts
    ensures EmitAll(stmts, c, l).Some? ==> Then(Nothing(l), EmitAll(stmts, c, l).value) == EmitAll(stmts, c, l).value
  {
    assert stmts[|stmts|..] == [];
    if EmitAll(stmts, c, l).Some? {
      ThenNothing(EmitAll(stmts, c, l).value, l);
    }
  }

  lemma {:induction false} EmitAllAt(stmts: seq<PyStmt>, i: nat, c: Context, l: LoopState)
    requires i < |stmts|
    ensures var a := Emit(stmts[i], c, l);
            && (EmitAll(stmts[i..], c, l).Some? <==> a.Some? && EmitAll(stmts[i + 1..], c, a.value.loop).Some?)
            && (EmitAll(stmts[i..], c, l).Some? ==>
                  EmitAll(stmts[i..], c, l).value == Then(a.value, EmitAll(stmts[i + 1..], c, a.value.loop).value))
  {
    assert stmts[i..][0] == stmts[i] && stmts[i..][1..] == stmts[i + 1..];
  }

  lemma {:induction false} EmitNoRound(body: seq<PyStmt>, values: seq<int>, c: Context, l: LoopState)
    ensures EmitFor(body, values[|values|..], c, l) == Some(Nothing(l))
    ensures values[0..] == values
    ensures EmitFor(body, values, c, l).Some? ==>
              Then(Nothing(l), EmitFor(body, values, c, l).value) == EmitFor(body, values, c, l).value
  {
    assert values[|values|..] == [];
    if EmitFor(body, values, c, l).Some? {
      ThenNothing(EmitFor(body, values, c, l).value, l);
    }
  }

  lemma {:induction false} EmitForAt(body: seq<PyStmt>, values: seq<int>, i: nat, c: Context, l: LoopState)
    requires i < |values|
    ensures var a, r := EmitAll(body, c, l.(value := values[i])), EmitFor(body, values[i..], c, l);
            && (r.Some? <==> a.Some? && EmitFor(body, values[i + 1..], c, a.value.loop).Some?)
            && (r.Some? ==> r.value == Then(a.value, EmitFor(body, values[i + 1..], c, a.value.loop).value))
  {
    hide EmitAll;
    assert values[i..][0] == values[i] && values[i..][1..] == values[i + 1..];
  }

  lemma EmitAllPorts(stmts: seq<PyStmt>, c: Context, l: LoopState)
    requires EmitAll(stmts, c, l).Some?
    ensures c.state != MODULE ==> EmitAll(stmts, c, l).value.ports == []
  {
    EmitAllKinded(stmts, c, l);
  }

  lemma EmitAssignSize(target: PyExpr, value: PyExpr, c: Context, l: LoopState)
    requires EmitAssign(target, value, c, l).Some?
    ensures var e := EmitAssign(target, value, c, l).value;
            e.ports == [] && e.moduleParams.None? && |e.stmts| <= 1
  {
    hide CompileExpr, CompileName, CompileAll;
  }

  lemma ThenAssoc(a: Emitted, b: Emitted, c: Emitted)
    ensures Then(Then(a, b), c) == Then(a, Then(b, c))
  {
  }
}
