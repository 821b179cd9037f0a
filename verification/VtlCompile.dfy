/**
  Expression compilation.  A Verilog expression means the same as the Python
  expression it was compiled from, for every interpretation of signals, fields,
  bit selection, arithmetic and system functions.
 */
module VtlCompile {
  import opened Options
  import opened VtlSyntax
  import opened Decimal

  /** A module-level Python value, as the compiler sees it: through `str`. */
  datatype Global = GInt(n: int) | GText(s: string)

  /** The innermost generate-for: its variable and current value. */
  datatype Loop = Outside | Inside(variable: string, i: int)

  datatype Scope = Scope(globals: map<string, Global>, loop: Loop)

  // ---------------------------------------------------------------------
  // The compiler
  // ---------------------------------------------------------------------

  predicate StartsWith(s: string, p: string) {
    |p| <= |s| && s[..|p|] == p
  }

  /** Python's `str.replace`: every occurrence, left to right. */
  function Replace(s: string, pattern: string, value: string): string
    requires pattern != []
  {
    if s == [] then []
    else if StartsWith(s, pattern) then value + Replace(s[|pattern|..], pattern, value)
    else [s[0]] + Replace(s[1..], pattern, value)
  }

  function Marker(variable: string): (m: string)
    ensures m != []
  {
    "_" + variable + "_"
  }

  /** The text of a name once the loop value has been filled in. */
  function Fill(s: string, loop: Loop): string {
    match loop
    case Outside => s
    case Inside(v, i) => Replace(s, Marker(v), Decimal.Str(i))
  }

  function GlobalText(g: Global): string {
    match g
    case GInt(n) => Decimal.Str(n)
    case GText(s) => s
  }

  /** The text that stands for an unsubscripted name. */
  function NameText(id: string, sc: Scope): string {
    Fill(if id in sc.globals then GlobalText(sc.globals[id]) else id, sc.loop)
  }

  function CompileCmp(op: CmpOp): VBinOp {
    match op
    case Gt => GT
    case Lt => LT
    case NotEq => NOT_EQ
    case _ => EQ
  }

  function CompileBool(kind: BoolKind): VBinOp {
    if kind.Or? then OR else AND
  }

  function CompileArith(op: ArithOp): VBinOp {
    match op
    case Mult => MUL
    case Sub => SUB
    case Div => DIV
    case LShift => SL
    case Pow => POW
    case _ => ADD
  }

  function CompileUnary(op: UnaryKind): VUnaryOp {
    if op.Not? then NOT else COMPLEMENT
  }

  function Reverse<T>(s: seq<T>): (r: seq<T>)
    ensures |r| == |s|
  {
    if s == [] then [] else Reverse(s[1..]) + [s[0]]
  }

  /** The loop over the reversed operands: each one becomes the left operand of what was built so far. */
  function Nest(op: VBinOp, node: VExpr, rest: seq<VExpr>): VExpr
    decreases rest
  {
    if rest == [] then node else Nest(op, VBinary(op, rest[0], node), rest[1..])
  }

  /** `a.attribute.modifier = slice`: only an attribute access can take a subscript this way. */
  function Subscripted(a: VExpr, m: Modifier): Option<VExpr> {
    if a.VAttribute? && a.attribute.VName? then Some(a.(attribute := a.attribute.(modifier := m)))
    else None
  }

  function CompileName(e: PyExpr, sc: Scope): Option<VExpr>
    decreases e, 0
  {
    match e
    case Name(id) => Some(VName(NameText(id, sc), NoModifier))
    case Str(s) => Some(VString(s))
    case Index(value, index) =>
      var i :- CompileExpr(index, sc);
      if value.Name? then Some(VName(Fill(value.id, sc.loop), At(i)))
      else
        var a :- CompileName(value, sc);
        Subscripted(a, At(i))
    case Slice(value, lower, upper) =>
      var lo :- CompileExpr(lower, sc);
      var up :- CompileExpr(upper, sc);
      if value.Name? then Some(VName(Fill(value.id, sc.loop), Part(lo, up)))
      else
        var a :- CompileName(value, sc);
        Subscripted(a, Part(lo, up))
    case Attribute(value, attr) =>
      var a :- CompileName(value, sc);
      Some(VAttribute(a, VName(Fill(attr, sc.loop), NoModifier)))
    case Tuple(elts) =>
      var items :- CompileAll(elts, sc);
      Some(VSet(items))
    case _ => None
  }

  function CompileExpr(e: PyExpr, sc: Scope): Option<VExpr>
    decreases e, 1
  {
    match e
    case Num(n) => Some(Constant(n, Plain, None))
    case Compare(left, ops, comparators) =>
      if ops == [] || comparators == [] then None
      else
        var l :- CompileExpr(left, sc);
        var r :- CompileExpr(comparators[0], sc);
        Some(VBinary(CompileCmp(ops[0]), l, r))
    case BoolOp(kind, values) =>
      var vs :- CompileAll(values, sc);
      var rev := Reverse(vs);
      if |rev| < 2 then None
      else
        var op := CompileBool(kind);
        Some(Nest(op, VBinary(op, rev[1], rev[0]), rev[2..]))
    case BinOp(op, lhs, rhs) =>
      var l :- CompileExpr(lhs, sc);
      var r :- CompileExpr(rhs, sc);
      Some(VBinary(CompileArith(op), l, r))
    case UnaryOp(op, operand) =>
      var v :- CompileExpr(operand, sc);
      Some(VUnary(CompileUnary(op), v))
    case Call(func, args) =>
      if func == "d" || func == "b" || func == "h" then
        if |args| >= 2 && args[0].Num? && args[1].Num? then
          Some(Constant(args[1].n, LiteralBase(func), Some(args[0].n)))
        else None
      else if func == "Defined" then
        if |args| >= 1 && args[0].Name? then Some(DefinedConstant(args[0].id)) else None
      else
        var vs :- CompileAll(args, sc);
        Some(VCall("$" + func, vs))
    case _ => CompileName(e, sc)
  }

  function LiteralBase(func: string): Base {
    if func == "d" then DecimalBase else if func == "b" then Binary else Hexadecimal
  }

  function CompileAll(es: seq<PyExpr>, sc: Scope): (r: Option<seq<VExpr>>)
    ensures r.Some? ==> |r.value| == |es|
    decreases es, 0
  {
    if es == [] then Some([])
    else
      var v :- CompileExpr(es[0], sc);
      var vs :- CompileAll(es[1..], sc);
      Some([v] + vs)
  }

  // ---------------------------------------------------------------------
  // Meaning
  // ---------------------------------------------------------------------

  /** An arbitrary interpretation of everything the compiler does not look into. */
  datatype World = World(
    signal: string -> int,
    macro: string -> int,
    text: string -> int,
    field: (int, string) -> int,
    bit: (int, int) -> int,
    part: (int, int, int) -> int,
    concat: seq<int> -> int,
    arith: (ArithOp, int, int) -> int,
    invert: int -> int,
    literal: (Base, nat, nat) -> int,
    sys: (string, seq<int>) -> int)

  function Truth(b: bool): int {
    if b then 1 else 0
  }

  predicate Holds(op: CmpOp, a: int, b: int) {
    match op
    case Eq => a == b
    case NotEq => a != b
    case Lt => a < b
    case LtE => a <= b
    case Gt => a > b
    case GtE => a >= b
  }

  /** A comparison chain `a op0 b0 op1 b1 ...` holds when every link does. */
  predicate ChainHolds(a: int, ops: seq<CmpOp>, bs: seq<int>)
    requires |ops| == |bs|
  {
    forall i | 0 <= i < |ops| :: Link(a, ops, bs, i)
  }

  predicate Link(a: int, ops: seq<CmpOp>, bs: seq<int>, i: nat)
    requires i < |ops| == |bs|
  {
    Holds(ops[i], if i == 0 then a else bs[i - 1], bs[i])
  }

  /** An n-ary `and` asks for every operand, an n-ary `or` for some operand. */
  predicate BoolHolds(kind: BoolKind, vs: seq<int>) {
    match kind
    case And => forall i | 0 <= i < |vs| :: vs[i] != 0
    case Or => exists i | 0 <= i < |vs| :: vs[i] != 0
  }

  function UnaryMeaning(op: UnaryKind, a: int, w: World): int {
    match op
    case Invert => w.invert(a)
    case Not => Truth(a == 0)
    case USub => -a
    case UAdd => a
  }

  /** The meaning of a name in the Python text: a global constant, the loop value, or a signal. */
  function NameMeaning(id: string, sc: Scope, w: World): int {
    if id in sc.globals then
      match sc.globals[id]
      case GInt(n) => n
      case GText(s) => w.signal(Fill(s, sc.loop))
    else if sc.loop.Inside? && id == Marker(sc.loop.variable) then sc.loop.i
    else w.signal(Fill(id, sc.loop))
  }

  function Meaning(e: PyExpr, sc: Scope, w: World): int
    decreases e
  {
    match e
    case Num(n) => n
    case Str(s) => w.text(s)
    case Name(id) => NameMeaning(id, sc, w)
    case Compare(left, ops, comparators) =>
      var bs := MeaningAll(comparators, sc, w);
      Truth(|ops| == |bs| && ChainHolds(Meaning(left, sc, w), ops, bs))
    case BoolOp(kind, values) => Truth(BoolHolds(kind, MeaningAll(values, sc, w)))
    case BinOp(op, lhs, rhs) => w.arith(op, Meaning(lhs, sc, w), Meaning(rhs, sc, w))
    case UnaryOp(op, operand) => UnaryMeaning(op, Meaning(operand, sc, w), w)
    case Call(func, args) =>
      if (func == "d" || func == "b" || func == "h") && |args| >= 2 && args[0].Num? && args[1].Num? then
        w.literal(LiteralBase(func), args[0].n, args[1].n)
      else if func == "Defined" && |args| >= 1 && args[0].Name? then w.macro(args[0].id)
      else w.sys("$" + func, MeaningAll(args, sc, w))
    case Index(value, index) => w.bit(Meaning(value, sc, w), Meaning(index, sc, w))
    case Slice(value, lower, upper) =>
      w.part(Meaning(value, sc, w), Meaning(lower, sc, w), Meaning(upper, sc, w))
    case Attribute(value, attr) => w.field(Meaning(value, sc, w), Fill(attr, sc.loop))
    case Tuple(elts) => w.concat(MeaningAll(elts, sc, w))
  }

  function MeaningAll(es: seq<PyExpr>, sc: Scope, w: World): (vs: seq<int>)
    ensures |vs| == |es|
    decreases es
  {
    if es == [] then [] else [Meaning(es[0], sc, w)] + MeaningAll(es[1..], sc, w)
  }

  function VBinMeaning(op: VBinOp, a: int, b: int, w: World): int {
    match op
    case AND => Truth(a != 0 && b != 0)
    case OR => Truth(a != 0 || b != 0)
    case ADD => w.arith(Add, a, b)
    case SUB => w.arith(Sub, a, b)
    case MUL => w.arith(Mult, a, b)
    case DIV => w.arith(Div, a, b)
    case SL => w.arith(LShift, a, b)
    case POW => w.arith(Pow, a, b)
    case GT => Truth(a > b)
    case LT => Truth(a < b)
    case GT_EQ => Truth(a >= b)
    case EQ => Truth(a == b)
    case NOT_EQ => Truth(a != b)
  }

  function VUnaryMeaning(op: VUnaryOp, a: int, w: World): int {
    if op.NOT? then Truth(a == 0) else w.invert(a)
  }

  /** A Verilog word is a number or a signal. */
  function WordMeaning(s: string, w: World): int {
    if IsNumeral(s) then NumeralValue(s) else w.signal(s)
  }

  function VMeaning(v: VExpr, w: World): int
    decreases v
  {
    match v
    case Constant(value, base, width) =>
      if base.Plain? then value
      else w.literal(base, if width.Some? then width.value else 32, if value < 0 then 0 else value)
    case DefinedConstant(macro) => w.macro(macro)
    case VName(name, modifier) => Modified(WordMeaning(name, w), modifier, w)
    case VAttribute(owner, attribute) =>
      if attribute.VName? then Modified(w.field(VMeaning(owner, w), attribute.name), attribute.modifier, w)
      else 0
    case VSet(items) => w.concat(VMeaningAll(items, w))
    case VUnary(op, operand) => VUnaryMeaning(op, VMeaning(operand, w), w)
    case VBinary(op, lhs, rhs) => VBinMeaning(op, VMeaning(lhs, w), VMeaning(rhs, w), w)
    case VTrinary(c, t, f) => if VMeaning(c, w) != 0 then VMeaning(t, w) else VMeaning(f, w)
    case VCall(func, args) => w.sys(func, VMeaningAll(args, w))
    case VString(text) => w.text(text)
  }

  function Modified(a: int, m: Modifier, w: World): int
    decreases m
  {
    match m
    case NoModifier => a
    case At(i) => w.bit(a, VMeaning(i, w))
    case Part(upper, lower) => w.part(a, VMeaning(upper, w), VMeaning(lower, w))
  }

  function VMeaningAll(vs: seq<VExpr>, w: World): (r: seq<int>)
    ensures |r| == |vs|
    decreases vs
  {
    if vs == [] then [] else [VMeaning(vs[0], w)] + VMeaningAll(vs[1..], w)
  }

  // ---------------------------------------------------------------------
  // What the compiler supports
  // ---------------------------------------------------------------------

  predicate IsLetter(c: char) {
    'a' <= c <= 'z' || 'A' <= c <= 'Z' || c == '_'
  }

  predicate IsWordChar(c: char) {
    IsLetter(c) || IsDigit(c) || c == '$'
  }

  predicate AllWordChars(s: string) {
    forall i | 0 <= i < |s| :: IsWordChar(s[i])
  }

  predicate IsWord(s: string) {
    s != [] && IsLetter(s[0]) && AllWordChars(s)
  }

  predicate SupportedCmp(op: CmpOp) {
    op in {Eq, NotEq, Lt, Gt}
  }

  predicate SupportedArith(op: ArithOp) {
    op in {Add, Sub, Mult, Div, LShift, Pow}
  }

  predicate SupportedUnary(op: UnaryKind) {
    op in {Invert, Not}
  }

  predicate SupportedName(id: string, sc: Scope) {
    if id in sc.globals then
      match sc.globals[id]
      case GInt(_) => true
      case GText(s) => IsWord(Fill(s, sc.loop))
    else (sc.loop.Inside? && id == Marker(sc.loop.variable)) || IsWord(Fill(id, sc.loop))
  }

  /** What may carry a subscript: a signal, under a name that no global replaces, or a field without
      a subscript of its own. */
  predicate Subscriptable(e: PyExpr, sc: Scope) {
    (e.Name? && IsWord(Fill(e.id, sc.loop)) && NameText(e.id, sc) == Fill(e.id, sc.loop)) || e.Attribute?
  }

  predicate IsNameForm(e: PyExpr) {
    e.Name? || e.Attribute? || e.Index? || e.Slice? || e.Str? || e.Tuple?
  }

  predicate Supported(e: PyExpr, sc: Scope)
    decreases e
  {
    match e
    case Num(n) => true
    case Str(s) => '\"' !in s
    case Name(id) => SupportedName(id, sc)
    case Compare(left, ops, comparators) =>
      && |ops| == |comparators| == 1 && SupportedCmp(ops[0])
      && Supported(left, sc) && Supported(comparators[0], sc)
    case BoolOp(kind, values) => |values| >= 2 && SupportedAll(values, sc)
    case BinOp(op, lhs, rhs) => SupportedArith(op) && Supported(lhs, sc) && Supported(rhs, sc)
    case UnaryOp(op, operand) => SupportedUnary(op) && Supported(operand, sc)
    case Call(func, args) =>
      if func == "d" || func == "b" || func == "h" then |args| >= 2 && args[0].Num? && args[1].Num?
      else if func == "Defined" then |args| >= 1 && args[0].Name? && IsWord(args[0].id)
      else IsWord(func) && SupportedAll(args, sc)
    case Index(value, index) =>
      Subscriptable(value, sc) && Supported(value, sc) && Supported(index, sc)
    case Slice(value, lower, upper) =>
      Subscriptable(value, sc) && Supported(value, sc) && Supported(lower, sc) && Supported(upper, sc)
    case Attribute(value, attr) =>
      IsNameForm(value) && Supported(value, sc) && IsWord(Fill(attr, sc.loop))
    case Tuple(elts) => SupportedAll(elts, sc)
  }

  predicate SupportedAll(es: seq<PyExpr>, sc: Scope)
    decreases es
  {
    es == [] || (Supported(es[0], sc) && SupportedAll(es[1..], sc))
  }

  // ---------------------------------------------------------------------
  // Compiling keeps the meaning
  // ---------------------------------------------------------------------

  lemma {:induction false} ReplaceAbsent(s: string, pattern: string, value: string)
    requires pattern != [] && pattern[0] !in s
    ensures Replace(s, pattern, value) == s
    decreases s
  {
    if s != [] {
      assert s[0] in s;
      ReplaceAbsent(s[1..], pattern, value);
    }
  }

  lemma StrHasNoUnderscore(n: int)
    ensures '_' !in Decimal.Str(n)
  {
    var d := Digits(if n < 0 then -n else n);
    assert forall c | c in d :: IsDigit(c);
  }

  lemma {:induction false} ReplaceWhole(pattern: string, value: string)
    requires pattern != []
    ensures Replace(pattern, pattern, value) == value
  {
    assert pattern[|pattern|..] == [] && value + [] == value;
    assert StartsWith(pattern, pattern);
  }

  lemma WordIsNoNumeral(s: string)
    requires IsWord(s)
    ensures !IsNumeral(s)
  {
    assert !IsDigit(s[0]);
  }

  /** A substituted constant, the loop value and a signal all keep their meaning as text. */
  lemma NameKeepsMeaning(id: string, sc: Scope, w: World)
    requires SupportedName(id, sc)
    ensures WordMeaning(NameText(id, sc), w) == NameMeaning(id, sc, w)
  {
    if id in sc.globals && sc.globals[id].GInt? {
      var n := sc.globals[id].n;
      StrReadsBack(n);
      StrHasNoUnderscore(n);
      if sc.loop.Inside? {
        ReplaceAbsent(Decimal.Str(n), Marker(sc.loop.variable), Decimal.Str(sc.loop.i));
      }
    } else if id !in sc.globals && sc.loop.Inside? && id == Marker(sc.loop.variable) {
      ReplaceWhole(id, Decimal.Str(sc.loop.i));
      StrReadsBack(sc.loop.i);
    } else {
      WordIsNoNumeral(NameText(id, sc));
    }
  }

  ghost predicate Operands(kind: BoolKind, vs: seq<VExpr>, w: World) {
    match kind
    case And => forall i | 0 <= i < |vs| :: VMeaning(vs[i], w) != 0
    case Or => exists i | 0 <= i < |vs| :: VMeaning(vs[i], w) != 0
  }

  lemma {:induction false} NestMeaning(kind: BoolKind, node: VExpr, rest: seq<VExpr>, w: World)
    requires VMeaning(node, w) == 0 || VMeaning(node, w) == 1
    ensures VMeaning(Nest(CompileBool(kind), node, rest), w)
         == Truth(if kind.And? then VMeaning(node, w) != 0 && Operands(kind, rest, w)
                  else VMeaning(node, w) != 0 || Operands(kind, rest, w))
    decreases rest
  {
    if rest != [] {
      var next := VBinary(CompileBool(kind), rest[0], node);
      NestMeaning(kind, next, rest[1..], w);
      assert forall i | 0 <= i < |rest| - 1 :: rest[1..][i] == rest[i + 1];
      if kind.And? {
        assert Operands(kind, rest, w) <==> VMeaning(rest[0], w) != 0 && Operands(kind, rest[1..], w) by {
          assert forall i | 1 <= i < |rest| :: rest[i] == rest[1..][i - 1];
        }
      } else {
        assert Operands(kind, rest, w) <==> VMeaning(rest[0], w) != 0 || Operands(kind, rest[1..], w) by {
          assert forall i | 1 <= i < |rest| :: rest[i] == rest[1..][i - 1];
        }
      }
    }
  }

  lemma {:induction false} ReverseAt<T>(s: seq<T>, i: nat)
    requires i < |s|
    ensures Reverse(s)[i] == s[|s| - 1 - i]
    decreases s
  {
    if i < |s| - 1 {
      ReverseAt(s[1..], i);
    }
  }

  lemma {:induction false} VMeaningAt(vs: seq<VExpr>, w: World, i: nat)
    requires i < |vs|
    ensures VMeaningAll(vs, w)[i] == VMeaning(vs[i], w)
    decreases vs
  {
    if i > 0 {
      VMeaningAt(vs[1..], w, i - 1);
    }
  }

  /** The right-nested binary tree built from the reversed list asks for all, or for some,
      of the operands. */
  lemma {:induction false} FoldMeaning(kind: BoolKind, vs: seq<VExpr>, w: World)
    requires |vs| >= 2
    ensures var rev, op := Reverse(vs), CompileBool(kind);
            VMeaning(Nest(op, VBinary(op, rev[1], rev[0]), rev[2..]), w) == Truth(BoolHolds(kind, VMeaningAll(vs, w)))
  {
    var rev, op := Reverse(vs), CompileBool(kind);
    NestMeaning(kind, VBinary(op, rev[1], rev[0]), rev[2..], w);
    assert Operands(kind, rev, w) <==> BoolHolds(kind, VMeaningAll(vs, w)) by {
      forall i | 0 <= i < |vs|
        ensures VMeaningAll(vs, w)[i] == VMeaning(vs[i], w) == VMeaning(rev[|vs| - 1 - i], w)
      {
        VMeaningAt(vs, w, i);
        ReverseAt(vs, |vs| - 1 - i);
      }
      assert forall i | 0 <= i < |vs| :: VMeaning(rev[i], w) == VMeaningAll(vs, w)[|vs| - 1 - i] by {
        forall i | 0 <= i < |vs| ensures VMeaning(rev[i], w) == VMeaningAll(vs, w)[|vs| - 1 - i] {
          VMeaningAt(vs, w, |vs| - 1 - i);
          ReverseAt(vs, i);
        }
      }
    }
    assert forall i | 2 <= i < |rev| :: rev[i] == rev[2..][i - 2];
  }

  lemma SingleLink(a: int, ops: seq<CmpOp>, bs: seq<int>)
    requires |ops| == |bs| == 1
    ensures ChainHolds(a, ops, bs) <==> Holds(ops[0], a, bs[0])
  {
    assert Link(a, ops, bs, 0) <==> Holds(ops[0], a, bs[0]);
  }

  ghost predicate Keeps(e: PyExpr, r: Option<VExpr>, sc: Scope, w: World) {
    r.Some? && VMeaning(r.value, w) == Meaning(e, sc, w)
  }

  /** A subscript applies to the compiled owner. */
  lemma {:induction false} SubscriptMeaning(value: PyExpr, m: Modifier, sc: Scope, w: World)
    requires Subscriptable(value, sc) && Supported(value, sc)
    requires Keeps(value, CompileExpr(value, sc), sc, w)
    ensures value.Name? ==> VMeaning(VName(Fill(value.id, sc.loop), m), w) == Modified(Meaning(value, sc, w), m, w)
    ensures value.Attribute? ==>
              && CompileName(value, sc).Some?
              && var r := Subscripted(CompileName(value, sc).value, m);
                 r.Some? && VMeaning(r.value, w) == Modified(Meaning(value, sc, w), m, w)
  {
    if value.Name? {
      NameKeepsMeaning(value.id, sc, w);
    } else {
      var a := CompileName(value, sc).value;
      assert CompileExpr(value, sc) == Some(a);
      assert Modified(Meaning(value, sc, w), NoModifier, w) == Meaning(value, sc, w);
      assert VMeaning(a, w) == w.field(VMeaning(a.owner, w), a.attribute.name);
      var r := Subscripted(a, m).value;
      assert VMeaning(r, w) == Modified(w.field(VMeaning(r.owner, w), r.attribute.name), m, w);
    }
  }

  lemma {:induction false} CompareKeeps(e: PyExpr, sc: Scope, w: World)
    requires e.Compare? && Supported(e, sc)
    requires Keeps(e.left, CompileExpr(e.left, sc), sc, w)
    requires Keeps(e.comparators[0], CompileExpr(e.comparators[0], sc), sc, w)
    ensures Keeps(e, CompileExpr(e, sc), sc, w)
  {
    assert e.comparators[1..] == [];
    var a, b := Meaning(e.left, sc, w), Meaning(e.comparators[0], sc, w);
    assert MeaningAll(e.comparators, sc, w) == [b];
    SingleLink(a, e.ops, [b]);
  }

  lemma {:induction false} SubscriptKeeps(e: PyExpr, sc: Scope, w: World)
    requires (e.Index? || e.Slice?) && Supported(e, sc)
    requires e.Index? ==> Keeps(e.index, CompileExpr(e.index, sc), sc, w)
    requires e.Slice? ==>
               Keeps(e.lower, CompileExpr(e.lower, sc), sc, w) && Keeps(e.upper, CompileExpr(e.upper, sc), sc, w)
    requires Keeps(e.value, CompileExpr(e.value, sc), sc, w)
    ensures Keeps(e, CompileExpr(e, sc), sc, w)
  {
    if e.Index? {
      SubscriptMeaning(e.value, At(CompileExpr(e.index, sc).value), sc, w);
    } else {
      SubscriptMeaning(e.value, Part(CompileExpr(e.lower, sc).value, CompileExpr(e.upper, sc).value), sc, w);
    }
  }

  /** A list of operands keeps its meaning. */
  ghost predicate KeepsAll(es: seq<PyExpr>, sc: Scope, w: World) {
    CompileAll(es, sc).Some? && VMeaningAll(CompileAll(es, sc).value, w) == MeaningAll(es, sc, w)
  }

  lemma {:induction false} ListKeeps(e: PyExpr, sc: Scope, w: World)
    requires e.BoolOp? || e.Call? || e.Tuple?
    requires Supported(e, sc)
    requires e.BoolOp? ==> KeepsAll(e.values, sc, w)
    requires e.Call? && e.func !in {"d", "b", "h", "Defined"} ==> KeepsAll(e.args, sc, w)
    requires e.Tuple? ==> KeepsAll(e.elts, sc, w)
    ensures Keeps(e, CompileExpr(e, sc), sc, w)
  {
    hide VMeaningAll, MeaningAll;
    if e.BoolOp? {
      FoldMeaning(e.kind, CompileAll(e.values, sc).value, w);
    }
  }

  /** The compiled expression has the value of the source expression. */
  lemma {:induction false} CompileKeepsMeaning(e: PyExpr, sc: Scope, w: World)
    requires Supported(e, sc)
    ensures Keeps(e, CompileExpr(e, sc), sc, w)
    decreases e
  {
    match e
    case Num(_) =>
    case Str(_) =>
    case Name(id) =>
      NameKeepsMeaning(id, sc, w);
    case Compare(left, ops, comparators) =>
      CompileKeepsMeaning(left, sc, w);
      CompileKeepsMeaning(comparators[0], sc, w);
      CompareKeeps(e, sc, w);
    case BoolOp(kind, values) =>
      CompileAllKeepsMeaning(values, sc, w);
      ListKeeps(e, sc, w);
    case BinOp(op, lhs, rhs) =>
      CompileKeepsMeaning(lhs, sc, w);
      CompileKeepsMeaning(rhs, sc, w);
    case UnaryOp(op, operand) =>
      CompileKeepsMeaning(operand, sc, w);
    case Call(func, args) =>
      if func !in {"d", "b", "h", "Defined"} {
        CompileAllKeepsMeaning(args, sc, w);
      }
      ListKeeps(e, sc, w);
    case Index(value, index) =>
      CompileKeepsMeaning(index, sc, w);
      CompileKeepsMeaning(value, sc, w);
      SubscriptKeeps(e, sc, w);
    case Slice(value, lower, upper) =>
      CompileKeepsMeaning(lower, sc, w);
      CompileKeepsMeaning(upper, sc, w);
      CompileKeepsMeaning(value, sc, w);
      SubscriptKeeps(e, sc, w);
    case Attribute(value, attr) =>
      CompileKeepsMeaning(value, sc, w);
    case Tuple(elts) =>
      CompileAllKeepsMeaning(elts, sc, w);
      ListKeeps(e, sc, w);
  }

  lemma {:induction false} CompileAllKeepsMeaning(es: seq<PyExpr>, sc: Scope, w: World)
    requires SupportedAll(es, sc)
    ensures KeepsAll(es, sc, w)
    decreases es
  {
    if es != [] {
      CompileKeepsMeaning(es[0], sc, w);
      CompileAllKeepsMeaning(es[1..], sc, w);
      var vs := CompileAll(es, sc).value;
      assert vs[1..] == CompileAll(es[1..], sc).value;
    }
  }

  // ---------------------------------------------------------------------
  // Where it does not: the operators that fall back to a default
  // ---------------------------------------------------------------------

  lemma ComparisonsKeptExactly(op: CmpOp)
    ensures (forall a, b, w: World :: VBinMeaning(CompileCmp(op), a, b, w) == Truth(Holds(op, a, b)))
       <==> SupportedCmp(op)
  {
    var w := SomeWorld(Add);
    if op.GtE? || op.LtE? {
      assert VBinMeaning(CompileCmp(op), 0, 1, w) == 0 && VBinMeaning(CompileCmp(op), 1, 0, w) == 0;
      assert Truth(Holds(op, 0, 1)) + Truth(Holds(op, 1, 0)) == 1;
    }
  }

  /** A world whose arithmetic tells one operator from all the others. */
  function SomeWorld(op: ArithOp): World {
    World(s => 0, s => 0, s => 0, (a, f) => 0, (a, i) => 0, (a, i, j) => 0, s => 0,
          (o, a, b) => if o == op then 1 else 0, a => 5, (k, n, m) => 0, (f, s) => 0)
  }

  lemma ArithmeticKeptExactly(op: ArithOp)
    ensures (forall a, b, w: World :: VBinMeaning(CompileArith(op), a, b, w) == w.arith(op, a, b))
       <==> SupportedArith(op)
  {
    if !SupportedArith(op) {
      var w := SomeWorld(op);
      assert VBinMeaning(CompileArith(op), 0, 0, w) == 0;
      assert w.arith(op, 0, 0) == 1;
    }
  }

  lemma UnariesKeptExactly(op: UnaryKind)
    ensures (forall a, w: World :: VUnaryMeaning(CompileUnary(op), a, w) == UnaryMeaning(op, a, w))
       <==> SupportedUnary(op)
  {
    if !SupportedUnary(op) {
      var w := SomeWorld(Add);
      assert VUnaryMeaning(CompileUnary(op), 0, w) == 5;
      assert UnaryMeaning(op, 0, w) == 0;
    }
  }

  /** Values on either side of a comparison that make it true, or false. */
  function Partner(op: CmpOp, a: int, truth: bool): (b: int)
    ensures Holds(op, a, b) == truth
  {
    match op
    case Eq => if truth then a else a + 1
    case NotEq => if truth then a + 1 else a
    case Lt => if truth then a + 1 else a
    case LtE => if truth then a else a - 1
    case Gt => if truth then a - 1 else a
    case GtE => if truth then a else a + 1
  }

  /** Only the first link of a comparison chain is compiled, which is right exactly when
      there is no other link. */
  lemma ChainsKeptExactly(ops: seq<CmpOp>)
    requires ops != []
    ensures (forall a: int, bs: seq<int> | |bs| == |ops| :: ChainHolds(a, ops, bs) == Holds(ops[0], a, bs[0]))
       <==> |ops| == 1
  {
    if |ops| == 1 {
      forall a: int, bs: seq<int> | |bs| == |ops|
        ensures ChainHolds(a, ops, bs) == Holds(ops[0], a, bs[0])
      {
        SingleLink(a, ops, bs);
      }
    } else {
      var b0 := Partner(ops[0], 0, true);
      var b1 := Partner(ops[1], b0, false);
      var bs := seq(|ops|, i => if i == 0 then b0 else b1);
      assert Holds(ops[0], 0, bs[0]) && !Link(0, ops, bs, 1);
      assert !ChainHolds(0, ops, bs);
    }
  }

  /** `2 >= 1` compiles to `2 == 1`, `7 // 2` to `7 + 2`, `-1` to `~1`, and `1 < 2 < 0` to `1 < 2`. */
  lemma DefaultsTaken(sc: Scope)
    ensures var n := (k: nat) => Constant(k, Plain, None);
            && CompileExpr(Compare(Num(2), [GtE], [Num(1)]), sc) == Some(VBinary(EQ, n(2), n(1)))
            && CompileExpr(BinOp(FloorDiv, Num(7), Num(2)), sc) == Some(VBinary(ADD, n(7), n(2)))
            && CompileExpr(UnaryOp(USub, Num(1)), sc) == Some(VUnary(COMPLEMENT, n(1)))
            && CompileExpr(Compare(Num(1), [Lt, Lt], [Num(2), Num(0)]), sc) == Some(VBinary(LT, n(1), n(2)))
  {
    assert forall k: nat :: CompileExpr(Num(k), sc) == Some(Constant(k, Plain, None));
  }

  // ----- subscripts -----

  /** A subscript whose owner and indices are supported. */
  predicate SupportedParts(e: PyExpr, sc: Scope) {
    || (e.Index? && Supported(e.value, sc) && Supported(e.index, sc))
    || (e.Slice? && Supported(e.value, sc) && Supported(e.lower, sc) && Supported(e.upper, sc))
  }

  predicate SameWord(s: string, t: string) {
    s == t || (IsNumeral(s) && IsNumeral(t) && NumeralValue(s) == NumeralValue(t))
  }

  /** An unsubscripted field, or a name that stands for itself: the text of a subscripted name is
      not looked up among the globals. */
  predicate Carries(value: PyExpr, sc: Scope) {
    value.Attribute? || (value.Name? && SameWord(NameText(value.id, sc), Fill(value.id, sc.loop)))
  }

  /** The meaning of a subscript whose owner means `a`. */
  function SubscriptOf(e: PyExpr, a: int, sc: Scope, w: World): int
    requires e.Index? || e.Slice?
  {
    if e.Index? then w.bit(a, Meaning(e.index, sc, w))
    else w.part(a, Meaning(e.lower, sc, w), Meaning(e.upper, sc, w))
  }

  lemma NameSubscript(e: PyExpr, sc: Scope, w: World)
    requires SupportedParts(e, sc) && e.value.Name?
    ensures CompileExpr(e, sc).Some?
    ensures VMeaning(CompileExpr(e, sc).value, w) == SubscriptOf(e, WordMeaning(Fill(e.value.id, sc.loop), w), sc, w)
  {
    assert CompileExpr(e, sc) == CompileName(e, sc);
    if e.Index? {
      CompileKeepsMeaning(e.index, sc, w);
    } else {
      CompileKeepsMeaning(e.lower, sc, w);
      CompileKeepsMeaning(e.upper, sc, w);
    }
  }

  lemma CarriedKeeps(e: PyExpr, sc: Scope, w: World)
    requires SupportedParts(e, sc) && Carries(e.value, sc)
    ensures Keeps(e, CompileExpr(e, sc), sc, w)
  {
    if e.value.Name? {
      NameKeepsMeaning(e.value.id, sc, w);
      NameSubscript(e, sc, w);
    } else {
      CompileKeepsMeaning(e, sc, w);
    }
  }

  /** A world in which one signal has one value, and a subscript is told from its owner by `step`. */
  function Telling(signal: string, value: int, step: int): World {
    World(s => if s == signal then value else 0, s => 0, s => 0, (a, f) => 0,
          (a, i) => a + step, (a, i, j) => a + step, s => 0,
          (o, a, b) => 0, a => 0, (k, n, m) => 0, (f, s) => 0)
  }

  /** A world that tells the replaced name from the global in its place. */
  function ReplacedWorld(id: string, sc: Scope): World {
    var plain := Fill(id, sc.loop);
    if id in sc.globals && sc.globals[id].GInt? then Telling(plain, sc.globals[id].n + 1, 0)
    else Telling(NameText(id, sc), if IsNumeral(plain) then NumeralValue(plain) + 1 else 1, 0)
  }

  lemma ReplacedDiffers(id: string, sc: Scope)
    requires SupportedName(id, sc) && !SameWord(NameText(id, sc), Fill(id, sc.loop))
    ensures var w := ReplacedWorld(id, sc); WordMeaning(Fill(id, sc.loop), w) != NameMeaning(id, sc, w)
  {
    NameKeepsMeaning(id, sc, ReplacedWorld(id, sc));
    if sc.globals[id].GInt? {
      NameIsNumeral(id, sc);
    } else {
      WordIsNoNumeral(NameText(id, sc));
    }
  }

  lemma NameIsNumeral(id: string, sc: Scope)
    requires id in sc.globals && sc.globals[id].GInt?
    ensures IsNumeral(NameText(id, sc)) && NumeralValue(NameText(id, sc)) == sc.globals[id].n
  {
    var n := sc.globals[id].n;
    StrReadsBack(n);
    StrHasNoUnderscore(n);
    if sc.loop.Inside? {
      ReplaceAbsent(Decimal.Str(n), Marker(sc.loop.variable), Decimal.Str(sc.loop.i));
    }
  }

  lemma ReplacedNotKept(e: PyExpr, sc: Scope)
    requires SupportedParts(e, sc) && e.value.Name? && !Carries(e.value, sc)
    ensures !Keeps(e, CompileExpr(e, sc), sc, ReplacedWorld(e.value.id, sc))
  {
    var w := ReplacedWorld(e.value.id, sc);
    ReplacedDiffers(e.value.id, sc);
    NameSubscript(e, sc, w);
    assert Meaning(e, sc, w) == SubscriptOf(e, NameMeaning(e.value.id, sc, w), sc, w);
  }

  /** The same subscript of another owner. */
  function Onto(e: PyExpr, value: PyExpr): PyExpr
    requires e.Index? || e.Slice?
  {
    if e.Index? then Index(value, e.index) else Slice(value, e.lower, e.upper)
  }

  /** A second subscript on anything but a name replaces the first. */
  lemma SecondSubscriptReplacesFirst(outer: PyExpr, sc: Scope)
    requires (outer.Index? || outer.Slice?) && (outer.value.Index? || outer.value.Slice?)
    requires !outer.value.value.Name? && CompileExpr(outer.value, sc).Some?
    ensures CompileExpr(outer, sc) == CompileExpr(Onto(outer, outer.value.value), sc)
  {
    var inner := outer.value;
    assert CompileExpr(inner, sc) == CompileName(inner, sc);
    var once := Onto(outer, inner.value);
    assert CompileExpr(outer, sc) == CompileName(outer, sc) && CompileExpr(once, sc) == CompileName(once, sc);
  }

  lemma TwiceNotKept(e: PyExpr, sc: Scope)
    requires SupportedParts(e, sc) && (e.value.Index? || e.value.Slice?)
    ensures !Keeps(e, CompileExpr(e, sc), sc, Telling("", 0, 1))
  {
    var w := Telling("", 0, 1);
    var inner := e.value;
    CompileKeepsMeaning(inner, sc, w);
    if inner.value.Name? {
      assert CompileName(inner, sc).Some? && CompileName(inner, sc).value.VName?;
    } else {
      SecondSubscriptReplacesFirst(e, sc);
      var once := Onto(e, inner.value);
      CompileKeepsMeaning(once, sc, w);
      assert Meaning(once, sc, w) == Meaning(inner.value, sc, w) + 1;
      assert Meaning(e, sc, w) == Meaning(inner, sc, w) + 1 == Meaning(inner.value, sc, w) + 2;
    }
  }

  /** Nothing else than names, fields and their subscripts compiles with a subscript. */
  lemma OthersNotKept(e: PyExpr, sc: Scope, w: World)
    requires SupportedParts(e, sc)
    requires !e.value.Name? && !e.value.Attribute? && !e.value.Index? && !e.value.Slice?
    ensures !Keeps(e, CompileExpr(e, sc), sc, w)
  {
    assert CompileExpr(e, sc) == CompileName(e, sc) == None;
  }

  /** A subscript keeps its meaning in every world exactly when its owner carries it. */
  lemma SubscriptsKeptExactly(e: PyExpr, sc: Scope)
    requires SupportedParts(e, sc)
    ensures (forall w: World :: Keeps(e, CompileExpr(e, sc), sc, w)) <==> Carries(e.value, sc)
  {
    hide Keeps, CompileExpr, Supported, Telling;
    if Carries(e.value, sc) {
      forall w: World ensures Keeps(e, CompileExpr(e, sc), sc, w) {
        CarriedKeeps(e, sc, w);
      }
    } else if e.value.Name? {
      ReplacedNotKept(e, sc);
    } else if e.value.Index? || e.value.Slice? {
      TwiceNotKept(e, sc);
    } else {
      OthersNotKept(e, sc, Telling("", 0, 1));
    }
  }

  /** `a.f[1][2]` compiles to `a.f[2]`. */
  lemma TwiceSubscripted(sc: Scope)
    requires sc.loop.Outside? && "a" !in sc.globals
    ensures CompileExpr(Index(Index(Attribute(Name("a"), "f"), Num(1)), Num(2)), sc)
         == Some(VAttribute(VName("a", NoModifier), VName("f", At(Constant(2, Plain, None)))))
  {
    var field := Attribute(Name("a"), "f");
    assert CompileName(Name("a"), sc) == Some(VName("a", NoModifier));
    assert CompileExpr(Num(1), sc) == Some(Constant(1, Plain, None));
    assert CompileName(Index(field, Num(1)), sc).Some?;
    SecondSubscriptReplacesFirst(Index(Index(field, Num(1)), Num(2)), sc);
  }

  /** With `N = 4`, `N` compiles to `4` and `N[0]` to `N[0]`. */
  lemma GlobalNotSubscripted(sc: Scope)
    requires sc.loop.Outside? && "N" in sc.globals && sc.globals["N"] == GInt(4)
    ensures CompileExpr(Name("N"), sc) == Some(VName("4", NoModifier))
    ensures CompileExpr(Index(Name("N"), Num(0)), sc) == Some(VName("N", At(Constant(0, Plain, None))))
  {
    assert Digits(4) == "4";
    assert CompileExpr(Num(0), sc) == Some(Constant(0, Plain, None));
  }
}
