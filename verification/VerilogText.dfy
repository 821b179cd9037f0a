/**
  Printing of Verilog expressions, and a parser that recovers the expression from
  the text: the printed form is unambiguous, character by character.
 */
module VerilogText {
  import opened Options
  import opened VtlSyntax
  import opened Decimal
  import VtlCompile

  // ---------------------------------------------------------------------
  // Printing
  // ---------------------------------------------------------------------

  function OpText(op: VBinOp): string {
    match op
    case AND => "&&"
    case OR => "||"
    case ADD => "+"
    case SUB => "-"
    case GT => ">"
    case LT => "<"
    case GT_EQ => ">="
    case MUL => "*"
    case EQ => "=="
    case NOT_EQ => "!="
    case DIV => "/"
    case SL => "<<"
    case POW => "**"
  }

  function UnaryText(op: VUnaryOp): char {
    if op.COMPLEMENT? then '~' else '!'
  }

  function BaseText(b: Base): char
    requires !b.Plain?
  {
    match b
    case Binary => 'b'
    case Hexadecimal => 'h'
    case DecimalBase => 'd'
  }

  function Print(v: VExpr): string
    decreases v
  {
    match v
    case Constant(value, base, width) =>
      if base.Plain? then Decimal.Str(value)
      else (if width.Some? then Digits(width.value) else []) + "'" + [BaseText(base)] + Decimal.Str(value)
    case DefinedConstant(macro) => "`" + macro
    case VName(name, modifier) => name + PrintModifier(modifier)
    case VAttribute(owner, attribute) => Print(owner) + "." + Print(attribute)
    case VSet(items) => "{" + PrintList(items) + "}"
    case VUnary(op, operand) => "(" + [UnaryText(op)] + Print(operand) + ")"
    case VBinary(op, lhs, rhs) => "(" + Print(lhs) + " " + OpText(op) + " " + Print(rhs) + ")"
    case VTrinary(c, t, f) => "((" + Print(c) + ") ? (" + Print(t) + ") : (" + Print(f) + "))"
    case VCall(func, args) => func + "(" + PrintList(args) + ")"
    case VString(text) => "\"" + text + "\""
  }

  function PrintModifier(m: Modifier): string
    decreases m
  {
    match m
    case NoModifier => []
    case At(i) => "[" + Print(i) + "]"
    case Part(upper, lower) => "[" + Print(upper) + ":" + Print(lower) + "]"
  }

  function PrintList(vs: seq<VExpr>): string
    decreases vs
  {
    if vs == [] then []
    else if |vs| == 1 then Print(vs[0])
    else Print(vs[0]) + ", " + PrintList(vs[1..])
  }

  // ---------------------------------------------------------------------
  // Parsing
  // ---------------------------------------------------------------------

  /** The length of the longest prefix whose characters satisfy `p`. */
  function Span(p: char -> bool, s: string): (n: nat)
    ensures n <= |s|
    ensures forall i | 0 <= i < n :: p(s[i])
  {
    if s == [] || !p(s[0]) then 0 else 1 + Span(p, s[1..])
  }

  /** The text after `token`, if the text starts with it. */
  function After(token: string, s: string): (r: Option<string>)
    ensures r.Some? ==> |r.value| + |token| == |s|
  {
    if token <= s then Some(s[|token|..]) else None
  }

  function Head(s: string): char {
    if s == [] then '\0' else s[0]
  }

  function OpOf(s: string): Option<VBinOp> {
    if s == "&&" then Some(AND)
    else if s == "||" then Some(OR)
    else if s == "+" then Some(ADD)
    else if s == "-" then Some(SUB)
    else if s == ">" then Some(GT)
    else if s == "<" then Some(LT)
    else if s == ">=" then Some(GT_EQ)
    else if s == "*" then Some(MUL)
    else if s == "==" then Some(EQ)
    else if s == "!=" then Some(NOT_EQ)
    else if s == "/" then Some(DIV)
    else if s == "<<" then Some(SL)
    else if s == "**" then Some(POW)
    else None
  }

  function BaseOf(c: char): Option<Base> {
    if c == 'b' then Some(Binary)
    else if c == 'h' then Some(Hexadecimal)
    else if c == 'd' then Some(DecimalBase)
    else None
  }

  datatype Parsed<T> = Parsed(tree: T, rest: string)

  /** A parenthesised text is an expression, or a bare group as around the parts of `? :`. */
  datatype Group = Whole(e: VExpr) | Bare(e: VExpr)

  function ParseExpr(s: string): (r: Option<Parsed<VExpr>>)
    ensures r.Some? ==> |r.value.rest| < |s|
    decreases |s|, 3
  {
    var p :- ParsePrimary(s);
    ParseFields(p.tree, p.rest)
  }

  /** Field accesses after an expression. */
  function ParseFields(e: VExpr, s: string): (r: Option<Parsed<VExpr>>)
    ensures r.Some? ==> |r.value.rest| <= |s|
    decreases |s|, 2
  {
    if Head(s) != '.' then Some(Parsed(e, s))
    else
      var n := Span(VtlCompile.IsWordChar, s[1..]);
      if n == 0 then None
      else
        var m :- ParseModifier(s[1 + n..]);
        ParseFields(VAttribute(e, VName(s[1..1 + n], m.tree)), m.rest)
  }

  function ParseModifier(s: string): (r: Option<Parsed<Modifier>>)
    ensures r.Some? ==> |r.value.rest| <= |s|
    decreases |s|, 4
  {
    if Head(s) != '[' then Some(Parsed(NoModifier, s))
    else
      var i :- ParseExpr(s[1..]);
      if Head(i.rest) == ']' then Some(Parsed(At(i.tree), i.rest[1..]))
      else
        var r1 :- After(":", i.rest);
        var l :- ParseExpr(r1);
        var r2 :- After("]", l.rest);
        Some(Parsed(Part(i.tree, l.tree), r2))
  }

  /** Items separated by `, ` up to the closing character. */
  function ParseList(close: char, s: string): (r: Option<Parsed<seq<VExpr>>>)
    ensures r.Some? ==> |r.value.rest| < |s|
    decreases |s|, 4
  {
    if s != [] && s[0] == close then Some(Parsed([], s[1..]))
    else
      var i :- ParseExpr(s);
      if i.rest != [] && i.rest[0] == close then Some(Parsed([i.tree], i.rest[1..]))
      else
        var r1 :- After(", ", i.rest);
        var more :- ParseList(close, r1);
        if more.tree == [] then None else Some(Parsed([i.tree] + more.tree, more.rest))
  }

  function ParseLiteral(width: Option<nat>, s: string): (r: Option<Parsed<VExpr>>)
    ensures r.Some? ==> |r.value.rest| < |s|
  {
    var r1 :- After("'", s);
    var b :- BaseOf(Head(r1));
    if r1 == [] then None
    else
      var n := Span(IsDigit, r1[1..]);
      if n == 0 then None
      else Some(Parsed(Constant(ReadDigits(10, r1[1..1 + n]), b, width), r1[1 + n..]))
  }

  function ParsePrimary(s: string): (r: Option<Parsed<VExpr>>)
    ensures r.Some? ==> |r.value.rest| < |s|
    decreases |s|, 2
  {
    if s == [] then None
    else if s[0] == '(' then
      var g :- ParseParen(s[1..]);
      if g.tree.Whole? then Some(Parsed(g.tree.e, g.rest)) else None
    else if s[0] == '{' then
      var l :- ParseList('}', s[1..]);
      Some(Parsed(VSet(l.tree), l.rest))
    else if s[0] == '\"' then
      var n := Span(c => c != '\"', s[1..]);
      var r :- After("\"", s[1 + n..]);
      Some(Parsed(VString(s[1..1 + n]), r))
    else if s[0] == '`' then
      var n := Span(VtlCompile.IsWordChar, s[1..]);
      Some(Parsed(DefinedConstant(s[1..1 + n]), s[1 + n..]))
    else if s[0] == '-' then
      var n := Span(IsDigit, s[1..]);
      if n == 0 then None else Some(Parsed(Constant(0 - ReadDigits(10, s[1..1 + n]), Plain, None), s[1 + n..]))
    else if s[0] == '\'' then ParseLiteral(None, s)
    else if IsDigit(s[0]) then
      var n := Span(IsDigit, s);
      var value := ReadDigits(10, s[..n]);
      if Head(s[n..]) == '\'' then ParseLiteral(Some(value), s[n..])
      else Some(Parsed(Constant(value, Plain, None), s[n..]))
    else
      var n := Span(VtlCompile.IsWordChar, s);
      if n == 0 then None
      else if Head(s[n..]) == '(' then
        var l :- ParseList(')', s[n + 1..]);
        Some(Parsed(VCall(s[..n], l.tree), l.rest))
      else
        var m :- ParseModifier(s[n..]);
        Some(Parsed(VName(s[..n], m.tree), m.rest))
  }

  /** The text after an opening parenthesis, up to and including the closing one. */
  function ParseParen(s: string): (r: Option<Parsed<Group>>)
    ensures r.Some? ==> |r.value.rest| < |s|
    decreases |s|, 5
  {
    if Head(s) == '~' || Head(s) == '!' then
      var p :- ParseExpr(s[1..]);
      var r :- After(")", p.rest);
      Some(Parsed(Whole(VUnary(if s[0] == '~' then COMPLEMENT else NOT, p.tree)), r))
    else
      var g :- ParseOperand(s);
      if g.tree.Bare? then
        var r1 :- After(" ? (", g.rest);
        var t :- ParseExpr(r1);
        var r2 :- After(") : (", t.rest);
        var f :- ParseExpr(r2);
        var r3 :- After("))", f.rest);
        Some(Parsed(Whole(VTrinary(g.tree.e, t.tree, f.tree)), r3))
      else if Head(g.rest) == ')' then
        Some(Parsed(Bare(g.tree.e), g.rest[1..]))
      else
        var r1 :- After(" ", g.rest);
        var n := Span(c => c != ' ', r1);
        var op :- OpOf(r1[..n]);
        var r2 :- After(" ", r1[n..]);
        var p :- ParseExpr(r2);
        var r3 :- After(")", p.rest);
        Some(Parsed(Whole(VBinary(op, g.tree.e, p.tree)), r3))
  }

  function ParseOperand(s: string): (r: Option<Parsed<Group>>)
    ensures r.Some? ==> |r.value.rest| < |s|
    decreases |s|, 4
  {
    if Head(s) == '(' then
      var g :- ParseParen(s[1..]);
      if g.tree.Bare? then Some(g)
      else
        var p :- ParseFields(g.tree.e, g.rest);
        Some(Parsed(Whole(p.tree), p.rest))
    else
      var p :- ParseExpr(s);
      Some(Parsed(Whole(p.tree), p.rest))
  }

  // ---------------------------------------------------------------------
  // What is printed unambiguously
  // ---------------------------------------------------------------------

  /** A substituted constant prints as a number, and reads back as one. */
  predicate IsWritten(s: string) {
    IsNumeral(s) && Decimal.Str(NumeralValue(s)) == s
  }

  predicate IsCallee(s: string) {
    s != [] && (VtlCompile.IsLetter(s[0]) || s[0] == '$') && VtlCompile.AllWordChars(s)
  }

  predicate Printable(v: VExpr)
    decreases v
  {
    match v
    case Constant(value, base, width) => if base.Plain? then width.None? else value >= 0
    case DefinedConstant(macro) => VtlCompile.IsWord(macro)
    case VName(name, m) =>
      if IsNumeral(name) then m.NoModifier? && IsWritten(name)
      else VtlCompile.IsWord(name) && PrintableModifier(m)
    case VAttribute(owner, attribute) =>
      && Printable(owner)
      && attribute.VName? && VtlCompile.IsWord(attribute.name) && PrintableModifier(attribute.modifier)
    case VSet(items) => PrintableAll(items)
    case VUnary(op, operand) => Printable(operand)
    case VBinary(op, lhs, rhs) => Printable(lhs) && Printable(rhs)
    case VTrinary(c, t, f) => Printable(c) && Printable(t) && Printable(f)
    case VCall(func, args) => IsCallee(func) && PrintableAll(args)
    case VString(text) => '\"' !in text
  }

  predicate PrintableModifier(m: Modifier)
    decreases m
  {
    match m
    case NoModifier => true
    case At(i) => Printable(i)
    case Part(upper, lower) => Printable(upper) && Printable(lower)
  }

  predicate PrintableAll(vs: seq<VExpr>)
    decreases vs
  {
    vs == [] || (Printable(vs[0]) && PrintableAll(vs[1..]))
  }

  /** The expression with substituted constants seen as constants. */
  function Canon(v: VExpr): VExpr
    decreases v
  {
    match v
    case VName(name, m) =>
      if IsNumeral(name) then Constant(NumeralValue(name), Plain, None) else VName(name, CanonModifier(m))
    case VAttribute(owner, attribute) =>
      VAttribute(Canon(owner),
                 if attribute.VName? then VName(attribute.name, CanonModifier(attribute.modifier)) else attribute)
    case VSet(items) => VSet(CanonAll(items))
    case VUnary(op, operand) => VUnary(op, Canon(operand))
    case VBinary(op, lhs, rhs) => VBinary(op, Canon(lhs), Canon(rhs))
    case VTrinary(c, t, f) => VTrinary(Canon(c), Canon(t), Canon(f))
    case VCall(func, args) => VCall(func, CanonAll(args))
    case _ => v
  }

  function CanonModifier(m: Modifier): Modifier
    decreases m
  {
    match m
    case NoModifier => NoModifier
    case At(i) => At(Canon(i))
    case Part(upper, lower) => Part(Canon(upper), Canon(lower))
  }

  function CanonAll(vs: seq<VExpr>): seq<VExpr>
    decreases vs
  {
    if vs == [] then [] else [Canon(vs[0])] + CanonAll(vs[1..])
  }

  // ---------------------------------------------------------------------
  // The parser undoes the printer
  // ---------------------------------------------------------------------

  /** A text that cannot extend the expression before it, other than by a field access. */
  predicate Stops(rest: string) {
    rest == [] || (!VtlCompile.IsWordChar(rest[0]) && rest[0] !in {'[', '(', '\''})
  }

  lemma {:induction false} SpanAll(p: char -> bool, w: string, rest: string)
    requires forall i | 0 <= i < |w| :: p(w[i])
    requires rest == [] || !p(rest[0])
    ensures Span(p, w + rest) == |w|
    ensures (w + rest)[..|w|] == w && (w + rest)[|w|..] == rest
    decreases w
  {
    if w == [] {
      assert w + rest == rest;
    } else {
      assert (w + rest)[1..] == w[1..] + rest;
      SpanAll(p, w[1..], rest);
    }
  }

  lemma AfterToken(token: string, rest: string)
    ensures After(token, token + rest) == Some(rest)
  {
    assert (token + rest)[|token|..] == rest;
  }

  lemma StrChars(n: int)
    ensures Decimal.Str(n)[0] == '-' || IsDigit(Decimal.Str(n)[0])
  {
  }

  /** How a printed expression begins. */
  lemma {:induction false} PrintHead(v: VExpr)
    requires Printable(v)
    ensures Print(v) != [] && Print(v)[0] !in {')', '}', '~', '!', '.', ' '}
    decreases v
  {
    match v
    case Constant(value, base, width) => StrChars(value);
    case VAttribute(owner, _) => PrintHead(owner);
    case _ =>
  }

  /** Reading one primary and then the fields after it. */
  lemma ExprFromPrimary(s: string, e: VExpr, rest: string)
    requires ParsePrimary(s) == Some(Parsed(e, rest))
    ensures ParseExpr(s) == ParseFields(e, rest)
  {
  }

  /** An operand is read as the expression it is. */
  lemma OperandFromExpr(s: string)
    requires ParseExpr(s).Some?
    ensures ParseOperand(s) == Some(Parsed(Whole(ParseExpr(s).value.tree), ParseExpr(s).value.rest))
  {
  }

  lemma {:induction false} PlainBack(d: string, rest: string)
    requires d != [] && AllDigits(d) && Stops(rest)
    ensures ParsePrimary(d + rest) == Some(Parsed(Constant(ReadDigits(10, d), Plain, None), rest))
  {
    hide ReadDigits;
    SpanAll(IsDigit, d, rest);
    assert (d + rest)[0] == d[0];
  }

  lemma {:induction false} NegativeBack(d: string, rest: string)
    requires d != [] && AllDigits(d) && Stops(rest)
    ensures ParsePrimary("-" + (d + rest)) == Some(Parsed(Constant(0 - ReadDigits(10, d), Plain, None), rest))
  {
    hide ReadDigits;
    SpanAll(IsDigit, d, rest);
    var s := "-" + (d + rest);
    assert s[1..] == d + rest;
    SliceTail(s, 1, |d|, d, rest);
  }

  /** Cutting a text after its first `k` characters and a word. */
  lemma SliceTail(s: string, k: nat, n: nat, w: string, rest: string)
    requires k <= |s| && s[k..] == w + rest && n == |w|
    ensures k + n <= |s| && s[k..k + n] == w && s[k + n..] == rest
  {
    assert s[k..k + n] == s[k..][..n] && s[k + n..] == s[k..][n..];
  }

  lemma {:induction false} NumberBack(n: int, rest: string)
    requires Stops(rest)
    ensures ParsePrimary(Decimal.Str(n) + rest) == Some(Parsed(Constant(n, Plain, None), rest))
  {
    hide ParsePrimary, Digits, ReadDigits;
    if n < 0 {
      ReadsBack(-n);
      NegativeBack(Digits(-n), rest);
      assert Decimal.Str(n) + rest == "-" + (Digits(-n) + rest);
    } else {
      ReadsBack(n);
      PlainBack(Digits(n), rest);
    }
  }

  lemma {:induction false} LiteralBack(width: Option<nat>, base: Base, d: string, rest: string)
    requires d != [] && AllDigits(d) && Stops(rest) && !base.Plain?
    ensures ParseLiteral(width, "'" + ([BaseText(base)] + (d + rest)))
         == Some(Parsed(Constant(ReadDigits(10, d), base, width), rest))
  {
    hide ReadDigits, Span;
    var r1 := [BaseText(base)] + (d + rest);
    AfterToken("'", r1);
    assert r1[1..] == d + rest;
    SpanAll(IsDigit, d, rest);
    SliceTail(r1, 1, |d|, d, rest);
  }

  lemma {:induction false} SizedBack(d: string, lit: string)
    requires d != [] && AllDigits(d) && lit != [] && lit[0] == '\''
    ensures ParsePrimary(d + lit) == ParseLiteral(Some(ReadDigits(10, d)), lit)
  {
    hide ParseLiteral, ReadDigits;
    SpanAll(IsDigit, d, lit);
    assert (d + lit)[0] == d[0];
  }

  lemma {:induction false} UnsizedBack(lit: string)
    requires lit != [] && lit[0] == '\''
    ensures ParsePrimary(lit) == ParseLiteral(None, lit)
  {
  }

  lemma {:induction false} ConstantBack(v: VExpr, rest: string)
    requires v.Constant? && Printable(v) && Stops(rest)
    ensures ParsePrimary(Print(v) + rest) == Some(Parsed(v, rest))
  {
    hide ParsePrimary, ParseLiteral, Digits, ReadDigits;
    if v.base.Plain? {
      NumberBack(v.value, rest);
    } else {
      var d, c := Digits(v.value), [BaseText(v.base)];
      var lit := "'" + (c + (d + rest));
      ReadsBack(v.value);
      LiteralBack(v.width, v.base, d, rest);
      if v.width.None? {
        assert Print(v) + rest == lit;
        UnsizedBack(lit);
      } else {
        var n := Digits(v.width.value);
        assert (n + "'" + c + d) + rest == n + lit;
        assert Print(v) + rest == n + lit;
        ReadsBack(v.width.value);
        SizedBack(n, lit);
      }
    }
  }

  lemma {:induction false} QuotedBack(text: string, rest: string)
    requires '\"' !in text
    ensures ParsePrimary("\"" + text + "\"" + rest) == Some(Parsed(VString(text), rest))
  {
    var s := "\"" + text + "\"" + rest;
    var tail := "\"" + rest;
    assert s[1..] == text + tail;
    SpanAll(c => c != '\"', text, tail);
    SliceTail(s, 1, |text|, text, tail);
    AfterToken("\"", rest);
  }

  lemma {:induction false} MacroBack(macro: string, rest: string)
    requires VtlCompile.IsWord(macro) && Stops(rest)
    ensures ParsePrimary("`" + macro + rest) == Some(Parsed(DefinedConstant(macro), rest))
  {
    var s := "`" + macro + rest;
    assert s[1..] == macro + rest;
    SpanAll(VtlCompile.IsWordChar, macro, rest);
    SliceTail(s, 1, |macro|, macro, rest);
  }

  /** `p` reads `t` followed by `rest` as `e`. */
  ghost predicate Reads(t: string, rest: string, e: VExpr) {
    ParseExpr(t + rest) == Some(Parsed(e, rest))
  }

  lemma {:induction false} UnaryBack(op: VUnaryOp, t: string, e: VExpr, rest: string)
    requires Reads(t, ")" + rest, e)
    ensures ParsePrimary("(" + ([UnaryText(op)] + (t + (")" + rest)))) == Some(Parsed(VUnary(op, e), rest))
  {
    hide ParseExpr, ParseOperand, ParseList, ParseModifier, ParseLiteral;
    var s := [UnaryText(op)] + (t + (")" + rest));
    assert ("(" + s)[1..] == s;
    assert s[1..] == t + (")" + rest);
    AfterToken(")", rest);
    assert ParseParen(s) == Some(Parsed(Whole(VUnary(op, e)), rest));
  }

  /** The text of a binary operation after its left operand. */
  function BinaryTail(op: VBinOp, right: string, rest: string): string {
    " " + (OpText(op) + (" " + (right + (")" + rest))))
  }

  lemma {:induction false} OpBack(op: VBinOp, tail: string)
    ensures var s := OpText(op) + (" " + tail);
            var n := Span(c => c != ' ', s);
            n == |OpText(op)| && s[..n] == OpText(op) && s[n..] == " " + tail && OpOf(OpText(op)) == Some(op)
  {
    SpanAll(c => c != ' ', OpText(op), " " + tail);
  }

  lemma {:induction false} BinaryBack(op: VBinOp, tl: string, l: VExpr, tr: string, r: VExpr, rest: string)
    requires Reads(tl, BinaryTail(op, tr, rest), l) && Reads(tr, ")" + rest, r)
    requires tl != [] && tl[0] !in {'~', '!'}
    ensures ParsePrimary("(" + (tl + BinaryTail(op, tr, rest))) == Some(Parsed(VBinary(op, l, r), rest))
  {
    hide ParseExpr, ParseOperand, ParseList, ParseModifier, ParseLiteral, OpText, OpOf, Span;
    var x := tr + (")" + rest);
    var tail := BinaryTail(op, tr, rest);
    var s := tl + tail;
    assert ("(" + s)[1..] == s && s[0] == tl[0];
    OperandFromExpr(s);
    AfterToken(" ", OpText(op) + (" " + x));
    OpBack(op, x);
    AfterToken(" ", x);
    AfterToken(")", rest);
    assert ParseParen(s) == Some(Parsed(Whole(VBinary(op, l, r)), rest));
  }

  /** A parenthesised operand of `? :` is read as a bare group. */
  lemma {:induction false} BareBack(t: string, e: VExpr, rest: string)
    requires Reads(t, ")" + rest, e) && t != [] && t[0] !in {'~', '!'}
    ensures ParseOperand("(" + (t + (")" + rest))) == Some(Parsed(Bare(e), rest))
  {
    hide ParseExpr, ParseFields;
    var s := t + (")" + rest);
    assert ("(" + s)[1..] == s && s[0] == t[0];
    OperandFromExpr(s);
    assert (")" + rest)[1..] == rest;
    assert ParseParen(s) == Some(Parsed(Bare(e), rest));
  }

  function TrinaryTail(tt: string, tf: string, rest: string): string {
    " ? (" + (tt + (") : (" + (tf + ("))" + rest))))
  }

  lemma {:induction false} TrinaryBack(tc: string, c: VExpr, tt: string, t: VExpr, tf: string, f: VExpr, rest: string)
    requires Reads(tc, ")" + TrinaryTail(tt, tf, rest), c) && tc != [] && tc[0] !in {'~', '!'}
    requires Reads(tt, ") : (" + (tf + ("))" + rest)), t)
    requires Reads(tf, "))" + rest, f)
    ensures ParsePrimary("(" + ("(" + (tc + (")" + TrinaryTail(tt, tf, rest)))))
         == Some(Parsed(VTrinary(c, t, f), rest))
  {
    hide ParseExpr, ParseOperand, ParseList, ParseModifier, ParseLiteral;
    BareBack(tc, c, TrinaryTail(tt, tf, rest));
    var s := "(" + (tc + (")" + TrinaryTail(tt, tf, rest)));
    assert ("(" + s)[1..] == s;
    AfterToken(" ? (", tt + (") : (" + (tf + ("))" + rest))));
    AfterToken(") : (", tf + ("))" + rest));
    AfterToken("))", rest);
    assert ParseParen(s) == Some(Parsed(Whole(VTrinary(c, t, f)), rest));
  }

  lemma {:induction false} CallBack(func: string, targs: string, args: seq<VExpr>, rest: string)
    requires IsCallee(func)
    requires ParseList(')', targs + (")" + rest)) == Some(Parsed(args, rest))
    ensures ParsePrimary(func + ("(" + (targs + (")" + rest)))) == Some(Parsed(VCall(func, args), rest))
  {
    hide ParseList, ParseModifier, ParseLiteral, ParseParen;
    var tail := "(" + (targs + (")" + rest));
    SpanAll(VtlCompile.IsWordChar, func, tail);
    assert (func + tail)[0] == func[0];
    assert (func + tail)[|func| + 1..] == tail[1..] == targs + (")" + rest);
  }

  lemma {:induction false} SetBack(titems: string, items: seq<VExpr>, rest: string)
    requires ParseList('}', titems + ("}" + rest)) == Some(Parsed(items, rest))
    ensures ParsePrimary("{" + (titems + ("}" + rest))) == Some(Parsed(VSet(items), rest))
  {
    hide ParseList, ParseModifier, ParseLiteral, ParseParen;
    assert ("{" + (titems + ("}" + rest)))[1..] == titems + ("}" + rest);
  }

  lemma {:induction false} WordBack(name: string, tail: string, m: Modifier, rest: string)
    requires VtlCompile.IsWord(name)
    requires tail == [] || (!VtlCompile.IsWordChar(tail[0]) && tail[0] != '(')
    requires ParseModifier(tail) == Some(Parsed(m, rest))
    ensures ParsePrimary(name + tail) == Some(Parsed(VName(name, m), rest))
  {
    hide ParseList, ParseModifier, ParseLiteral, ParseParen;
    SpanAll(VtlCompile.IsWordChar, name, tail);
    assert (name + tail)[0] == name[0];
  }

  lemma {:induction false} FieldBack(e: VExpr, name: string, tail: string, m: Modifier, rest: string)
    requires VtlCompile.IsWord(name)
    requires tail == [] || !VtlCompile.IsWordChar(tail[0])
    requires ParseModifier(tail) == Some(Parsed(m, rest))
    ensures ParseFields(e, "." + (name + tail)) == ParseFields(VAttribute(e, VName(name, m)), rest)
  {
    hide ParseModifier;
    var s := "." + (name + tail);
    assert s[1..] == name + tail;
    SpanAll(VtlCompile.IsWordChar, name, tail);
    SliceTail(s, 1, |name|, name, tail);
  }

  /** Reading the printed form of `v` gives `v` back, and goes on with the fields after it. */
  lemma {:induction false} ParsesBack(v: VExpr, rest: string)
    requires Printable(v) && Stops(rest)
    ensures ParseExpr(Print(v) + rest) == ParseFields(Canon(v), rest)
    decreases v, 2
  {
    hide ParseExpr, ParsePrimary, ParseFields, ParseModifier, ParseList;
    if v.VAttribute? {
      var name, m := v.attribute.name, v.attribute.modifier;
      var tail := PrintModifier(m) + rest;
      ModifierBack(m, rest);
      ModifierStops(m, rest);
      ParsesBack(v.owner, "." + (name + tail));
      FieldBack(Canon(v.owner), name, tail, CanonModifier(m), rest);
      assert Print(v.attribute) == name + PrintModifier(m);
      FieldShape(Print(v.owner), name, PrintModifier(m), rest);
    } else {
      PrimaryBack(v, rest);
      ExprFromPrimary(Print(v) + rest, Canon(v), rest);
    }
  }

  lemma {:induction false} PrimaryBack(v: VExpr, rest: string)
    requires Printable(v) && Stops(rest) && !v.VAttribute?
    ensures ParsePrimary(Print(v) + rest) == Some(Parsed(Canon(v), rest))
    decreases v, 1
  {
    hide ParseExpr, ParsePrimary, ParseFields, ParseModifier, ParseList;
    match v
    case Constant(value, base, width) =>
      ConstantBack(v, rest);
    case DefinedConstant(macro) =>
      MacroBack(macro, rest);
    case VName(name, m) =>
      NameBack(name, m, rest);
    case VSet(items) =>
      ListBack('}', items, rest);
      SetBack(PrintList(items), CanonAll(items), rest);
      Assoc3("{", PrintList(items), "}", rest);
    case VUnary(_, _) => ParenBack(v, rest);
    case VBinary(_, _, _) => ParenBack(v, rest);
    case VTrinary(_, _, _) => ParenBack(v, rest);
    case VCall(func, args) =>
      ListBack(')', args, rest);
      CallBack(func, PrintList(args), CanonAll(args), rest);
      Assoc4(func, "(", PrintList(args), ")", rest);
    case VString(text) =>
      QuotedBack(text, rest);
  }

  lemma FieldShape(owner: string, name: string, m: string, rest: string)
    ensures (owner + "." + (name + m)) + rest == owner + ("." + (name + (m + rest)))
  {
  }

  lemma Assoc3(a: string, b: string, c: string, rest: string)
    ensures (a + b + c) + rest == a + (b + (c + rest))
  {
  }

  lemma Assoc4(a: string, b: string, c: string, d: string, rest: string)
    ensures (a + b + c + d) + rest == a + (b + (c + (d + rest)))
  {
  }

  lemma {:induction false} NameBack(name: string, m: Modifier, rest: string)
    requires Printable(VName(name, m)) && Stops(rest)
    ensures ParsePrimary(Print(VName(name, m)) + rest) == Some(Parsed(Canon(VName(name, m)), rest))
    decreases m, 5
  {
    hide ParsePrimary, ParseModifier, NumeralValue;
    if IsNumeral(name) {
      NumberBack(NumeralValue(name), rest);
      assert name + [] == name;
    } else {
      ModifierBack(m, rest);
      ModifierStops(m, rest);
      WordBack(name, PrintModifier(m) + rest, CanonModifier(m), rest);
      assert (name + PrintModifier(m)) + rest == name + (PrintModifier(m) + rest);
    }
  }

  lemma BinaryShape(l: string, op: VBinOp, r: string, rest: string)
    ensures ("(" + l + " " + OpText(op) + " " + r + ")") + rest == "(" + (l + BinaryTail(op, r, rest))
  {
    hide OpText;
    var o := OpText(op);
    assert (("(" + l + " " + o) + (" " + r + ")")) + rest == ("(" + l + " " + o) + (" " + (r + (")" + rest)));
    assert (" " + o) + (" " + (r + (")" + rest))) == BinaryTail(op, r, rest);
  }

  lemma TrinaryShape(c: string, t: string, f: string, rest: string)
    ensures ("((" + c + ") ? (" + t + ") : (" + f + "))") + rest
         == "(" + ("(" + (c + (")" + TrinaryTail(t, f, rest))))
  {
    var tail := ") : (" + (f + ("))" + rest));
    assert (("((" + c + ") ? (") + (t + ") : (" + f + "))")) + rest == ("((" + c + ") ? (") + (t + tail);
    assert (c + ") ? (") + (t + tail) == c + (")" + TrinaryTail(t, f, rest));
    assert "((" == "(" + "(";
  }

  /** The parenthesised forms. */
  lemma {:induction false} ParenBack(v: VExpr, rest: string)
    requires Printable(v) && Stops(rest) && (v.VUnary? || v.VBinary? || v.VTrinary?)
    ensures ParsePrimary(Print(v) + rest) == Some(Parsed(Canon(v), rest))
    decreases v, 0
  {
    hide ParseExpr, ParsePrimary, Reads;
    match v
    case VUnary(op, operand) =>
      Closed(operand, ")" + rest);
      UnaryBack(op, Print(operand), Canon(operand), rest);
      Assoc4("(", [UnaryText(op)], Print(operand), ")", rest);
    case VBinary(op, lhs, rhs) =>
      Closed(rhs, ")" + rest);
      Closed(lhs, BinaryTail(op, Print(rhs), rest));
      PrintHead(lhs);
      BinaryBack(op, Print(lhs), Canon(lhs), Print(rhs), Canon(rhs), rest);
      BinaryShape(Print(lhs), op, Print(rhs), rest);
    case VTrinary(c, t, f) =>
      Closed(f, "))" + rest);
      Closed(t, ") : (" + (Print(f) + ("))" + rest)));
      Closed(c, ")" + TrinaryTail(Print(t), Print(f), rest));
      PrintHead(c);
      TrinaryBack(Print(c), Canon(c), Print(t), Canon(t), Print(f), Canon(f), rest);
      TrinaryShape(Print(c), Print(t), Print(f), rest);
  }

  /** The case where no field access follows. */
  lemma {:induction false} Closed(v: VExpr, rest: string)
    requires Printable(v) && Stops(rest) && Head(rest) != '.'
    ensures Reads(Print(v), rest, Canon(v))
    decreases v, 3
  {
    hide ParseExpr, Print, Canon, Printable;
    ParsesBack(v, rest);
  }

  lemma ModifierStops(m: Modifier, rest: string)
    requires Stops(rest)
    ensures var tail := PrintModifier(m) + rest;
            tail == [] || (!VtlCompile.IsWordChar(tail[0]) && tail[0] != '(' && tail[0] != '\'')
  {
    assert m.NoModifier? ==> PrintModifier(m) + rest == rest;
  }

  lemma {:induction false} ModifierBack(m: Modifier, rest: string)
    requires PrintableModifier(m) && Stops(rest)
    ensures ParseModifier(PrintModifier(m) + rest) == Some(Parsed(CanonModifier(m), rest))
    decreases m, 4
  {
    hide ParseExpr, Print, Canon, Printable;
    match m
    case NoModifier =>
      assert PrintModifier(m) + rest == rest;
    case At(i) =>
      Closed(i, "]" + rest);
      var s := PrintModifier(m) + rest;
      assert s[1..] == Print(i) + ("]" + rest);
      assert ("]" + rest)[1..] == rest;
    case Part(upper, lower) =>
      var r1 := Print(lower) + ("]" + rest);
      Closed(lower, "]" + rest);
      Closed(upper, ":" + r1);
      var s := PrintModifier(m) + rest;
      assert s[1..] == Print(upper) + (":" + r1);
      AfterToken(":", r1);
      AfterToken("]", rest);
  }

  lemma {:induction false} ListBack(close: char, vs: seq<VExpr>, rest: string)
    requires PrintableAll(vs) && (close == ')' || close == '}')
    ensures ParseList(close, PrintList(vs) + ([close] + rest)) == Some(Parsed(CanonAll(vs), rest))
    decreases vs, 4
  {
    hide ParseExpr, Print, Canon, Printable, ParseList;
    if vs == [] {
      EmptyListBack(close, rest);
      assert [] + ([close] + rest) == [close] + rest;
    } else if |vs| == 1 {
      PrintHead(vs[0]);
      Closed(vs[0], [close] + rest);
      LastItemBack(close, Print(vs[0]), Canon(vs[0]), rest);
      assert vs[1..] == [] && CanonAll(vs) == [Canon(vs[0])];
    } else {
      var tail := PrintList(vs[1..]) + ([close] + rest);
      ListBack(close, vs[1..], rest);
      PrintHead(vs[0]);
      Closed(vs[0], ", " + tail);
      assert PrintList(vs) + ([close] + rest) == Print(vs[0]) + (", " + tail);
      NextItemBack(close, Print(vs[0]), Canon(vs[0]), CanonAll(vs[1..]), tail, rest);
    }
  }

  lemma EmptyListBack(close: char, rest: string)
    ensures ParseList(close, [close] + rest) == Some(Parsed([], rest))
  {
    assert ([close] + rest)[1..] == rest;
  }

  lemma {:induction false} LastItemBack(close: char, t: string, e: VExpr, rest: string)
    requires Reads(t, [close] + rest, e) && t != [] && t[0] != close
    ensures ParseList(close, t + ([close] + rest)) == Some(Parsed([e], rest))
  {
    hide ParseExpr;
    assert ([close] + rest)[1..] == rest;
    assert (t + ([close] + rest))[0] == t[0];
  }

  lemma {:induction false} NextItemBack(close: char, t: string, e: VExpr, es: seq<VExpr>, tail: string, rest: string)
    requires Reads(t, ", " + tail, e) && t != [] && t[0] != close && close != ','
    requires ParseList(close, tail) == Some(Parsed(es, rest)) && es != []
    ensures ParseList(close, t + (", " + tail)) == Some(Parsed([e] + es, rest))
  {
    hide ParseExpr;
    AfterToken(", ", tail);
    assert (t + (", " + tail))[0] == t[0];
  }

  /** The printed text of an expression determines the expression. */
  lemma ParseAfterPrint(v: VExpr)
    requires Printable(v)
    ensures ParseExpr(Print(v)) == Some(Parsed(Canon(v), []))
  {
    ParsesBack(v, []);
    assert Print(v) + [] == Print(v);
  }

  /** Different expressions print differently. */
  lemma PrintIsInjective(a: VExpr, b: VExpr)
    requires Printable(a) && Printable(b) && Print(a) == Print(b)
    ensures Canon(a) == Canon(b)
    ensures Canon(a) == a && Canon(b) == b ==> a == b
  {
    ParseAfterPrint(a);
    ParseAfterPrint(b);
  }

  /** Seeing substituted constants as constants changes nothing. */
  lemma {:induction false} CanonKeepsMeaning(v: VExpr, w: VtlCompile.World)
    requires Printable(v)
    ensures VtlCompile.VMeaning(Canon(v), w) == VtlCompile.VMeaning(v, w)
    decreases v
  {
    match v
    case Constant(_, _, _) =>
    case DefinedConstant(_) =>
    case VName(name, m) =>
      if !IsNumeral(name) { CanonModifierKeepsMeaning(m, VtlCompile.WordMeaning(name, w), w); }
    case VAttribute(owner, attribute) =>
      CanonKeepsMeaning(owner, w);
      CanonModifierKeepsMeaning(attribute.modifier, w.field(VtlCompile.VMeaning(owner, w), attribute.name), w);
    case VSet(items) => CanonAllKeepsMeaning(items, w);
    case VUnary(_, operand) => CanonKeepsMeaning(operand, w);
    case VBinary(_, lhs, rhs) => CanonKeepsMeaning(lhs, w); CanonKeepsMeaning(rhs, w);
    case VTrinary(c, t, f) => CanonKeepsMeaning(c, w); CanonKeepsMeaning(t, w); CanonKeepsMeaning(f, w);
    case VCall(_, args) => CanonAllKeepsMeaning(args, w);
    case VString(_) =>
  }

  lemma {:induction false} CanonModifierKeepsMeaning(m: Modifier, a: int, w: VtlCompile.World)
    requires PrintableModifier(m)
    ensures VtlCompile.Modified(a, CanonModifier(m), w) == VtlCompile.Modified(a, m, w)
    decreases m
  {
    match m
    case NoModifier =>
    case At(i) => CanonKeepsMeaning(i, w);
    case Part(upper, lower) => CanonKeepsMeaning(upper, w); CanonKeepsMeaning(lower, w);
  }

  lemma {:induction false} CanonAllKeepsMeaning(vs: seq<VExpr>, w: VtlCompile.World)
    requires PrintableAll(vs)
    ensures VtlCompile.VMeaningAll(CanonAll(vs), w) == VtlCompile.VMeaningAll(vs, w)
    decreases vs
  {
    if vs != [] {
      CanonKeepsMeaning(vs[0], w);
      CanonAllKeepsMeaning(vs[1..], w);
      assert CanonAll(vs)[1..] == CanonAll(vs[1..]);
    }
  }

  // ---------------------------------------------------------------------
  // From Python text to Verilog text
  // ---------------------------------------------------------------------

  lemma {:induction false} NestPrintable(op: VBinOp, node: VExpr, rest: seq<VExpr>)
    requires Printable(node) && forall i | 0 <= i < |rest| :: Printable(rest[i])
    ensures Printable(VtlCompile.Nest(op, node, rest))
    decreases rest
  {
    if rest != [] {
      NestPrintable(op, VBinary(op, rest[0], node), rest[1..]);
    }
  }

  lemma {:induction false} PrintableEach(vs: seq<VExpr>)
    requires PrintableAll(vs)
    ensures forall i | 0 <= i < |vs| :: Printable(vs[i])
    decreases vs
  {
    if vs != [] {
      PrintableEach(vs[1..]);
      assert forall i | 1 <= i < |vs| :: vs[i] == vs[1..][i - 1];
    }
  }

  lemma {:induction false} FoldPrintable(op: VBinOp, vs: seq<VExpr>)
    requires PrintableAll(vs) && |vs| >= 2
    ensures var rev := VtlCompile.Reverse(vs);
            Printable(VtlCompile.Nest(op, VBinary(op, rev[1], rev[0]), rev[2..]))
  {
    PrintableEach(vs);
    var rev := VtlCompile.Reverse(vs);
    forall i | 0 <= i < |rev| ensures Printable(rev[i]) {
      VtlCompile.ReverseAt(vs, i);
    }
    NestPrintable(op, VBinary(op, rev[1], rev[0]), rev[2..]);
  }

  lemma NamePrintable(id: string, sc: VtlCompile.Scope)
    requires VtlCompile.SupportedName(id, sc)
    ensures Printable(VName(VtlCompile.NameText(id, sc), NoModifier))
  {
    var text := VtlCompile.NameText(id, sc);
    if id in sc.globals && sc.globals[id].GInt? {
      var n := sc.globals[id].n;
      StrReadsBack(n);
      VtlCompile.StrHasNoUnderscore(n);
      if sc.loop.Inside? {
        VtlCompile.ReplaceAbsent(Decimal.Str(n), VtlCompile.Marker(sc.loop.variable), Decimal.Str(sc.loop.i));
      }
    } else if id !in sc.globals && sc.loop.Inside? && id == VtlCompile.Marker(sc.loop.variable) {
      VtlCompile.ReplaceWhole(id, Decimal.Str(sc.loop.i));
      StrReadsBack(sc.loop.i);
    } else {
      VtlCompile.WordIsNoNumeral(text);
    }
  }

  /** Compiled expressions are printed unambiguously. */
  lemma {:induction false} CompiledIsPrintable(e: PyExpr, sc: VtlCompile.Scope)
    requires VtlCompile.Supported(e, sc)
    requires VtlCompile.CompileExpr(e, sc).Some?
    ensures Printable(VtlCompile.CompileExpr(e, sc).value)
    decreases e
  {
    match e
    case Num(_) =>
    case Str(_) =>
    case Name(id) => NamePrintable(id, sc);
    case Compare(left, ops, comparators) =>
      CompiledIsPrintable(left, sc);
      CompiledIsPrintable(comparators[0], sc);
    case BoolOp(kind, values) =>
      CompiledAllPrintable(values, sc);
      FoldPrintable(VtlCompile.CompileBool(kind), VtlCompile.CompileAll(values, sc).value);
    case BinOp(_, lhs, rhs) => CompiledIsPrintable(lhs, sc); CompiledIsPrintable(rhs, sc);
    case UnaryOp(_, operand) => CompiledIsPrintable(operand, sc);
    case Call(func, args) =>
      if func !in {"d", "b", "h", "Defined"} { CompiledAllPrintable(args, sc); }
    case Index(value, index) =>
      CompiledIsPrintable(index, sc);
      OwnerPrintable(value, sc);
      if value.Attribute? { CompiledIsPrintable(value, sc); }
    case Slice(value, lower, upper) =>
      CompiledIsPrintable(lower, sc);
      CompiledIsPrintable(upper, sc);
      OwnerPrintable(value, sc);
      if value.Attribute? { CompiledIsPrintable(value, sc); }
    case Attribute(value, attr) => CompiledIsPrintable(value, sc);
    case Tuple(elts) => CompiledAllPrintable(elts, sc);
  }

  lemma OwnerPrintable(value: PyExpr, sc: VtlCompile.Scope)
    requires VtlCompile.Subscriptable(value, sc)
    ensures value.Name? ==> !IsNumeral(VtlCompile.Fill(value.id, sc.loop))
  {
    if value.Name? { VtlCompile.WordIsNoNumeral(VtlCompile.Fill(value.id, sc.loop)); }
  }

  lemma {:induction false} CompiledAllPrintable(es: seq<PyExpr>, sc: VtlCompile.Scope)
    requires VtlCompile.SupportedAll(es, sc)
    requires VtlCompile.CompileAll(es, sc).Some?
    ensures PrintableAll(VtlCompile.CompileAll(es, sc).value)
    decreases es
  {
    if es != [] {
      CompiledIsPrintable(es[0], sc);
      CompiledAllPrintable(es[1..], sc);
      assert VtlCompile.CompileAll(es, sc).value[1..] == VtlCompile.CompileAll(es[1..], sc).value;
    }
  }

  /** What the generated Verilog text says is what the Python expression says. */
  lemma TextKeepsMeaning(e: PyExpr, sc: VtlCompile.Scope, w: VtlCompile.World)
    requires VtlCompile.Supported(e, sc)
    ensures VtlCompile.CompileExpr(e, sc).Some?
    ensures var r := ParseExpr(Print(VtlCompile.CompileExpr(e, sc).value));
            r.Some? && r.value.rest == [] && VtlCompile.VMeaning(r.value.tree, w) == VtlCompile.Meaning(e, sc, w)
  {
    VtlCompile.CompileKeepsMeaning(e, sc, w);
    CompiledIsPrintable(e, sc);
    var v := VtlCompile.CompileExpr(e, sc).value;
    ParseAfterPrint(v);
    CanonKeepsMeaning(v, w);
  }

  function Radix(base: Base): nat {
    match base
    case Binary => 2
    case Hexadecimal => 16
    case _ => 10
  }

  /** A based literal shows decimal digits, read in its base.  The number survives exactly when the
      base is ten or the number is a single digit of the base. */
  lemma LiteralKeepsNumber(func: string, n: nat)
    requires func in {"d", "b", "h"}
    ensures ReadIn(Radix(VtlCompile.LiteralBase(func)), Decimal.Str(n)) == Some(n)
       <==> func == "d" || (func == "h" && n < 10) || (func == "b" && n < 2)
  {
    RebasedValue(Radix(VtlCompile.LiteralBase(func)), n);
  }

  /** `h(8, 31)` prints `8'h31`, which is 49. */
  lemma HexLiteralChanges(sc: VtlCompile.Scope)
    ensures var v := VtlCompile.CompileExpr(Call("h", [Num(8), Num(31)]), sc);
            v.Some? && Print(v.value) == "8'h31" && ReadIn(16, "31") == Some(49)
  {
    assert Digits(31) == "31" && Digits(8) == "8";
    assert "31"[..1] == "3" && "3"[..0] == [] && ReadIn(16, "3") == Some(3);
  }

  /** `b(4, 5)` prints `4'b5`, which is no binary number. */
  lemma BinaryLiteralBreaks(sc: VtlCompile.Scope)
    ensures var v := VtlCompile.CompileExpr(Call("b", [Num(4), Num(5)]), sc);
            v.Some? && Print(v.value) == "4'b5" && ReadIn(2, "5") == None
  {
    assert "5"[..0] == [] && Digits(5) == "5" && Digits(4) == "4";
  }
}
