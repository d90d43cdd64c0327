/**
 A precedence grammar for WHERE expressions and their three-valued meaning. From loosest
 to tightest: OR (and `||` where the dialect reads it so), XOR, AND, NOT, then one
 predicate. A predicate is opaque here: operands and infix operators in turn, where an
 operand may be any CASE expression, whose parts are expressions again.
 */
module SqlGrammar {
  import opened SqlTokens

  datatype Expr =
    | OrOp(l: Expr, op: Tok, r: Expr)
    | XorOp(l: Expr, op: Tok, r: Expr)
    | AndOp(l: Expr, op: Tok, r: Expr)
    | NotOp(op: Tok, e: Expr)
    | Paren(open: Tok, e: Expr, close: Tok)
    | Opaque(parts: Parts)

  datatype Parts = Nil | Cons(head: Part, tail: Parts)

  datatype Part =
    | Value(t: Tok)
    | Name(first: Tok, path: Path)
    | Infix(t: Tok)
    | Group(open: Tok, inner: seq<Tok>, close: Tok)
    | Case(kw: Tok, arms: Arms)
    | CaseOn(kw: Tok, subject: Expr, arms: Arms)

  /** `.name` repeated. */
  datatype Path = Here | Dot(dot: Tok, name: Tok, rest: Path)

  datatype Arms =
    | End(end: Tok)
    | Else(kw: Tok, e: Expr, end: Tok)
    | When(kw: Tok, cond: Expr, then_: Tok, e: Expr, rest: Arms)

  // ---------------------------------------------------------------- spelling

  function Toks(e: Expr): seq<Tok> {
    match e
    case OrOp(l, op, r) => Toks(l) + [op] + Toks(r)
    case XorOp(l, op, r) => Toks(l) + [op] + Toks(r)
    case AndOp(l, op, r) => Toks(l) + [op] + Toks(r)
    case NotOp(op, x) => [op] + Toks(x)
    case Paren(open, x, close) => [open] + Toks(x) + [close]
    case Opaque(ps) => PartsToks(ps)
  }

  function PartsToks(ps: Parts): seq<Tok> {
    match ps
    case Nil => []
    case Cons(p, rest) => PartToks(p) + PartsToks(rest)
  }

  function PartToks(p: Part): seq<Tok> {
    match p
    case Value(t) => [t]
    case Name(first, path) => [first] + PathToks(path)
    case Infix(t) => [t]
    case Group(open, inner, close) => [open] + inner + [close]
    case Case(kw, arms) => [kw] + ArmsToks(arms)
    case CaseOn(kw, subject, arms) => [kw] + Toks(subject) + ArmsToks(arms)
  }

  function PathToks(p: Path): seq<Tok> {
    match p
    case Here => []
    case Dot(dot, name, rest) => [dot, name] + PathToks(rest)
  }

  function ArmsToks(a: Arms): seq<Tok> {
    match a
    case End(end) => [end]
    case Else(kw, e, end) => [kw] + Toks(e) + [end]
    case When(kw, cond, thn, e, rest) => [kw] + Toks(cond) + [thn] + Toks(e) + ArmsToks(rest)
  }

  // ---------------------------------------------------------------- well-formedness

  function Level(e: Expr): nat {
    match e
    case OrOp(_, _, _) => 0
    case XorOp(_, _, _) => 1
    case AndOp(_, _, _) => 2
    case NotOp(_, _) => 3
    case _ => 4
  }

  predicate IsKeyword(t: Tok, w: string) { t.kind.Ident? && Word(t) == w }

  predicate OrToken(md: Mode, t: Tok) { IsKeyword(t, "OR") || (md.pipesOr && t.kind.Operator? && t.text == "||") }

  /** Operators bind to the left; a tighter one never stands above a looser one. */
  predicate Wf(md: Mode, e: Expr) {
    match e
    case OrOp(l, op, r) => Wf(md, l) && OrToken(md, op) && Wf(md, r) && Level(r) >= 1
    case XorOp(l, op, r) => Wf(md, l) && Level(l) >= 1 && IsKeyword(op, "XOR") && Wf(md, r) && Level(r) >= 2
    case AndOp(l, op, r) => Wf(md, l) && Level(l) >= 2 && IsKeyword(op, "AND") && Wf(md, r) && Level(r) >= 3
    case NotOp(op, x) => IsKeyword(op, "NOT") && Wf(md, x) && Level(x) >= 3
    case Paren(open, x, close) => open.kind.LParen? && Wf(md, x) && close.kind.RParen?
    case Opaque(ps) => ps.Cons? && !Ambiguous(ps) && WfParts(md, ps, true)
  }

  /** A lone parenthesis and a leading NOT are read by `Paren` and `NotOp`. */
  predicate Ambiguous(ps: Parts)
    requires ps.Cons?
  {
    (ps.head.Group? && ps.tail.Nil?) || (ps.head.Infix? && IsKeyword(ps.head.t, "NOT"))
  }

  /** Operands and infix operators in turn; `operand` says that an operand comes next, the
      only place where a name may be spelled like a clause keyword. */
  predicate WfParts(md: Mode, ps: Parts, operand: bool) {
    match ps
    case Nil => !operand
    case Cons(p, rest) => WfPart(md, p, operand) && WfParts(md, rest, p.Infix?)
  }

  predicate WfPart(md: Mode, p: Part, operand: bool) {
    match p
    case Value(t) => t.kind.NumberLit? || t.kind.StringLit? || t.kind.QuotedIdent? || t.kind.ParamRef? || t.kind.PositionalParam?
    case Name(first, path) =>
      first.kind.Ident? && !Introducer(Word(first)) && (Positional(Word(first)) ==> operand) && WfPath(path)
    case Infix(t) =>
      t.kind.Cast? || (t.kind.Operator? && !(md.pipesOr && HasPipes(t.text))) ||
      (t.kind.Ident? && ((Word(t) in INFIX && Word(t) != "XOR") || Word(t) == "NOT"))
    case Group(open, inner, close) => open.kind.LParen? && Nested(inner, 0) && close.kind.RParen?
    case Case(kw, arms) => IsKeyword(kw, "CASE") && arms.When? && WfArms(md, arms)
    case CaseOn(kw, subject, arms) => IsKeyword(kw, "CASE") && Wf(md, subject) && arms.When? && WfArms(md, arms)
  }

  predicate WfPath(p: Path) {
    match p
    case Here => true
    case Dot(dot, name, rest) =>
      IsDot(dot) && (name.kind.QuotedIdent? || (name.kind.Ident? && !Introducer(Word(name)))) && WfPath(rest)
  }

  predicate WfArms(md: Mode, a: Arms) {
    match a
    case End(end) => IsKeyword(end, "END")
    case Else(kw, e, end) => IsKeyword(kw, "ELSE") && Wf(md, e) && IsKeyword(end, "END")
    case When(kw, cond, thn, e, rest) =>
      IsKeyword(kw, "WHEN") && Wf(md, cond) && IsKeyword(thn, "THEN") && Wf(md, e) && WfArms(md, rest)
  }

  /** Parentheses match; `depth` are still open. */
  predicate Nested(ts: seq<Tok>, depth: nat) {
    if ts == [] then depth == 0
    else if ts[0].kind.LParen? then Nested(ts[1..], depth + 1)
    else if ts[0].kind.RParen? then depth > 0 && Nested(ts[1..], depth - 1)
    else Nested(ts[1..], depth)
  }

  // ---------------------------------------------------------------- meaning

  datatype Truth = True | False | Unknown

  function Not3(a: Truth): Truth { match a case True => False case False => True case Unknown => Unknown }

  function And3(a: Truth, b: Truth): Truth {
    if a.False? || b.False? then False else if a.True? && b.True? then True else Unknown
  }

  function Or3(a: Truth, b: Truth): Truth { Not3(And3(Not3(a), Not3(b))) }

  function Xor3(a: Truth, b: Truth): Truth {
    if a.Unknown? || b.Unknown? then Unknown else if a == b then False else True
  }

  /** The value of one predicate on the row at hand, by its spelling. */
  type Row = seq<ConjTok> -> Truth

  function Eval(e: Expr, row: Row): Truth {
    match e
    case OrOp(l, _, r) => Or3(Eval(l, row), Eval(r, row))
    case XorOp(l, _, r) => Xor3(Eval(l, row), Eval(r, row))
    case AndOp(l, _, r) => And3(Eval(l, row), Eval(r, row))
    case NotOp(_, x) => Not3(Eval(x, row))
    case Paren(_, x, _) => Eval(x, row)
    case Opaque(ps) => row(Normal(PartsToks(ps)))
  }

  /** An OR-class operator stands outside all parentheses and CASEs. */
  predicate Loose(e: Expr) {
    match e
    case OrOp(_, _, _) => true
    case XorOp(_, _, _) => true
    case AndOp(l, _, r) => Loose(l) || Loose(r)
    case NotOp(_, x) => Loose(x)
    case _ => false
  }

  /** The top-level conjuncts, in order. */
  function Conjuncts(e: Expr): (cs: seq<Expr>)
    ensures cs != []
  {
    if e.AndOp? then Conjuncts(e.l) + Conjuncts(e.r) else [e]
  }

  lemma {:induction false} LooseByLevel(md: Mode, e: Expr)
    requires Wf(md, e)
    ensures Loose(e) <==> Level(e) < 2
  {
    match e
    case AndOp(l, _, r) =>
      LooseByLevel(md, l);
      LooseByLevel(md, r);
    case NotOp(_, x) => LooseByLevel(md, x);
    case _ =>
  }

  /** An expression is true on a row exactly when its conjuncts all are. */
  lemma {:induction false} ConjunctsDecide(e: Expr, row: Row)
    ensures Eval(e, row).True? <==> forall c <- Conjuncts(e) :: Eval(c, row).True?
  {
    if e.AndOp? {
      ConjunctsDecide(e.l, row);
      ConjunctsDecide(e.r, row);
    }
  }

  lemma And3Assoc(a: Truth, b: Truth, c: Truth)
    ensures And3(And3(a, b), c) == And3(a, And3(b, c))
    ensures And3(a, b).True? <==> a.True? && b.True?
  {
  }
}
