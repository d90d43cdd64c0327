/**
 The scan against the grammar: `exprScan` reads every expression to its end, flags an
 OR-class operator exactly when one stands at the top level, and otherwise returns
 exactly the top-level conjuncts (internal/policy/splice.go).
 */
module ClauseReading {
  import opened Core
  import opened SqlTokens
  import opened ClauseScanning
  import opened SqlGrammar

  function Tks(ts: seq<Tok>): (els: seq<Elem>)
    ensures |els| == |ts|
  {
    seq(|ts|, i requires 0 <= i < |ts| => Tk(ts[i]))
  }

  lemma TksConcat(ts: seq<Tok>, us: seq<Tok>)
    ensures Tks(ts + us) == Tks(ts) + Tks(us)
  {
  }

  /** The scan after collecting tokens and doing nothing else. */
  function Took(st: Scan, ts: seq<Tok>, operand: bool): Scan {
    st.(cur := AppendAll(st.cur, ts),
        start := if st.start < 0 && ts != [] then ts[0].at else st.start,
        end := if ts != [] then EndOf(ts[|ts| - 1]) else st.end,
        operand := operand)
  }

  lemma TookConcat(st: Scan, ts: seq<Tok>, us: seq<Tok>, x: bool, y: bool)
    ensures Took(Took(st, ts, x), us, y) == Took(st, ts + us, y)
  {
    AppendConcat(st.cur, ts, us);
    if us == [] {
      assert ts + us == ts;
    } else {
      assert (ts + us)[|ts + us| - 1] == us[|us| - 1];
    }
    hide AppendAll;
  }

  function In(st: Scan, depth: nat): Reader { Reader(Some(st), depth, false, false) }

  /** Reading `ts` only collects it. */
  ghost predicate Takes(md: Mode, st: Scan, depth: nat, ts: seq<Tok>, st': Scan) {
    Read(md, In(st, depth), Tks(ts)) == In(st', depth)
  }

  lemma TakesThen(md: Mode, st: Scan, depth: nat, ts: seq<Tok>, st': Scan, us: seq<Tok>, st'': Scan)
    requires Takes(md, st, depth, ts, st') && Takes(md, st', depth, us, st'')
    ensures Takes(md, st, depth, ts + us, st'')
  {
    hide Read, ReadElem;
    TksConcat(ts, us);
    ReadConcat(md, In(st, depth), Tks(ts), Tks(us));
  }

  lemma TakesNone(md: Mode, st: Scan, depth: nat)
    ensures Takes(md, st, depth, [], st) && Took(st, [], st.operand) == st
  {
  }

  lemma TookOne(st: Scan, t: Tok, operand: bool)
    ensures Took(st, [t], operand) == Content(st.(operand := operand), t)
  {
    assert [t][1..] == [];
    assert AppendAll(st.cur, [t]) == AppendAll(Append(st.cur, t), []) == Append(st.cur, t);
  }

  /** A token at the clause's own depth that the scan treats as content. */
  lemma TakesTok(md: Mode, st: Scan, t: Tok)
    requires !t.kind.LParen? && !t.kind.RParen? && !t.kind.Semicolon? && !IsDot(t)
    requires StepScan(md, st, t, true, false).1 == false
    ensures Takes(md, st, 0, [t], StepScan(md, st, t, true, false).0)
  {
    hide StepScan;
    ReadOne(md, In(st, 0), Tk(t));
    assert Tks([t]) == [Tk(t)];
  }

  // ---------------------------------------------------------------- parentheses

  /** Inside parentheses everything is content. */
  lemma DeepStep(md: Mode, st: Scan, t: Tok, dotted: bool)
    ensures StepScan(md, st, t, false, dotted) == (Took(st, [t], AfterOperand(t, st.operand)), false)
  {
    TookOne(st, t, AfterOperand(t, st.operand));
    hide AfterOperand, Append;
  }

  function OperandAfter(ts: seq<Tok>, operand: bool): bool
    decreases |ts|
  {
    if ts == [] then operand else OperandAfter(ts[1..], AfterOperand(ts[0], operand))
  }

  lemma {:induction false} DeepRead(md: Mode, st: Scan, depth: nat, prevDot: bool, ts: seq<Tok>, open: nat)
    requires Nested(ts, open) && depth > open
    ensures Read(md, Reader(Some(st), depth, prevDot, false), Tks(ts)) ==
      Reader(Some(Took(st, ts, OperandAfter(ts, st.operand))), depth - open, if ts == [] then prevDot else IsDot(ts[|ts| - 1]), false)
    decreases |ts|
  {
    hide StepScan, AfterOperand, IsDot;
    if ts == [] {
      TakesNone(md, st, depth);
    } else {
      var t := ts[0];
      DeepStep(md, st, t, prevDot);
      assert Tks(ts)[0] == Tk(t) && Tks(ts)[1..] == Tks(ts[1..]);
      var st' := Took(st, [t], AfterOperand(t, st.operand));
      TookConcat(st, [t], ts[1..], AfterOperand(t, st.operand), OperandAfter(ts[1..], AfterOperand(t, st.operand)));
      assert [t] + ts[1..] == ts;
      hide Took;
      TookOperand(st, [t], AfterOperand(t, st.operand));
      DeepRead(md, st', DepthAfter(depth, t), IsDot(t), ts[1..], DepthAfter(open, t));
    }
  }

  lemma TookOperand(st: Scan, ts: seq<Tok>, operand: bool)
    ensures Took(st, ts, operand).operand == operand && Took(st, ts, operand).cases == st.cases
  {
  }

  /** A parenthesized group is one operand. */
  lemma {:induction false} GroupTakes(md: Mode, st: Scan, open: Tok, inner: seq<Tok>, close: Tok)
    requires open.kind.LParen? && Nested(inner, 0) && close.kind.RParen?
    ensures Takes(md, st, 0, [open] + inner + [close], Took(st, [open] + inner + [close], false))
  {
    hide StepScan, Nested;
    var r0 := In(st, 0);
    DeepStep(md, st, open, false);
    var st1 := Took(st, [open], true);
    ReadOne(md, r0, Tk(open));
    DeepRead(md, st1, 1, false, inner, 0);
    var x := OperandAfter(inner, true);
    var st2 := Took(st1, inner, x);
    var dot := inner != [] && IsDot(inner[|inner| - 1]);
    CloseStep(md, st2, close, dot);
    var r2 := Reader(Some(st2), 1, dot, false);
    ReadOne(md, r2, Tk(close));
    TookConcat(st, [open], inner, true, x);
    TookConcat(st, [open] + inner, [close], x, false);
    Spelled(open, inner, close);
    ReadConcat(md, r0, [Tk(open)], Tks(inner));
    ReadConcat(md, r0, [Tk(open)] + Tks(inner), [Tk(close)]);
    hide Took, Read, OperandAfter;
    TookOperand(st, [open], true);
  }

  lemma Spelled(open: Tok, inner: seq<Tok>, close: Tok)
    ensures Tks([open] + inner + [close]) == [Tk(open)] + Tks(inner) + [Tk(close)]
  {
  }

  /** The closing parenthesis is read back at the clause's own depth. */
  lemma CloseStep(md: Mode, st: Scan, close: Tok, dotted: bool)
    requires close.kind.RParen?
    ensures StepScan(md, st, close, true, dotted) == (Took(st, [close], false), false)
  {
    TookOne(st, close, false);
    hide Append;
  }

  predicate Flat(t: Tok) { !t.kind.LParen? && !t.kind.RParen? }

  predicate Cuts(t: Tok) { t.kind.Comma? || t.kind.Semicolon? }

  /** Parentheses match, and no comma or semicolon stands outside them. */
  predicate Calm(ts: seq<Tok>, depth: nat) {
    if ts == [] then depth == 0
    else !(depth == 0 && (ts[0].kind.RParen? || Cuts(ts[0]))) && Calm(ts[1..], DepthAfter(depth, ts[0]))
  }

  lemma {:induction false} CalmNested(ts: seq<Tok>, depth: nat)
    requires Calm(ts, depth)
    ensures Nested(ts, depth)
    decreases |ts|
  {
    if ts != [] {
      CalmNested(ts[1..], DepthAfter(depth, ts[0]));
    }
  }

  lemma {:induction false} CalmConcat(ts: seq<Tok>, us: seq<Tok>, depth: nat, more: nat)
    requires Calm(ts, depth) && Calm(us, more)
    ensures Calm(ts + us, depth + more)
    decreases |ts|
  {
    if ts == [] {
      assert ts + us == us;
    } else {
      assert (ts + us)[1..] == ts[1..] + us;
      CalmConcat(ts[1..], us, DepthAfter(depth, ts[0]), more);
    }
  }

  lemma CalmOne(t: Tok)
    requires Flat(t) && !Cuts(t)
    ensures Calm([t], 0)
  {
    assert [t][1..] == [];
  }

  lemma {:induction false} CalmInside(ts: seq<Tok>, close: Tok, depth: nat)
    requires Nested(ts, depth) && close.kind.RParen?
    ensures Calm(ts + [close], depth + 1)
    decreases |ts|
  {
    if ts == [] {
      assert ts + [close] == [close] && [close][1..] == [];
    } else {
      assert (ts + [close])[1..] == ts[1..] + [close];
      CalmInside(ts[1..], close, DepthAfter(depth, ts[0]));
    }
  }

  lemma {:induction false} CalmWrap(open: Tok, ts: seq<Tok>, close: Tok)
    requires open.kind.LParen? && Nested(ts, 0) && close.kind.RParen?
    ensures Calm([open] + ts + [close], 0)
  {
    assert ([open] + ts + [close])[1..] == ts + [close];
    CalmInside(ts, close, 0);
  }

  lemma {:induction false} CalmBetween(ts: seq<Tok>, op: Tok, us: seq<Tok>)
    requires Calm(ts, 0) && Flat(op) && !Cuts(op) && Calm(us, 0)
    ensures Calm(ts + [op] + us, 0)
  {
    CalmOne(op);
    CalmConcat(ts, [op], 0, 0);
    CalmConcat(ts + [op], us, 0, 0);
  }

  lemma {:induction false} ToksCalm(md: Mode, e: Expr)
    requires Wf(md, e)
    ensures Calm(Toks(e), 0)
    decreases e
  {
    hide Calm;
    match e
    case OrOp(l, op, r) =>
      ToksCalm(md, l);
      ToksCalm(md, r);
      CalmBetween(Toks(l), op, Toks(r));
    case XorOp(l, op, r) =>
      ToksCalm(md, l);
      ToksCalm(md, r);
      CalmBetween(Toks(l), op, Toks(r));
    case AndOp(l, op, r) =>
      ToksCalm(md, l);
      ToksCalm(md, r);
      CalmBetween(Toks(l), op, Toks(r));
    case NotOp(op, x) =>
      ToksCalm(md, x);
      CalmOne(op);
      CalmConcat([op], Toks(x), 0, 0);
    case Paren(open, x, close) =>
      ToksCalm(md, x);
      CalmNested(Toks(x), 0);
      CalmWrap(open, Toks(x), close);
    case Opaque(ps) => PartsCalm(md, ps, true);
  }

  lemma {:induction false} PartsCalm(md: Mode, ps: Parts, operand: bool)
    requires WfParts(md, ps, operand)
    ensures Calm(PartsToks(ps), 0)
    decreases ps
  {
    if ps.Cons? {
      PartCalm(md, ps.head, operand);
      PartsCalm(md, ps.tail, ps.head.Infix?);
      CalmConcat(PartToks(ps.head), PartsToks(ps.tail), 0, 0);
    }
  }

  lemma {:induction false} PartCalm(md: Mode, p: Part, operand: bool)
    requires WfPart(md, p, operand)
    ensures Calm(PartToks(p), 0)
    decreases p
  {
    hide Calm;
    match p
    case Value(t) => CalmOne(t);
    case Name(first, path) =>
      PathCalm(path);
      CalmOne(first);
      CalmConcat([first], PathToks(path), 0, 0);
    case Infix(t) => CalmOne(t);
    case Group(open, inner, close) => CalmWrap(open, inner, close);
    case Case(kw, arms) =>
      ArmsCalm(md, arms);
      CalmOne(kw);
      CalmConcat([kw], ArmsToks(arms), 0, 0);
    case CaseOn(kw, subject, arms) =>
      ToksCalm(md, subject);
      ArmsCalm(md, arms);
      CalmOne(kw);
      CalmConcat([kw], Toks(subject), 0, 0);
      CalmConcat([kw] + Toks(subject), ArmsToks(arms), 0, 0);
  }

  lemma {:induction false} PathCalm(p: Path)
    requires WfPath(p)
    ensures Calm(PathToks(p), 0)
  {
    if p.Dot? {
      PathCalm(p.rest);
      CalmOne(p.dot);
      CalmOne(p.name);
      CalmConcat([p.dot], [p.name], 0, 0);
      CalmConcat([p.dot] + [p.name], PathToks(p.rest), 0, 0);
      assert [p.dot] + [p.name] == [p.dot, p.name];
    } else {
      assert Calm([], 0);
    }
  }

  lemma {:induction false} ArmsCalm(md: Mode, a: Arms)
    requires WfArms(md, a)
    ensures Calm(ArmsToks(a), 0)
    decreases a
  {
    hide Calm;
    match a
    case End(end) => CalmOne(end);
    case Else(kw, e, end) =>
      ToksCalm(md, e);
      CalmOne(kw);
      CalmConcat([kw], Toks(e), 0, 0);
      CalmOne(end);
      CalmConcat([kw] + Toks(e), [end], 0, 0);
    case When(kw, cond, thn, e, rest) =>
      ToksCalm(md, cond);
      ToksCalm(md, e);
      ArmsCalm(md, rest);
      CalmOne(kw);
      CalmConcat([kw], Toks(cond), 0, 0);
      CalmBetween([kw] + Toks(cond), thn, Toks(e));
      CalmConcat([kw] + Toks(cond) + [thn] + Toks(e), ArmsToks(rest), 0, 0);
  }

  // ---------------------------------------------------------------- operands

  /** A token of the clause's own depth that is neither a boundary nor an operator of the
      top level is content. */
  lemma PlainTok(md: Mode, st: Scan, t: Tok)
    requires Flat(t) && !t.kind.Semicolon? && !IsDot(t) && Word(t) !in ARMS + {"CASE"}
    requires Word(t) == "END" ==> st.operand
    requires st.cases == 0 ==> Word(t) !in {"AND", "OR", "XOR"} && (Word(t) in Stops(md) ==> st.operand) && !LooseOr(t, false, md)
    ensures Takes(md, st, 0, [t], Took(st, [t], AfterOperand(t, st.operand)))
  {
    TookOne(st, t, AfterOperand(t, st.operand));
    PlainStep(md, st, t);
    TakesTok(md, st, t);
  }

  lemma PlainStep(md: Mode, st: Scan, t: Tok)
    requires Word(t) !in ARMS + {"CASE"} && (Word(t) == "END" ==> st.operand)
    requires st.cases == 0 ==> Word(t) !in {"AND", "OR", "XOR"} && (Word(t) in Stops(md) ==> st.operand) && !LooseOr(t, false, md)
    ensures StepScan(md, st, t, true, false) == (Content(st.(operand := AfterOperand(t, st.operand)), t), false)
  {
    hide Append, AfterOperand, LooseOr, Upper;
  }

  /** Keywords of an open CASE are content too. */
  lemma ArmTok(md: Mode, st: Scan, t: Tok)
    requires t.kind.Ident? && Word(t) in ARMS && st.cases > 0
    ensures Takes(md, st, 0, [t], Took(st, [t], true))
  {
    TookOne(st, t, true);
    ArmStep(md, st, t);
    TakesTok(md, st, t);
  }

  lemma ArmStep(md: Mode, st: Scan, t: Tok)
    requires t.kind.Ident? && Word(t) in ARMS && st.cases > 0
    ensures StepScan(md, st, t, true, false) == (Content(st.(operand := true), t), false)
  {
    hide Append, Upper;
  }

  lemma CaseTok(md: Mode, st: Scan, t: Tok)
    requires IsKeyword(t, "CASE")
    ensures Takes(md, st, 0, [t], Took(st.(cases := st.cases + 1), [t], true))
  {
    TookOne(st.(cases := st.cases + 1), t, true);
    CaseStep(md, st, t);
    TakesTok(md, st, t);
  }

  lemma CaseStep(md: Mode, st: Scan, t: Tok)
    requires IsKeyword(t, "CASE")
    ensures StepScan(md, st, t, true, false) == (Content(st.(cases := st.cases + 1, operand := true), t), false)
  {
    hide Append, Upper;
  }

  lemma EndTok(md: Mode, st: Scan, t: Tok)
    requires IsKeyword(t, "END") && st.cases > 0 && !st.operand
    ensures Takes(md, st, 0, [t], Took(st.(cases := st.cases - 1), [t], false))
  {
    TookOne(st.(cases := st.cases - 1), t, false);
    EndStep(md, st, t);
    TakesTok(md, st, t);
  }

  lemma EndStep(md: Mode, st: Scan, t: Tok)
    requires IsKeyword(t, "END") && st.cases > 0 && !st.operand
    ensures StepScan(md, st, t, true, false) == (Content(st.(cases := st.cases - 1, operand := false), t), false)
  {
    hide Append, Upper;
  }

  lemma DotStep(md: Mode, st: Scan, dot: Tok)
    requires IsDot(dot)
    ensures StepScan(md, st, dot, true, false) == (Took(st, [dot], true), false)
  {
    TookOne(st, dot, true);
    hide Append, Upper;
  }

  lemma AfterDotStep(md: Mode, st: Scan, name: Tok)
    requires name.kind.QuotedIdent? || (name.kind.Ident? && !Introducer(Word(name)))
    ensures StepScan(md, st, name, true, true) == (Took(st, [name], false), false)
  {
    TookOne(st, name, false);
    hide Append, Upper;
  }

  /** A qualified name: what follows a dot is never a keyword. */
  lemma DotName(md: Mode, st: Scan, dot: Tok, name: Tok)
    requires IsDot(dot) && (name.kind.QuotedIdent? || (name.kind.Ident? && !Introducer(Word(name))))
    ensures Takes(md, st, 0, [dot, name], Took(st, [dot, name], false))
  {
    hide StepScan, Took, Introducer, Upper;
    DotStep(md, st, dot);
    AfterDotStep(md, Took(st, [dot], true), name);
    TookConcat(st, [dot], [name], true, false);
    assert [dot] + [name] == [dot, name];
    ReadOne(md, In(st, 0), Tk(dot));
    ReadOne(md, Reader(Some(Took(st, [dot], true)), 0, true, false), Tk(name));
    ReadConcat(md, In(st, 0), [Tk(dot)], [Tk(name)]);
    assert Tks([dot, name]) == [Tk(dot)] + [Tk(name)];
    hide Read;
  }

  lemma {:induction false} PathTakes(md: Mode, st: Scan, p: Path)
    requires WfPath(p)
    ensures Takes(md, st, 0, PathToks(p), Took(st, PathToks(p), if p.Here? then st.operand else false))
    decreases p
  {
    hide Took, Takes, AppendAll;
    TakesNone(md, st, 0);
    if p.Dot? {
      var head := [p.dot, p.name];
      DotName(md, st, p.dot, p.name);
      var st1 := Took(st, head, false);
      TookOperand(st, head, false);
      PathTakes(md, st1, p.rest);
      TakesThen(md, st, 0, head, st1, PathToks(p.rest), Took(st1, PathToks(p.rest), false));
      TookConcat(st, head, PathToks(p.rest), false, false);
    }
  }

  lemma {:induction false} NameTakes(md: Mode, st: Scan, first: Tok, path: Path)
    requires WfPart(md, Name(first, path), st.operand)
    ensures Takes(md, st, 0, [first] + PathToks(path), Took(st, [first] + PathToks(path), false))
  {
    hide Took, Takes, AppendAll, Upper, PathToks, WfPath;
    PlainTok(md, st, first);
    var st1 := Took(st, [first], false);
    TookOperand(st, [first], false);
    PathTakes(md, st1, path);
    TakesThen(md, st, 0, [first], st1, PathToks(path), Took(st1, PathToks(path), false));
    TookConcat(st, [first], PathToks(path), false, false);
  }

  lemma {:induction false} ValueTakes(md: Mode, st: Scan, t: Tok)
    requires WfPart(md, Value(t), st.operand)
    ensures Takes(md, st, 0, [t], Took(st, [t], false))
  {
    hide Took, Takes, AppendAll, Upper;
    PlainTok(md, st, t);
  }

  lemma {:induction false} InfixTakes(md: Mode, st: Scan, t: Tok)
    requires WfPart(md, Infix(t), st.operand)
    ensures Takes(md, st, 0, [t], Took(st, [t], true))
  {
    hide Took, Takes, AppendAll, Upper;
    if t.kind.Ident? {
      InfixWord(md, Word(t));
    }
    hide Stops;
    PlainTok(md, st, t);
  }

  lemma InfixWord(md: Mode, w: string)
    requires (w in INFIX && w != "XOR") || w == "NOT"
    ensures w !in Stops(md) && w !in ARMS + {"CASE"} && w !in {"END", "AND", "OR", "XOR"} && Introducer(w)
  {
    if w in INFIX {
      InfixApart(w);
      InfixNoJoin(w);
    }
  }

  // ---------------------------------------------------------------- expressions

  /** Inside a CASE any expression, and at the top level a single conjunct, is content. */
  lemma {:induction false} ExprTakes(md: Mode, st: Scan, e: Expr)
    requires Wf(md, e) && (st.operand || !LeadsPositional(e)) && (st.cases > 0 || Level(e) >= 3)
    ensures Takes(md, st, 0, Toks(e), Took(st, Toks(e), false))
    decreases e, 0
  {
    hide Took, Takes, Upper, AppendAll;
    match e
    case OrOp(l, op, r) =>
      ExprTakes(md, st, l);
      ExprThen(md, st, Toks(l), op, r);
    case XorOp(l, op, r) =>
      ExprTakes(md, st, l);
      ExprThen(md, st, Toks(l), op, r);
    case AndOp(l, op, r) =>
      ExprTakes(md, st, l);
      ExprThen(md, st, Toks(l), op, r);
    case NotOp(op, x) =>
      PlainTok(md, st, op);
      var st1 := Took(st, [op], true);
      TookOperand(st, [op], true);
      ExprTakes(md, st1, x);
      TakesThen(md, st, 0, [op], st1, Toks(x), Took(st1, Toks(x), false));
      TookConcat(st, [op], Toks(x), true, false);
    case Paren(open, x, close) =>
      ToksCalm(md, x);
      CalmNested(Toks(x), 0);
      GroupTakes(md, st, open, Toks(x), close);
    case Opaque(ps) =>
      LeadsEither(md, ps, st.operand);
      PartsTake(md, st, ps);
  }

  lemma {:induction false} LeadsEither(md: Mode, ps: Parts, operand: bool)
    requires ps.Cons? && WfParts(md, ps, true) && (operand || !(ps.head.Name? && Positional(Word(ps.head.first))))
    ensures WfParts(md, ps, operand)
  {
    assert WfPart(md, ps.head, true) && WfParts(md, ps.tail, ps.head.Infix?);
    assert WfPart(md, ps.head, operand);
  }

  /** The expression begins with a name that is spelled like a clause keyword. */
  predicate LeadsPositional(e: Expr) {
    match e
    case OrOp(l, _, _) => LeadsPositional(l)
    case XorOp(l, _, _) => LeadsPositional(l)
    case AndOp(l, _, _) => LeadsPositional(l)
    case NotOp(_, _) => false
    case Paren(_, _, _) => false
    case Opaque(ps) => ps.Cons? && ps.head.Name? && Positional(Word(ps.head.first))
  }

  /** Within a CASE: a binary operator and its right operand. */
  lemma {:induction false} ExprThen(md: Mode, st: Scan, ts: seq<Tok>, op: Tok, r: Expr)
    requires Wf(md, r) && st.cases > 0
    requires OrToken(md, op) || IsKeyword(op, "XOR") || IsKeyword(op, "AND")
    requires Takes(md, st, 0, ts, Took(st, ts, false))
    ensures Takes(md, st, 0, ts + [op] + Toks(r), Took(st, ts + [op] + Toks(r), false))
    decreases r, 1
  {
    hide Took, Takes, Upper, AppendAll;
    var st1 := Took(st, ts, false);
    TookOperand(st, ts, false);
    PlainTok(md, st1, op);
    var st2 := Took(st1, [op], true);
    TookOperand(st1, [op], true);
    TakesThen(md, st, 0, ts, st1, [op], st2);
    TookConcat(st, ts, [op], false, true);
    ExprTakes(md, st2, r);
    TakesThen(md, st, 0, ts + [op], st2, Toks(r), Took(st2, Toks(r), false));
    TookConcat(st, ts + [op], Toks(r), true, false);
  }

  lemma {:induction false} PartsTake(md: Mode, st: Scan, ps: Parts)
    requires WfParts(md, ps, st.operand)
    ensures Takes(md, st, 0, PartsToks(ps), Took(st, PartsToks(ps), false))
    decreases ps
  {
    hide Took, Takes, AppendAll, WfPart;
    TakesNone(md, st, 0);
    if ps.Cons? {
      var ts, rest := PartToks(ps.head), PartsToks(ps.tail);
      PartTakes(md, st, ps.head);
      var st1 := Took(st, ts, ps.head.Infix?);
      TookOperand(st, ts, ps.head.Infix?);
      PartsTake(md, st1, ps.tail);
      TakesThen(md, st, 0, ts, st1, rest, Took(st1, rest, false));
      TookConcat(st, ts, rest, ps.head.Infix?, false);
    }
  }

  lemma {:induction false} PartTakes(md: Mode, st: Scan, p: Part)
    requires WfPart(md, p, st.operand)
    ensures Takes(md, st, 0, PartToks(p), Took(st, PartToks(p), p.Infix?))
    decreases p
  {
    hide Took, Takes, AppendAll, Upper, Introducer, Positional, Stops, LooseOr, AfterOperand;
    match p
    case Value(t) => ValueTakes(md, st, t);
    case Name(first, path) => NameTakes(md, st, first, path);
    case Infix(t) => InfixTakes(md, st, t);
    case Group(open, inner, close) => GroupTakes(md, st, open, inner, close);
    case Case(kw, arms) =>
      var st1 := Opened(st, kw);
      CaseTok(md, st, kw);
      OpenedState(st, kw);
      ArmsTake(md, st1, arms);
      CaseCloses(md, st, [kw], st1, arms);
    case CaseOn(kw, subject, arms) =>
      var st1 := Opened(st, kw);
      CaseTok(md, st, kw);
      OpenedState(st, kw);
      ExprTakes(md, st1, subject);
      var st2 := Took(st1, Toks(subject), false);
      TakesThen(md, st, 0, [kw], st1, Toks(subject), st2);
      SubjectState(st, kw, Toks(subject));
      ArmsTake(md, st2, arms);
      CaseCloses(md, st, [kw] + Toks(subject), st2, arms);
  }

  /** The scan just inside a CASE. */
  function Opened(st: Scan, kw: Tok): Scan { Took(st.(cases := st.cases + 1), [kw], true) }

  lemma OpenedState(st: Scan, kw: Tok)
    ensures Opened(st, kw).operand && Opened(st, kw).cases == st.cases + 1
    ensures Opened(st, kw) == Took(st, [kw], true).(cases := st.cases + 1)
  {
  }

  lemma SubjectState(st: Scan, kw: Tok, ts: seq<Tok>)
    ensures Took(Opened(st, kw), ts, false) == Took(st, [kw] + ts, false).(cases := st.cases + 1)
  {
    TookConcat(st.(cases := st.cases + 1), [kw], ts, true, false);
    TookConcat(st, [kw], ts, true, false);
    hide AppendAll;
  }

  /** The arms end the CASE: one nesting level less, and a value complete. */
  lemma {:induction false} CaseCloses(md: Mode, st: Scan, ts: seq<Tok>, st1: Scan, arms: Arms)
    requires Takes(md, st, 0, ts, st1) && (st1 == Took(st, ts, true).(cases := st.cases + 1) || st1 == Took(st, ts, false).(cases := st.cases + 1))
    requires Takes(md, st1, 0, ArmsToks(arms), Took(st1.(cases := st.cases), ArmsToks(arms), false))
    ensures Takes(md, st, 0, ts + ArmsToks(arms), Took(st, ts + ArmsToks(arms), false))
  {
    hide Takes, AppendAll, ArmsToks;
    TakesThen(md, st, 0, ts, st1, ArmsToks(arms), Took(st1.(cases := st.cases), ArmsToks(arms), false));
    TookConcat(st, ts, ArmsToks(arms), st1.operand, false);
  }

  lemma {:induction false} ArmsTake(md: Mode, st: Scan, a: Arms)
    requires WfArms(md, a) && st.cases > 0 && (a.End? ==> !st.operand)
    ensures Takes(md, st, 0, ArmsToks(a), Took(st.(cases := st.cases - 1), ArmsToks(a), false))
    decreases a
  {
    hide Took, Takes, AppendAll, Upper;
    match a
    case End(end) => EndTok(md, st, end);
    case Else(kw, e, end) =>
      ArmTok(md, st, kw);
      TookOperand(st, [kw], true);
      ExprTakes(md, Took(st, [kw], true), e);
      var ts := ArmTaken(md, st, kw, e);
      var st1 := Took(st, ts, false);
      TookOperand(st, ts, false);
      EndTok(md, st1, end);
      TakesThen(md, st, 0, ts, st1, [end], Took(st1.(cases := st.cases - 1), [end], false));
      TookLess(st, ts, [end]);
    case When(kw, cond, thn, e, rest) =>
      ArmTok(md, st, kw);
      TookOperand(st, [kw], true);
      ExprTakes(md, Took(st, [kw], true), cond);
      var ts := ArmTaken(md, st, kw, cond);
      var st1 := Took(st, ts, false);
      TookOperand(st, ts, false);
      ArmTok(md, st1, thn);
      TookOperand(st1, [thn], true);
      ExprTakes(md, Took(st1, [thn], true), e);
      var us := ArmTaken(md, st1, thn, e);
      TakesThen(md, st, 0, ts, st1, us, Took(st1, us, false));
      TookConcat(st, ts, us, false, false);
      var st2 := Took(st, ts + us, false);
      TookOperand(st, ts + us, false);
      ArmsTake(md, st2, rest);
      TakesThen(md, st, 0, ts + us, st2, ArmsToks(rest), Took(st2.(cases := st.cases - 1), ArmsToks(rest), false));
      TookLess(st, ts + us, ArmsToks(rest));
      assert ts + us + ArmsToks(rest) == ArmsToks(a);
  }

  /** A keyword of the CASE and the expression after it. */
  lemma ArmTaken(md: Mode, st: Scan, kw: Tok, e: Expr) returns (ts: seq<Tok>)
    requires Takes(md, st, 0, [kw], Took(st, [kw], true))
    requires Takes(md, Took(st, [kw], true), 0, Toks(e), Took(Took(st, [kw], true), Toks(e), false))
    ensures ts == [kw] + Toks(e) && Takes(md, st, 0, ts, Took(st, ts, false))
  {
    hide Took, Takes;
    ts := [kw] + Toks(e);
    TakesThen(md, st, 0, [kw], Took(st, [kw], true), Toks(e), Took(Took(st, [kw], true), Toks(e), false));
    TookConcat(st, [kw], Toks(e), true, false);
  }

  lemma TookLess(st: Scan, ts: seq<Tok>, us: seq<Tok>)
    requires st.cases > 0
    ensures Took(Took(st, ts, false).(cases := st.cases - 1), us, false) == Took(st.(cases := st.cases - 1), ts + us, false)
  {
    TookConcat(st.(cases := st.cases - 1), ts, us, false, false);
  }
}
