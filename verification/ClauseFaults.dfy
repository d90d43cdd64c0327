/**
 Clauses whose CASEs are not in order (internal/policy/splice.go): the scan reports each of
 them as unreadable, wherever at the top level the fault stands and however deep.
 */
module ClauseFaults {
  import opened Core
  import opened SqlTokens
  import opened ClauseScanning
  import opened SqlGrammar
  import opened ClauseReading
  import opened ClauseTheorems

  // ---------------------------------------------------------------- unfinished text

  /** A piece after which an operand must follow: `x AND`, `x OR`, `NOT`, `a =`. */
  datatype Lead = Lead(e: Option<Expr>, op: Tok)

  /** What an unfinished part of a CASE holds so far. */
  datatype Body = Body(leads: seq<Lead>, rest: Rest)

  datatype Rest = Nothing | Whole(e: Expr) | Inner(c: OpenCase)

  /** A CASE without its END: complete arms, then perhaps a part of one. */
  datatype OpenCase = OpenCase(kw: Tok, subject: Option<Expr>, arms: seq<Arm>, half: Half)

  datatype Arm = Arm(when_: Tok, cond: Expr, then_: Tok, e: Expr)

  datatype Half =
    | NoHalf
    | InSubject(b: Body)
    | InWhen(when_: Tok, b: Body)
    | InThen(when_: Tok, cond: Expr, then_: Tok, b: Body)
    | InElse(kw: Tok, b: Body)

  function OptToks(e: Option<Expr>): seq<Tok> { if e.Some? then Toks(e.value) else [] }

  function LeadToks(l: Lead): seq<Tok> { OptToks(l.e) + [l.op] }

  function LeadsToks(ls: seq<Lead>): seq<Tok> { if ls == [] then [] else LeadToks(ls[0]) + LeadsToks(ls[1..]) }

  function BodyToks(b: Body): seq<Tok> { LeadsToks(b.leads) + RestToks(b.rest) }

  function RestToks(r: Rest): seq<Tok> {
    match r
    case Nothing => []
    case Whole(e) => Toks(e)
    case Inner(c) => OpenToks(c)
  }

  function ArmToks(a: Arm): seq<Tok> { [a.when_] + Toks(a.cond) + [a.then_] + Toks(a.e) }

  function ArmsSpell(arms: seq<Arm>): seq<Tok> { if arms == [] then [] else ArmToks(arms[0]) + ArmsSpell(arms[1..]) }

  function OpenToks(c: OpenCase): seq<Tok> { [c.kw] + (OptToks(c.subject) + (ArmsSpell(c.arms) + HalfToks(c.half))) }

  function HalfToks(h: Half): seq<Tok> {
    match h
    case NoHalf => []
    case InSubject(b) => BodyToks(b)
    case InWhen(w, b) => [w] + BodyToks(b)
    case InThen(w, cond, t, b) => [w] + Toks(cond) + ([t] + BodyToks(b))
    case InElse(kw, b) => [kw] + BodyToks(b)
  }

  // ---------------------------------------------------------------- well-formedness

  predicate Binary(md: Mode, op: Tok) { OrToken(md, op) || IsKeyword(op, "XOR") || IsKeyword(op, "AND") }

  /** A logical operator behind an expression, or an infix or prefix operator. */
  predicate WfLead(md: Mode, l: Lead) {
    (l.e.Some? ==> Wf(md, l.e.value)) && ((l.e.Some? && Binary(md, l.op)) || WfPart(md, Infix(l.op), true))
  }

  predicate WfBody(md: Mode, b: Body) { (forall l <- b.leads :: WfLead(md, l)) && WfRest(md, b.rest) }

  predicate WfRest(md: Mode, r: Rest) {
    match r
    case Nothing => true
    case Whole(e) => Wf(md, e)
    case Inner(c) => WfOpen(md, c)
  }

  predicate WfArm(md: Mode, a: Arm) {
    IsKeyword(a.when_, "WHEN") && Wf(md, a.cond) && IsKeyword(a.then_, "THEN") && Wf(md, a.e)
  }

  predicate WfOpen(md: Mode, c: OpenCase) {
    IsKeyword(c.kw, "CASE") && (c.subject.Some? ==> Wf(md, c.subject.value)) && (forall a <- c.arms :: WfArm(md, a)) &&
    (c.half.InSubject? ==> c.subject.None? && c.arms == []) && WfHalf(md, c.half)
  }

  predicate WfHalf(md: Mode, h: Half) {
    match h
    case NoHalf => true
    case InSubject(b) => WfBody(md, b)
    case InWhen(w, b) => IsKeyword(w, "WHEN") && WfBody(md, b)
    case InThen(w, cond, t, b) => IsKeyword(w, "WHEN") && Wf(md, cond) && IsKeyword(t, "THEN") && WfBody(md, b)
    case InElse(kw, b) => IsKeyword(kw, "ELSE") && WfBody(md, b)
  }

  // ---------------------------------------------------------------- reading it

  /** Read to its end without a fault, and no CASE that was open before is closed. */
  ghost predicate Reads(md: Mode, st: Scan, ts: seq<Tok>, st': Scan) {
    Takes(md, st, 0, ts, st') && st'.bad == st.bad && st'.cases >= st.cases
  }

  lemma {:induction false} ReadsThen(md: Mode, st: Scan, ts: seq<Tok>, st1: Scan, us: seq<Tok>, st2: Scan)
    requires Reads(md, st, ts, st1) && Reads(md, st1, us, st2)
    ensures Reads(md, st, ts + us, st2)
  {
    hide Takes;
    TakesThen(md, st, 0, ts, st1, us, st2);
  }

  lemma {:induction false} ReadsNothing(md: Mode, st: Scan)
    ensures Reads(md, st, [], st)
  {
    TakesNone(md, st, 0);
  }

  lemma {:induction false} TookReads(md: Mode, st: Scan, ts: seq<Tok>, operand: bool)
    requires Takes(md, st, 0, ts, Took(st, ts, operand))
    ensures Reads(md, st, ts, Took(st, ts, operand)) && Took(st, ts, operand).operand == operand && Took(st, ts, operand).cases == st.cases
  {
    hide Takes, AppendAll;
  }

  /** Any expression, at the top level or in a CASE. */
  lemma {:induction false} ExprReads(md: Mode, st: Scan, e: Expr) returns (st': Scan)
    requires Wf(md, e) && st.operand
    ensures Reads(md, st, Toks(e), st') && !st'.operand && st'.cases == st.cases
  {
    hide Takes, Toks, Wf, Took;
    if st.cases > 0 {
      ExprTakes(md, st, e);
      st' := Took(st, Toks(e), false);
      TookReads(md, st, Toks(e), false);
    } else {
      st' := ExprScanned(md, st, e);
      ScannedEnds(st, e, st');
    }
  }

  /** The operator of a lead. */
  lemma {:induction false} OpReads(md: Mode, st: Scan, op: Tok) returns (st': Scan)
    requires Binary(md, op) || WfPart(md, Infix(op), true)
    ensures Reads(md, st, [op], st') && st'.operand && st'.cases == st.cases
  {
    hide Takes, Took, Upper, StepScan, Flushed;
    if !Binary(md, op) {
      InfixTakes(md, st, op);
      st' := Took(st, [op], true);
      TookReads(md, st, [op], true);
    } else if st.cases > 0 {
      PlainTok(md, st, op);
      BinaryOperand(md, op, st.operand);
      st' := Took(st, [op], true);
      TookReads(md, st, [op], true);
    } else if IsKeyword(op, "AND") {
      AndStep(md, st, op);
      st' := Flushed(st).(operand := true);
      FlushKeeps(st);
    } else {
      OrStep(md, st, op);
      st' := StepScan(md, st, op, true, false).0;
    }
  }

  lemma {:induction false} BinaryOperand(md: Mode, op: Tok, cur: bool)
    requires Binary(md, op)
    ensures AfterOperand(op, cur)
  {
    hide Upper;
    if op.kind.Ident? {
      assert Introducer("XOR");
    }
  }

  lemma {:induction false} LeadReads(md: Mode, st: Scan, l: Lead) returns (st': Scan)
    requires WfLead(md, l) && st.operand
    ensures Reads(md, st, LeadToks(l), st') && st'.operand && st'.cases == st.cases
  {
    hide Reads, Wf, Toks, Binary, WfPart;
    if l.e.Some? {
      var st1 := ExprReads(md, st, l.e.value);
      st' := OpReads(md, st1, l.op);
      ReadsThen(md, st, Toks(l.e.value), st1, [l.op], st');
    } else {
      st' := OpReads(md, st, l.op);
      assert [] + [l.op] == [l.op];
    }
  }

  lemma {:induction false} LeadsRead(md: Mode, st: Scan, ls: seq<Lead>) returns (st': Scan)
    requires (forall l <- ls :: WfLead(md, l)) && st.operand
    ensures Reads(md, st, LeadsToks(ls), st') && st'.operand && st'.cases == st.cases
    decreases |ls|
  {
    hide Reads, WfLead, LeadToks;
    if ls == [] {
      st' := st;
      ReadsNothing(md, st);
    } else {
      assert ls[0] in ls;
      var st1 := LeadReads(md, st, ls[0]);
      st' := LeadsRead(md, st1, ls[1..]);
      ReadsThen(md, st, LeadToks(ls[0]), st1, LeadsToks(ls[1..]), st');
    }
  }

  lemma {:induction false} BodyReads(md: Mode, st: Scan, b: Body) returns (st': Scan)
    requires WfBody(md, b) && st.operand
    ensures Reads(md, st, BodyToks(b), st')
    decreases b, 0
  {
    hide Reads, WfLead, Toks, Wf, LeadsToks, OpenToks;
    var st1 := LeadsRead(md, st, b.leads);
    match b.rest {
      case Nothing =>
        st' := st1;
        ReadsNothing(md, st1);
      case Whole(e) => st' := ExprReads(md, st1, e);
      case Inner(c) => st' := OpenReads(md, st1, c);
    }
    ReadsThen(md, st, LeadsToks(b.leads), st1, RestToks(b.rest), st');
  }

  /** A CASE keyword or an arm keyword inside a CASE. */
  lemma {:induction false} KeywordReads(md: Mode, st: Scan, kw: Tok) returns (st': Scan)
    requires IsKeyword(kw, "CASE") || (st.cases > 0 && kw.kind.Ident? && Word(kw) in ARMS)
    ensures Reads(md, st, [kw], st') && st'.operand && st'.cases == st.cases + (if IsKeyword(kw, "CASE") then 1 else 0)
  {
    hide Takes, Upper;
    if IsKeyword(kw, "CASE") {
      CaseTok(md, st, kw);
      OpenedState(st, kw);
      st' := Opened(st, kw);
    } else {
      ArmTok(md, st, kw);
      st' := Took(st, [kw], true);
    }
  }

  lemma {:induction false} ArmReads(md: Mode, st: Scan, kw: Tok, e: Expr) returns (st': Scan)
    requires st.cases > 0 && kw.kind.Ident? && Word(kw) in ARMS && Wf(md, e)
    ensures Reads(md, st, [kw] + Toks(e), st') && st'.cases == st.cases
  {
    hide Reads, Upper, Wf, Toks;
    ArmNoCase(kw);
    var st1 := KeywordReads(md, st, kw);
    st' := ExprReads(md, st1, e);
    ReadsThen(md, st, [kw], st1, Toks(e), st');
  }

  lemma {:induction false} ArmNoCase(kw: Tok)
    requires Word(kw) in ARMS
    ensures !IsKeyword(kw, "CASE")
  {
    hide Upper;
  }

  lemma {:induction false} ArmsRead(md: Mode, st: Scan, arms: seq<Arm>) returns (st': Scan)
    requires (forall a <- arms :: WfArm(md, a)) && st.cases > 0
    ensures Reads(md, st, ArmsSpell(arms), st') && st'.cases == st.cases
    decreases |arms|
  {
    hide Reads, Wf, Toks, Upper;
    if arms == [] {
      st' := st;
      ReadsNothing(md, st);
    } else {
      var a := arms[0];
      assert a in arms;
      var st1 := ArmReads(md, st, a.when_, a.cond);
      var st2 := ArmReads(md, st1, a.then_, a.e);
      ReadsThen(md, st, [a.when_] + Toks(a.cond), st1, [a.then_] + Toks(a.e), st2);
      assert [a.when_] + Toks(a.cond) + ([a.then_] + Toks(a.e)) == ArmToks(a);
      st' := ArmsRead(md, st2, arms[1..]);
      ReadsThen(md, st, ArmToks(a), st2, ArmsSpell(arms[1..]), st');
    }
  }

  /** A keyword of the CASE and an unfinished body. */
  lemma {:induction false} PartReads(md: Mode, st: Scan, kw: Tok, b: Body) returns (st': Scan)
    requires st.cases > 0 && kw.kind.Ident? && Word(kw) in ARMS && WfBody(md, b)
    ensures Reads(md, st, [kw] + BodyToks(b), st')
    decreases b, 1
  {
    hide Reads, Upper, WfBody, BodyToks;
    ArmNoCase(kw);
    var st1 := KeywordReads(md, st, kw);
    st' := BodyReads(md, st1, b);
    ReadsThen(md, st, [kw], st1, BodyToks(b), st');
  }

  lemma {:induction false} HalfReads(md: Mode, st: Scan, h: Half) returns (st': Scan)
    requires WfHalf(md, h) && st.cases > 0 && (h.InSubject? ==> st.operand)
    ensures Reads(md, st, HalfToks(h), st')
    decreases h
  {
    hide Reads, Upper, WfBody, BodyToks, Wf, Toks;
    match h {
      case NoHalf =>
        st' := st;
        ReadsNothing(md, st);
      case InSubject(b) => st' := BodyReads(md, st, b);
      case InWhen(w, b) => st' := PartReads(md, st, w, b);
      case InThen(w, cond, t, b) =>
        var st1 := ArmReads(md, st, w, cond);
        st' := PartReads(md, st1, t, b);
        ReadsThen(md, st, [w] + Toks(cond), st1, [t] + BodyToks(b), st');
      case InElse(kw, b) => st' := PartReads(md, st, kw, b);
    }
  }

  /** An open CASE is read to its end, and leaves at least itself open. */
  lemma {:induction false} OpenReads(md: Mode, st: Scan, c: OpenCase) returns (st': Scan)
    requires WfOpen(md, c)
    ensures Reads(md, st, OpenToks(c), st') && st'.cases > st.cases
    decreases c
  {
    hide Upper, Wf, Toks, WfHalf, HalfToks, WfArm, ArmsSpell, Takes;
    var st1 := KeywordReads(md, st, c.kw);
    var st2 := st1;
    if c.subject.Some? {
      st2 := ExprReads(md, st1, c.subject.value);
    } else {
      ReadsNothing(md, st1);
    }
    var st3 := ArmsRead(md, st2, c.arms);
    if c.half.InSubject? {
      assert ArmsSpell(c.arms) == [] && OptToks(c.subject) == [] by { NoArms(); }
      var st4 := HalfReads(md, st1, c.half);
      ReadsNothing(md, st1);
      st2, st3, st' := st1, st1, st4;
    } else {
      st' := HalfReads(md, st3, c.half);
    }
    hide Reads;
    ReadsThen(md, st2, ArmsSpell(c.arms), st3, HalfToks(c.half), st');
    ReadsThen(md, st1, OptToks(c.subject), st2, ArmsSpell(c.arms) + HalfToks(c.half), st');
    ReadsThen(md, st, [c.kw], st1, OptToks(c.subject) + (ArmsSpell(c.arms) + HalfToks(c.half)), st');
  }

  lemma {:induction false} NoArms()
    ensures ArmsSpell([]) == []
  {
  }

  // ---------------------------------------------------------------- where it stands

  /** The clause so far: nothing, or whole conjuncts with the constructs among them and one
      more AND; then leads. */
  datatype Prefix = Prefix(front: Option<(Clause, Tok)>, leads: seq<Lead>)

  ghost predicate WfPrefix(md: Mode, p: Prefix) {
    (p.front.Some? ==> WfClause(md, p.front.value.0) && IsKeyword(p.front.value.1, "AND")) && forall l <- p.leads :: WfLead(md, l)
  }

  function PrefixElems(p: Prefix): seq<Elem> {
    (if p.front.Some? then Elems(p.front.value.0) + Tks([p.front.value.1]) else []) + Tks(LeadsToks(p.leads))
  }

  /** It ends at the top level, where an operand must follow. */
  lemma {:induction false} PrefixRead(md: Mode, p: Prefix) returns (st: Scan)
    requires WfPrefix(md, p)
    ensures Read(md, In(NEW_SCAN, 0), PrefixElems(p)) == In(st, 0) && st.operand && st.cases == 0 && !st.bad
  {
    hide Read, Upper, WfClause, WfLead, Elems, LeadsToks, Flushed;
    var st1 := NEW_SCAN;
    if p.front.Some? {
      var st0 := ClauseRead(md, p.front.value.0);
      AndStep(md, st0, p.front.value.1);
      FlushKeeps(st0);
      st1 := Flushed(st0).(operand := true);
      ReadConcat(md, In(NEW_SCAN, 0), Elems(p.front.value.0), Tks([p.front.value.1]));
    } else {
      ReadsNothing(md, NEW_SCAN);
      assert Tks([]) == [];
    }
    st := LeadsRead(md, st1, p.leads);
    var front := if p.front.Some? then Elems(p.front.value.0) + Tks([p.front.value.1]) else [];
    ReadConcat(md, In(NEW_SCAN, 0), front, Tks(LeadsToks(p.leads)));
  }

  lemma {:induction false} UpTo(md: Mode, pre: seq<Elem>, where: Tok, p: Prefix, ts: seq<Tok>, st: Scan, st': Scan)
    requires Before(pre, 0, false) && IsKeyword(where, "WHERE")
    requires Read(md, In(NEW_SCAN, 0), PrefixElems(p)) == In(st, 0) && Takes(md, st, 0, ts, st')
    ensures Read(md, START, pre + [Tk(where)] + PrefixElems(p) + Tks(ts)) == In(st', 0)
  {
    hide Read, Upper, Before, PrefixElems;
    BeforeRead(md, pre, 0, false);
    WhereOpens(md, where);
    ReadConcat(md, START, pre, [Tk(where)]);
    ReadConcat(md, START, pre + [Tk(where)], PrefixElems(p));
    ReadConcat(md, START, pre + [Tk(where)] + PrefixElems(p), Tks(ts));
  }

  /** Reading up to a CASE that is left open. */
  lemma {:induction false} OpenRead(md: Mode, pre: seq<Elem>, where: Tok, p: Prefix, c: OpenCase) returns (st: Scan)
    requires Before(pre, 0, false) && IsKeyword(where, "WHERE") && WfPrefix(md, p) && WfOpen(md, c)
    ensures Read(md, START, pre + [Tk(where)] + PrefixElems(p) + Tks(OpenToks(c))) == In(st, 0) && st.cases > 0
  {
    hide Read, Upper, Before, PrefixElems, OpenToks, WfPrefix, WfOpen;
    var st1 := PrefixRead(md, p);
    st := OpenReads(md, st1, c);
    UpTo(md, pre, where, p, OpenToks(c), st1, st);
  }

  // ---------------------------------------------------------------- the faults

  /** A CASE still open where the statement ends makes the clause unreadable: wherever at
      the top level it opened, whatever arms it has, and with CASEs nested in it or not. */
  lemma {:induction false} UnclosedCase(md: Mode, pre: seq<Elem>, where: Tok, p: Prefix, c: OpenCase, post: seq<Elem>)
    requires Before(pre, 0, false) && IsKeyword(where, "WHERE") && WfPrefix(md, p) && WfOpen(md, c)
    requires post == [] || (post[0].Tk? && post[0].t.kind.Semicolon?)
    ensures !WhereScan(md, pre + [Tk(where)] + PrefixElems(p) + Tks(OpenToks(c)) + post).lexOK
  {
    hide StepScan, Upper, Before, PrefixElems, OpenToks, WfPrefix, WfOpen;
    var st := OpenRead(md, pre, where, p, c);
    ReadConcat(md, START, pre + [Tk(where)] + PrefixElems(p) + Tks(OpenToks(c)), post);
  }

  /** So does a construct anywhere inside a CASE, whatever follows. */
  lemma {:induction false} HoleInCase(md: Mode, pre: seq<Elem>, where: Tok, p: Prefix, c: OpenCase, hole: Elem, rest: seq<Elem>)
    requires Before(pre, 0, false) && IsKeyword(where, "WHERE") && WfPrefix(md, p) && WfOpen(md, c) && hole.Hole?
    ensures !WhereScan(md, pre + [Tk(where)] + PrefixElems(p) + Tks(OpenToks(c)) + [hole] + rest).lexOK
  {
    hide Read, StepScan, Upper, Before, PrefixElems, OpenToks, WfPrefix, WfOpen;
    var st := OpenRead(md, pre, where, p, c);
    var head := pre + [Tk(where)] + PrefixElems(p) + Tks(OpenToks(c));
    ReadConcat(md, START, head, [hole]);
    ReadConcat(md, START, head + [hole], rest);
    ReadOne(md, In(st, 0), hole);
    BadForever(md, ReadElem(md, In(st, 0), hole), rest);
  }

  lemma {:induction false} StrayScan(md: Mode, st: Scan, t: Tok)
    requires t.kind.Ident? && (Word(t) in ARMS || (Word(t) == "END" && !st.operand)) && st.cases == 0
    ensures StepScan(md, st, t, true, false).0.bad
  {
    hide Upper, Append, AfterOperand, LooseOr;
  }

  lemma {:induction false} StrayRead(md: Mode, st: Scan, stray: Tok)
    requires stray.kind.Ident?
    ensures ReadTok(md, In(st, 0), stray).ex == Some(StepScan(md, st, stray, true, false).0)
  {
    hide StepScan;
  }

  /** An arm keyword outside any CASE, behind an expression or where an operand must follow,
      and an END behind an expression make the clause unreadable, whatever stands behind. */
  lemma {:induction false} StrayArm(md: Mode, pre: seq<Elem>, where: Tok, p: Prefix, e: Option<Expr>, stray: Tok, rest: seq<Elem>)
    requires Before(pre, 0, false) && IsKeyword(where, "WHERE") && WfPrefix(md, p) && (e.Some? ==> Wf(md, e.value))
    requires stray.kind.Ident? && (Word(stray) in ARMS || (Word(stray) == "END" && e.Some?))
    ensures !WhereScan(md, pre + [Tk(where)] + PrefixElems(p) + Tks(OptToks(e)) + [Tk(stray)] + rest).lexOK
  {
    hide Read, StepScan, Upper, Before, Toks, Wf, PrefixElems, WfPrefix;
    var st1 := PrefixRead(md, p);
    var st := st1;
    if e.Some? {
      st := ExprReads(md, st1, e.value);
    } else {
      ReadsNothing(md, st1);
    }
    UpTo(md, pre, where, p, OptToks(e), st1, st);
    var head := pre + [Tk(where)] + PrefixElems(p) + Tks(OptToks(e));
    ReadConcat(md, START, head, [Tk(stray)]);
    ReadConcat(md, START, head + [Tk(stray)], rest);
    ReadOne(md, In(st, 0), Tk(stray));
    StrayScan(md, st, stray);
    StrayRead(md, st, stray);
    BadForever(md, ReadTok(md, In(st, 0), stray), rest);
  }
}
