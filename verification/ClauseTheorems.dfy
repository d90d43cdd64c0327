/**
 What the WHERE scan returns on every clause of the grammar, with the constructs that a
 template may add to its top-level AND list (internal/policy/splice.go; structural rule
 R1 admits only whole conjuncts).
 */
module ClauseTheorems {
  import opened Core
  import opened SqlTokens
  import opened ClauseScanning
  import opened SqlGrammar
  import opened ClauseReading

  // ---------------------------------------------------------------- expressions

  lemma {:induction false} NonEmpty(md: Mode, e: Expr)
    requires Wf(md, e)
    ensures Toks(e) != []
  {
    match e
    case OrOp(l, _, _) =>
    case XorOp(l, _, _) =>
    case AndOp(l, _, _) =>
    case NotOp(_, _) =>
    case Paren(_, _, _) =>
    case Opaque(ps) =>
      assert PartsToks(ps) == PartToks(ps.head) + PartsToks(ps.tail);
      PartNonEmpty(ps.head);
  }

  lemma {:induction false} PartNonEmpty(p: Part)
    ensures PartToks(p) != []
  {
  }

  function FirstAt(ts: seq<Tok>): nat
    requires ts != []
  {
    ts[0].at
  }

  function LastEnd(ts: seq<Tok>): nat
    requires ts != []
  {
    EndOf(ts[|ts| - 1])
  }

  /** The segments of an expression without a top-level OR-class operator. */
  function Segments(e: Expr): seq<seq<ConjTok>> {
    if e.AndOp? then Segments(e.l) + Segments(e.r) else [Normal(Toks(e))]
  }

  /** One segment per conjunct, holding that conjunct's tokens. */
  lemma {:induction false} SegmentsAreConjuncts(e: Expr)
    ensures |Segments(e)| == |Conjuncts(e)|
    ensures forall i :: 0 <= i < |Conjuncts(e)| ==> Segments(e)[i] == Normal(Toks(Conjuncts(e)[i]))
  {
    if e.AndOp? {
      SegmentsAreConjuncts(e.l);
      SegmentsAreConjuncts(e.r);
    }
  }

  /** What an expression without a top-level OR-class operator adds to the segment `cur`:
      the segments it completes, and the one it leaves open. */
  function Pour(cur: seq<ConjTok>, e: Expr): (seq<seq<ConjTok>>, seq<ConjTok>)
    decreases e
  {
    if e.AndOp? then
      var (a, c) := Pour(cur, e.l);
      var (b, d) := Pour([], e.r);
      (a + [c] + b, d)
    else ([], AppendAll(cur, Toks(e)))
  }

  lemma {:induction false} PourSegments(e: Expr)
    ensures Pour([], e).0 + [Pour([], e).1] == Segments(e)
  {
    if e.AndOp? {
      PourSegments(e.l);
      PourSegments(e.r);
      var (a, c) := Pour([], e.l);
      var (b, d) := Pour([], e.r);
      assert a + [c] + b + [d] == (a + [c]) + (b + [d]);
    }
  }

  /** What the scan knows after an expression at the top level. */
  ghost predicate Scanned(st: Scan, e: Expr, st': Scan)
    requires Toks(e) != []
  {
    !st'.operand && st'.cases == 0 && st'.bad == st.bad && st'.hasOR == (st.hasOR || Loose(e)) &&
    st'.start == (if st.start < 0 then FirstAt(Toks(e)) else st.start) && st'.end == LastEnd(Toks(e)) &&
    (!Loose(e) ==> st'.segs == st.segs + Pour(st.cur, e).0 && st'.cur == Pour(st.cur, e).1 && st'.cur != [])
  }

  /** From an empty segment on these are the expression's conjuncts. */
  lemma {:induction false} ScannedSegments(st: Scan, e: Expr, st': Scan)
    requires Toks(e) != [] && Scanned(st, e, st') && !Loose(e) && st.cur == []
    ensures Flushed(st').segs == st.segs + Segments(e)
  {
    hide Toks, Pour, Segments, Loose;
    PourSegments(e);
    assert st.segs + Pour([], e).0 + [Pour([], e).1] == st.segs + (Pour([], e).0 + [Pour([], e).1]);
  }

  lemma {:induction false} OneScanned(md: Mode, st: Scan, e: Expr)
    requires Wf(md, e) && Level(e) >= 3 && (st.operand || !LeadsPositional(e)) && st.cases == 0
    ensures Toks(e) != [] && Takes(md, st, 0, Toks(e), Took(st, Toks(e), false)) && Scanned(st, e, Took(st, Toks(e), false))
  {
    hide Upper, Takes;
    NonEmpty(md, e);
    ExprTakes(md, st, e);
    AppendLength(st.cur, Toks(e));
    LooseByLevel(md, e);
    hide Toks, AppendAll, Wf;
  }

  /** AND at the top level cuts; OR cuts and is flagged; `||` and XOR are flagged. */
  lemma AndStep(md: Mode, st: Scan, op: Tok)
    requires IsKeyword(op, "AND") && st.cases == 0
    ensures Takes(md, st, 0, [op], Flushed(st).(operand := true))
  {
    AndScan(md, st, op);
    TakesTok(md, st, op);
  }

  lemma AndScan(md: Mode, st: Scan, op: Tok)
    requires IsKeyword(op, "AND") && st.cases == 0
    ensures StepScan(md, st, op, true, false) == (Flushed(st).(operand := true), false)
  {
    hide Upper, Flushed;
  }

  /** After a top-level OR-class operator. */
  ghost predicate Flagged(st: Scan, st': Scan) {
    st'.operand && st'.cases == 0 && st'.bad == st.bad && st'.hasOR && (st.start >= 0 ==> st'.start == st.start)
  }

  lemma OrStep(md: Mode, st: Scan, op: Tok)
    requires (OrToken(md, op) || IsKeyword(op, "XOR")) && st.cases == 0
    ensures Takes(md, st, 0, [op], StepScan(md, st, op, true, false).0)
    ensures Flagged(st, StepScan(md, st, op, true, false).0)
  {
    OrScan(md, st, op);
    TakesTok(md, st, op);
  }

  lemma OrScan(md: Mode, st: Scan, op: Tok)
    requires (OrToken(md, op) || IsKeyword(op, "XOR")) && st.cases == 0
    ensures !StepScan(md, st, op, true, false).1 && Flagged(st, StepScan(md, st, op, true, false).0)
  {
    hide Upper, Append, Stops, StepScan, Flagged, Flushed;
    if op.kind.Operator? {
      PipesScan(md, st, op);
    } else if Word(op) == "OR" {
      OrWordScan(md, st, op);
    } else {
      XorScan(md, st, op);
    }
  }

  lemma PipesScan(md: Mode, st: Scan, op: Tok)
    requires md.pipesOr && op.kind.Operator? && op.text == "||" && st.cases == 0
    ensures !StepScan(md, st, op, true, false).1 && Flagged(st, StepScan(md, st, op, true, false).0)
  {
    hide Upper, Append, Stops;
    assert op.text[0] == '|' && op.text[1] == '|';
  }

  lemma OrWordScan(md: Mode, st: Scan, op: Tok)
    requires IsKeyword(op, "OR") && st.cases == 0
    ensures !StepScan(md, st, op, true, false).1 && Flagged(st, StepScan(md, st, op, true, false).0)
  {
    hide Upper, Append, Stops, LooseOr, AfterOperand;
  }

  lemma XorScan(md: Mode, st: Scan, op: Tok)
    requires IsKeyword(op, "XOR") && st.cases == 0
    ensures !StepScan(md, st, op, true, false).1 && Flagged(st, StepScan(md, st, op, true, false).0)
  {
    XorWord(md);
    hide Upper, Append, Stops, Introducer;
  }

  lemma XorWord(md: Mode)
    ensures "XOR" !in Stops(md) && "XOR" !in ARMS && Introducer("XOR")
  {
  }

  lemma {:induction false} LooseScanned(st: Scan, l: seq<Tok>, op: Tok, r: Expr, st1: Scan, st2: Scan, st3: Scan, e: Expr)
    requires l != [] && Toks(r) != [] && Toks(e) == l + [op] + Toks(r) && Loose(e)
    requires !st1.operand && st1.cases == 0 && st1.bad == st.bad
    requires st1.start == if st.start < 0 then FirstAt(l) else st.start
    requires Flagged(st1, st2) && Scanned(st2, r, st3)
    ensures Scanned(st, e, st3)
  {
    hide Toks, Loose, Segments;
    assert Toks(e)[0] == l[0] && Toks(e)[|Toks(e)| - 1] == Toks(r)[|Toks(r)| - 1];
  }

  lemma {:induction false} AndScanned(st: Scan, l: Expr, op: Tok, r: Expr, st1: Scan, st2: Scan, st3: Scan)
    requires Toks(l) != [] && Toks(r) != [] && !Loose(r)
    requires Scanned(st, l, st1) && st2 == Flushed(st1).(operand := true) && Scanned(st2, r, st3)
    ensures Toks(AndOp(l, op, r)) != [] && Scanned(st, AndOp(l, op, r), st3)
  {
    hide Toks, Loose, Segments, Flushed, Pour;
    AndSpelled(l, op, r);
    FlushKeeps(st1);
    FlushedSegs(st1);
    if !Loose(l) {
      AndPours(st.cur, l, op, r);
      assert st.segs + Pour(st.cur, l).0 + [st1.cur] + Pour([], r).0 == st.segs + (Pour(st.cur, l).0 + [st1.cur] + Pour([], r).0);
    }
  }

  lemma {:induction false} AndPours(cur: seq<ConjTok>, l: Expr, op: Tok, r: Expr)
    ensures Pour(cur, AndOp(l, op, r)) == (Pour(cur, l).0 + [Pour(cur, l).1] + Pour([], r).0, Pour([], r).1)
  {
  }

  lemma {:induction false} AndSpelled(l: Expr, op: Tok, r: Expr)
    requires Toks(l) != [] && Toks(r) != []
    ensures
      var e := AndOp(l, op, r);
      Toks(e) != [] && FirstAt(Toks(e)) == FirstAt(Toks(l)) && LastEnd(Toks(e)) == LastEnd(Toks(r)) &&
      Loose(e) == (Loose(l) || Loose(r)) && Segments(e) == Segments(l) + Segments(r)
  {
    var a, b := Toks(l), Toks(r);
    assert Toks(AndOp(l, op, r)) == a + [op] + b;
    assert (a + [op] + b)[|a| + |b|] == b[|b| - 1];
  }

  lemma FlushedSegs(st: Scan)
    ensures Flushed(st).cur == [] && Flushed(st).hasOR == st.hasOR
    ensures st.cur != [] ==> Flushed(st).segs == st.segs + [st.cur]
  {
  }

  /** Every well-formed expression is read to its end, from wherever an operand may begin
      at the top level. */
  lemma {:induction false} ExprScanned(md: Mode, st: Scan, e: Expr) returns (st': Scan)
    requires Wf(md, e) && (st.operand || !LeadsPositional(e)) && st.cases == 0
    ensures Toks(e) != [] && Takes(md, st, 0, Toks(e), st') && Scanned(st, e, st')
    decreases e
  {
    hide Takes, Scanned, Upper, Flagged, StepScan, Segments;
    NonEmpty(md, e);
    if Level(e) >= 3 {
      OneScanned(md, st, e);
      st' := Took(st, Toks(e), false);
      return;
    }
    var l, op, r := e.l, e.op, e.r;
    NonEmpty(md, l);
    NonEmpty(md, r);
    var st1 := ExprScanned(md, st, l);
    ScannedEnds(st, l, st1);
    if e.AndOp? {
      AndStep(md, st1, op);
      var st2 := Flushed(st1).(operand := true);
      FlushKeeps(st1);
      OneScanned(md, st2, r);
      st' := Took(st2, Toks(r), false);
      LooseByLevel(md, r);
      AndScanned(st, l, op, r, st1, st2, st');
      TakesBoth(md, st, Toks(l), st1, op, st2, Toks(r), st');
    } else {
      OrStep(md, st1, op);
      var st2 := StepScan(md, st1, op, true, false).0;
      FlaggedReady(st1, st2);
      st' := ExprScanned(md, st2, r);
      LooseScanned(st, Toks(l), op, r, st1, st2, st', e);
      TakesBoth(md, st, Toks(l), st1, op, st2, Toks(r), st');
    }
  }

  lemma {:induction false} ScannedEnds(st: Scan, e: Expr, st': Scan)
    requires Toks(e) != [] && Scanned(st, e, st')
    ensures !st'.operand && st'.cases == 0 && st'.bad == st.bad && st'.start == (if st.start < 0 then FirstAt(Toks(e)) else st.start)
  {
  }

  lemma FlushKeeps(st: Scan)
    ensures Flushed(st).cases == st.cases && Flushed(st).bad == st.bad && Flushed(st).start == st.start
  {
  }

  lemma FlaggedReady(st: Scan, st': Scan)
    requires Flagged(st, st')
    ensures st'.operand && st'.cases == 0
  {
  }

  lemma TakesBoth(md: Mode, st: Scan, ts: seq<Tok>, st1: Scan, op: Tok, st2: Scan, us: seq<Tok>, st3: Scan)
    requires Takes(md, st, 0, ts, st1) && Takes(md, st1, 0, [op], st2) && Takes(md, st2, 0, us, st3)
    ensures Takes(md, st, 0, ts + [op] + us, st3)
  {
    hide Takes;
    TakesThen(md, st, 0, ts, st1, [op], st2);
    TakesThen(md, st, 0, ts + [op], st2, us, st3);
  }

  // ---------------------------------------------------------------- clauses

  /** What may follow the leading expression in a template: another conjunct, an
      `@if-present` conjunct, which brings its own AND, or a filter tree after an AND. */
  datatype Link =
    | AndExpr(op: Tok, e: Expr)
    | Guarded(id: nat, end: nat)
    | AndTree(op: Tok, id: nat, end: nat)

  datatype Clause = Clause(e: Expr, links: seq<Link>)

  predicate WfLink(md: Mode, k: Link) {
    match k
    case AndExpr(op, e) => IsKeyword(op, "AND") && Wf(md, e) && Level(e) >= 3
    case Guarded(_, _) => true
    case AndTree(op, _, _) => IsKeyword(op, "AND")
  }

  /** Each construct is one whole conjunct of the clause, so with any link the clause is an
      AND list. */
  predicate WfClause(md: Mode, cl: Clause) {
    Wf(md, cl.e) && (cl.links != [] ==> Level(cl.e) >= 2) && forall k <- cl.links :: WfLink(md, k)
  }

  function LinkElems(k: Link): seq<Elem> {
    match k
    case AndExpr(op, e) => Tks([op] + Toks(e))
    case Guarded(id, end) => [Hole(id, false, end)]
    case AndTree(op, id, end) => [Tk(op), Hole(id, false, end)]
  }

  function LinksElems(ks: seq<Link>): seq<Elem> {
    if ks == [] then [] else LinkElems(ks[0]) + LinksElems(ks[1..])
  }

  function Elems(cl: Clause): seq<Elem> { Tks(Toks(cl.e)) + LinksElems(cl.links) }

  function LinkSegments(ks: seq<Link>): seq<seq<ConjTok>> {
    if ks == [] then []
    else (if ks[0].AndExpr? then [Normal(Toks(ks[0].e))] else []) + LinkSegments(ks[1..])
  }

  function ClauseSegments(cl: Clause): seq<seq<ConjTok>> { Segments(cl.e) + LinkSegments(cl.links) }

  function LinkEnd(k: Link): int {
    match k
    case AndExpr(op, e) => if Toks(e) != [] then LastEnd(Toks(e)) else EndOf(op)
    case Guarded(_, end) => end
    case AndTree(_, _, end) => end
  }

  function ClauseStart(cl: Clause): int { if Toks(cl.e) != [] then FirstAt(Toks(cl.e)) else -1 }

  function ClauseEnd(cl: Clause): int {
    if cl.links != [] then LinkEnd(cl.links[|cl.links| - 1])
    else if Toks(cl.e) != [] then LastEnd(Toks(cl.e)) else -1
  }

  /** The scan inside an AND list: `segs` so far, and where it stands. */
  ghost predicate Listed(st: Scan, segs: seq<seq<ConjTok>>, hasOR: bool, start: int, end: int) {
    !st.operand && st.cases == 0 && !st.bad && st.hasOR == hasOR && st.start == start && st.end == end &&
    (!hasOR ==> Flushed(st).segs == segs)
  }

  lemma {:induction false} HoleRead(md: Mode, st: Scan, id: nat, end: nat)
    ensures var st' := HoleScan(st, false, end).0; Read(md, In(st, 0), [Hole(id, false, end)]) == In(st', 0)
  {
    hide HoleScan;
    ReadOne(md, In(st, 0), Hole(id, false, end));
    HoleGoesOn(st, end);
  }

  lemma HoleGoesOn(st: Scan, end: nat)
    ensures HoleScan(st, false, end).1 == false
  {
  }

  lemma HoleListed(st: Scan, segs: seq<seq<ConjTok>>, hasOR: bool, start: int, at: int, end: nat)
    requires st.cases == 0 && !st.bad && st.hasOR == hasOR && st.start == start && (!hasOR ==> Flushed(st).segs == segs)
    ensures Listed(HoleScan(st, false, end).0, segs, hasOR, start, end)
  {
  }

  /** One link. */
  lemma LinkRead(md: Mode, st: Scan, k: Link, segs: seq<seq<ConjTok>>, start: int, end: int) returns (st': Scan)
    requires WfLink(md, k) && Listed(st, segs, false, start, end) && start >= 0
    ensures Read(md, In(st, 0), LinkElems(k)) == In(st', 0)
    ensures Listed(st', segs + LinkSegments([k]), false, start, LinkEnd(k))
  {
    hide Read, Upper, Toks, Wf, HoleScan;
    assert [k][1..] == [];
    match k
    case AndExpr(op, e) =>
      AndStep(md, st, op);
      var st1 := Flushed(st).(operand := true);
      OneScanned(md, st1, e);
      LooseByLevel(md, e);
      st' := Took(st1, Toks(e), false);
      TakesThen(md, st, 0, [op], st1, Toks(e), st');
      OneSegment(e);
    case Guarded(id, e) =>
      HoleRead(md, st, id, e);
      st' := HoleScan(st, false, e).0;
      HoleListed(st, segs, false, start, end, e);
    case AndTree(op, id, e) =>
      AndStep(md, st, op);
      var st1 := Flushed(st).(operand := true);
      assert Tks([op]) == [Tk(op)];
      HoleRead(md, st1, id, e);
      st' := HoleScan(st1, false, e).0;
      ReadConcat(md, In(st, 0), [Tk(op)], [Hole(id, false, e)]);
      assert [Tk(op)] + [Hole(id, false, e)] == LinkElems(k);
      HoleListed(st1, segs, false, start, end, e);
  }

  lemma {:induction false} OneSegment(e: Expr)
    requires Level(e) >= 3
    ensures Segments(e) == [Normal(Toks(e))]
  {
    hide Toks;
  }

  lemma {:induction false} LinksRead(md: Mode, st: Scan, ks: seq<Link>, segs: seq<seq<ConjTok>>, start: int, end: int) returns (st': Scan)
    requires (forall k <- ks :: WfLink(md, k)) && Listed(st, segs, false, start, end) && start >= 0
    ensures Read(md, In(st, 0), LinksElems(ks)) == In(st', 0)
    ensures Listed(st', segs + LinkSegments(ks), false, start, if ks == [] then end else LinkEnd(ks[|ks| - 1]))
    decreases |ks|
  {
    hide Listed, LinkElems, LinkEnd, WfLink, ReadElem;
    if ks == [] {
      st' := st;
      assert segs + LinkSegments(ks) == segs;
    } else {
      var st1 := LinkRead(md, st, ks[0], segs, start, end);
      OneLink(ks);
      st' := LinksRead(md, st1, ks[1..], segs + LinkSegments([ks[0]]), start, LinkEnd(ks[0]));
      ReadConcat(md, In(st, 0), LinkElems(ks[0]), LinksElems(ks[1..]));
      assert segs + LinkSegments([ks[0]]) + LinkSegments(ks[1..]) == segs + LinkSegments(ks);
    }
  }

  lemma {:induction false} OneLink(ks: seq<Link>)
    requires ks != []
    ensures LinkSegments(ks) == LinkSegments([ks[0]]) + LinkSegments(ks[1..])
  {
    assert [ks[0]][1..] == [];
  }

  /** A whole clause, up to but not including what ends it. */
  lemma ClauseRead(md: Mode, cl: Clause) returns (st: Scan)
    requires WfClause(md, cl)
    ensures Read(md, In(NEW_SCAN, 0), Elems(cl)) == In(st, 0)
    ensures Listed(st, ClauseSegments(cl), Loose(cl.e), ClauseStart(cl), ClauseEnd(cl))
  {
    hide Read, Upper, Toks, Wf, LinkEnd, LinksElems, LinkSegments, Segments, WfLink;
    var st1 := ExprScanned(md, NEW_SCAN, cl.e);
    LooseByLevel(md, cl.e);
    ReadConcat(md, In(NEW_SCAN, 0), Tks(Toks(cl.e)), LinksElems(cl.links));
    FirstListed(st1, cl.e);
    if cl.links == [] {
      st := st1;
      NoLinks(md, st1);
      assert Segments(cl.e) + [] == Segments(cl.e);
    } else {
      st := LinksRead(md, st1, cl.links, Segments(cl.e), ClauseStart(cl), LastEnd(Toks(cl.e)));
    }
  }

  lemma {:induction false} FirstListed(st: Scan, e: Expr)
    requires Toks(e) != [] && Scanned(NEW_SCAN, e, st)
    ensures Listed(st, Segments(e), Loose(e), FirstAt(Toks(e)), LastEnd(Toks(e)))
  {
    if !Loose(e) {
      ScannedSegments(NEW_SCAN, e, st);
    }
    hide Toks, Segments, Loose, Pour;
    assert [] + Segments(e) == Segments(e);
  }

  lemma {:induction false} NoLinks(md: Mode, st: Scan)
    ensures LinksElems([]) == [] && LinkSegments([]) == [] && Read(md, In(st, 0), []) == In(st, 0)
  {
  }

  // ---------------------------------------------------------------- statements

  /** What ends a WHERE clause: a clause keyword, a semicolon, an ORDER BY or GROUP BY
      construct, or the end of the statement. */
  predicate Ends(post: seq<Elem>) {
    post == [] ||
    (post[0].Tk? && (post[0].t.kind.Semicolon? || (post[0].t.kind.Ident? && Word(post[0].t) in TAIL))) ||
    (post[0].Hole? && post[0].boundary)
  }

  /** No WHERE and no semicolon outside parentheses, and the parentheses match. */
  predicate Before(els: seq<Elem>, depth: nat, dotted: bool)
    decreases |els|
  {
    if els == [] then depth == 0 && !dotted
    else if els[0].Hole? then Before(els[1..], depth, false)
    else
      var t := els[0].t;
      var d := DepthAfter(depth, t);
      !(d == 0 && (t.kind.Semicolon? || (Word(t) == "WHERE" && !dotted))) && Before(els[1..], d, IsDot(t))
  }

  lemma {:induction false} BeforeRead(md: Mode, els: seq<Elem>, depth: nat, dotted: bool)
    requires Before(els, depth, dotted)
    ensures Read(md, Reader(None, depth, dotted, false), els) == START
    decreases |els|
  {
    hide StepScan, Upper, IsDot;
    if els != [] {
      if els[0].Hole? {
        BeforeRead(md, els[1..], depth, false);
      } else {
        BeforeRead(md, els[1..], DepthAfter(depth, els[0].t), IsDot(els[0].t));
      }
    }
  }

  lemma {:induction false} EndRead(md: Mode, st: Scan, post: seq<Elem>)
    requires Ends(post) && !st.operand && st.cases == 0 && !st.bad
    ensures var r := Read(md, In(st, 0), post); r.ex.Some? && (Concluded(r.ex.value) == Concluded(st) || Concluded(r.ex.value) == Concluded(Flushed(st)))
  {
    hide Upper;
    if post != [] && post[0].Tk? && !post[0].t.kind.Semicolon? {
      TailScan(md, st, post[0].t);
    }
    hide StepScan;
  }

  lemma TailScan(md: Mode, st: Scan, t: Tok)
    requires t.kind.Ident? && Word(t) in Stops(md) && !st.operand && st.cases == 0
    ensures StepScan(md, st, t, true, false) == (Flushed(st), true)
  {
    hide Upper, Flushed;
  }

  lemma ResultFlushed(st: Scan)
    ensures Concluded(Flushed(st)) == Concluded(st)
  {
  }

  /** The scan of a statement returns exactly its WHERE clause: where it starts and ends,
      whether an OR-class operator stands at its top level, and otherwise its top-level
      conjuncts in order. */
  lemma {:induction false} WhereIsClause(md: Mode, pre: seq<Elem>, where: Tok, cl: Clause, post: seq<Elem>)
    requires Before(pre, 0, false) && IsKeyword(where, "WHERE") && WfClause(md, cl) && Ends(post)
    ensures
      var cs := WhereScan(md, pre + [Tk(where)] + Elems(cl) + post);
      cs.lexOK && cs.hasOR == Loose(cl.e) && cs.start == ClauseStart(cl) && cs.end == ClauseEnd(cl) &&
      (!cs.hasOR ==> cs.segs == ClauseSegments(cl))
  {
    hide Read, Elems, Ends, WfClause, Before, ClauseSegments, ClauseStart, ClauseEnd, Upper;
    BeforeRead(md, pre, 0, false);
    WhereOpens(md, where);
    var st := ClauseRead(md, cl);
    ReadConcat(md, START, pre, [Tk(where)]);
    ReadConcat(md, START, pre + [Tk(where)], Elems(cl));
    ReadConcat(md, START, pre + [Tk(where)] + Elems(cl), post);
    EndRead(md, st, post);
    ResultFlushed(st);
  }

  lemma {:induction false} WhereOpens(md: Mode, where: Tok)
    requires IsKeyword(where, "WHERE")
    ensures Read(md, START, [Tk(where)]) == In(NEW_SCAN, 0)
  {
    hide Upper;
    ReadOne(md, START, Tk(where));
  }

  /** Without a WHERE there is nothing to find. */
  lemma {:induction false} NoWhere(md: Mode, els: seq<Elem>)
    requires Before(els, 0, false)
    ensures WhereScan(md, els) == NOT_FOUND
  {
    BeforeRead(md, els, 0, false);
  }

  // ---------------------------------------------------------------- unreadable CASEs

  lemma BadStep(md: Mode, st: Scan, t: Tok, depth0: bool, dotted: bool)
    requires st.bad
    ensures StepScan(md, st, t, depth0, dotted).0.bad
  {
    hide Upper, Append, AfterOperand, LooseOr;
  }

  /** Once the nesting is broken nothing that follows repairs it. */
  lemma {:induction false} BadForever(md: Mode, r: Reader, els: seq<Elem>)
    requires r.ex.Some? && r.ex.value.bad
    ensures Read(md, r, els).ex.Some? && Read(md, r, els).ex.value.bad
    decreases |els|
  {
    hide StepScan, Upper;
    if els != [] && !r.done {
      if els[0].Tk? {
        BadStep(md, r.ex.value, els[0].t, DepthAfter(r.depth, els[0].t) == 0, r.prevDot);
      }
      BadForever(md, ReadElem(md, r, els[0]), els[1..]);
    }
  }
}
