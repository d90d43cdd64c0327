/**
 Weaving scoping conjuncts into a WHERE clause (internal/policy/weave.go,
 internal/policy/enforce.go): what is inserted where, what the woven clause means in
 every shape, and what a second look at it finds.
 */
module Weaving {
  import opened Lexing
  import opened SqlTokens
  import opened ClauseScanning
  import opened SqlGrammar
  import opened ClauseReading
  import opened ClauseTheorems

  // ---------------------------------------------------------------- splicing tokens

  /** Tokens inserted at a byte offset. */
  datatype Insertion = Insertion(off: int, toks: seq<Tok>)

  function ElemEnd(el: Elem): int {
    match el
    case Tk(t) => EndOf(t)
    case Hole(_, _, end) => end
  }

  /** Insertions in order of offset, each in front of the first element ending behind it. */
  function SpliceToks(els: seq<Elem>, ins: seq<Insertion>): seq<Elem>
    decreases |els| + |ins|
  {
    if ins == [] then els
    else if els == [] || ins[0].off < ElemEnd(els[0]) then Tks(ins[0].toks) + SpliceToks(els, ins[1..])
    else [els[0]] + SpliceToks(els[1..], ins)
  }

  predicate AllEnd(els: seq<Elem>, bound: int) { forall el <- els :: ElemEnd(el) <= bound }

  predicate AllBehind(els: seq<Elem>, bound: int) { forall el <- els :: ElemEnd(el) > bound }

  /** Elements that end before every insertion are not touched. */
  lemma {:induction false} SpliceSkips(els: seq<Elem>, fs: seq<Elem>, ins: seq<Insertion>)
    requires ins != [] ==> AllEnd(els, ins[0].off)
    ensures SpliceToks(els + fs, ins) == els + SpliceToks(fs, ins)
    decreases |els|
  {
    if els == [] {
      assert els + fs == fs;
    } else if ins == [] {
      assert els + fs == els + SpliceToks(fs, ins);
    } else {
      assert (els + fs)[1..] == els[1..] + fs && (els + fs)[0] == els[0] && els[0] in els;
      SpliceSkips(els[1..], fs, ins);
    }
  }

  lemma {:induction false} SpliceHere(fs: seq<Elem>, ins: seq<Insertion>)
    requires ins != [] && AllBehind(fs, ins[0].off)
    ensures SpliceToks(fs, ins) == Tks(ins[0].toks) + SpliceToks(fs, ins[1..])
  {
    assert fs != [] ==> fs[0] in fs;
  }

  // ---------------------------------------------------------------- what is inserted

  /** A synthesized token. */
  function Syn(kind: TokenKind, text: string, at: nat): Tok { Tok(kind, text, at) }

  function Opening(at: nat): Tok { Syn(LParen, "(", at) }

  function Closing(at: nat): Tok { Syn(RParen, ")", at) }

  function Conjunction(at: nat): Tok { Syn(Ident, "AND", at) }

  function Bracketed(p: Expr, at: nat): Expr { Paren(Opening(at), p, Closing(at)) }

  /** `joinParenthesized`. */
  function Joined(ps: seq<Expr>, at: nat): Expr
    requires ps != []
  {
    if |ps| == 1 then Bracketed(ps[0], at)
    else AndOp(Joined(ps[..|ps| - 1], at), Conjunction(at), Bracketed(ps[|ps| - 1], at))
  }

  method JoinParenthesized(ps: seq<Expr>, at: nat) returns (out: seq<Tok>)
    requires ps != []
    ensures out == Toks(Joined(ps, at))
  {
    out := [];
    for i := 0 to |ps|
      invariant out == if i == 0 then [] else Toks(Joined(ps[..i], at))
    {
      assert i > 0 ==> ps[..i + 1][..i] == ps[..i];
      if i > 0 {
        out := out + [Conjunction(at)];
      }
      out := out + [Opening(at)] + Toks(ps[i]) + [Closing(at)];
      assert i > 0 ==> out == Toks(Joined(ps[..i], at)) + [Conjunction(at)] + Toks(Bracketed(ps[i], at));
    }
    assert ps[..|ps|] == ps;
  }

  /** Where a statement's WHERE slot is: the end of the keyword, the start of the tail
      clause, the end of the statement; negative when there is none. */
  datatype Slot = Slot(whereKwEnd: int, tailStart: int, end: int)

  function At(off: int): nat { if off < 0 then 0 else off }

  /** The insertions of one branch, in the order `splice` applies them. */
  function Insertions(slot: Slot, where: ClauseScan, ps: seq<Expr>): seq<Insertion> {
    if ps == [] then []
    else if slot.whereKwEnd >= 0 then
      var lead := Insertion(slot.whereKwEnd, Toks(Joined(ps, At(slot.whereKwEnd))) + [Conjunction(At(slot.whereKwEnd))]);
      if where.hasOR then [lead, Insertion(where.start, [Opening(At(where.start))]), Insertion(where.end, [Closing(At(where.end))])]
      else [lead]
    else if slot.tailStart >= 0 then
      [Insertion(slot.tailStart, [Syn(Ident, "WHERE", At(slot.tailStart))] + Toks(Joined(ps, At(slot.tailStart))))]
    else if slot.end >= 0 then
      [Insertion(slot.end, [Syn(Ident, "WHERE", At(slot.end))] + Toks(Joined(ps, At(slot.end))))]
    else []
  }

  method AssembleInsertions(slot: Slot, where: ClauseScan, ps: seq<Expr>) returns (ins: seq<Insertion>)
    ensures ins == Insertions(slot, where, ps)
  {
    ins := [];
    if |ps| == 0 {
      return;
    }
    if slot.whereKwEnd >= 0 {
      var joined := JoinParenthesized(ps, At(slot.whereKwEnd));
      ins := ins + [Insertion(slot.whereKwEnd, joined + [Conjunction(At(slot.whereKwEnd))])];
      if where.hasOR {
        ins := ins + [Insertion(where.start, [Opening(At(where.start))])];
        ins := ins + [Insertion(where.end, [Closing(At(where.end))])];
      }
    } else if slot.tailStart >= 0 {
      var joined := JoinParenthesized(ps, At(slot.tailStart));
      ins := ins + [Insertion(slot.tailStart, [Syn(Ident, "WHERE", At(slot.tailStart))] + joined)];
    } else if slot.end >= 0 {
      var joined := JoinParenthesized(ps, At(slot.end));
      ins := ins + [Insertion(slot.end, [Syn(Ident, "WHERE", At(slot.end))] + joined)];
    }
  }

  // ---------------------------------------------------------------- the woven clause

  /** `j AND e` for an AND list `e`: the list stays flat, `j` in front. */
  function Prepend(j: Expr, and: Tok, e: Expr): Expr {
    if e.AndOp? then AndOp(Prepend(j, and, e.l), e.op, e.r) else AndOp(j, and, e)
  }

  lemma {:induction false} PrependSpells(j: Expr, and: Tok, e: Expr)
    ensures Toks(Prepend(j, and, e)) == Toks(j) + [and] + Toks(e)
    ensures Segments(Prepend(j, and, e)) == Segments(j) + Segments(e)
  {
    if e.AndOp? {
      PrependSpells(j, and, e.l);
      var a, b, c := Toks(j) + [and], Toks(e.l), [e.op] + Toks(e.r);
      assert Toks(Prepend(j, and, e)) == a + b + [e.op] + Toks(e.r) == a + (b + c);
      assert Toks(e) == b + c;
      assert Segments(j) + Segments(e.l) + Segments(e.r) == Segments(j) + Segments(e);
    }
  }

  lemma {:induction false} PrependWf(md: Mode, j: Expr, and: Tok, e: Expr)
    requires Wf(md, j) && Level(j) >= 2 && IsKeyword(and, "AND") && Wf(md, e) && Level(e) >= 2
    ensures Wf(md, Prepend(j, and, e)) && Level(Prepend(j, and, e)) == 2
  {
    if e.AndOp? {
      PrependWf(md, j, and, e.l);
    }
  }

  lemma {:induction false} PrependMeans(j: Expr, and: Tok, e: Expr, row: Row)
    ensures Eval(Prepend(j, and, e), row) == And3(Eval(j, row), Eval(e, row))
  {
    if e.AndOp? {
      PrependMeans(j, and, e.l, row);
      And3Assoc(Eval(j, row), Eval(e.l, row), Eval(e.r, row));
    }
  }

  /** All policy conjuncts together. */
  function Scope(ps: seq<Expr>, row: Row): Truth {
    if ps == [] then True
    else And3(Scope(ps[..|ps| - 1], row), Eval(ps[|ps| - 1], row))
  }

  lemma {:induction false} ScopeTrue(ps: seq<Expr>, row: Row)
    ensures Scope(ps, row).True? <==> forall p <- ps :: Eval(p, row).True?
  {
    if ps != [] {
      var front, last := ps[..|ps| - 1], ps[|ps| - 1];
      ScopeTrue(front, row);
      assert ps == front + [last];
      assert And3(Scope(front, row), Eval(last, row)).True? <==> Scope(front, row).True? && Eval(last, row).True?;
      assert (forall p <- ps :: Eval(p, row).True?) <==> (forall p <- front :: Eval(p, row).True?) && Eval(last, row).True?;
    }
  }

  lemma {:induction false} JoinedWf(md: Mode, ps: seq<Expr>, at: nat)
    requires ps != [] && forall p <- ps :: Wf(md, p)
    ensures Wf(md, Joined(ps, at)) && Level(Joined(ps, at)) >= 2
  {
    if |ps| > 1 {
      JoinedWf(md, ps[..|ps| - 1], at);
    }
    AndWord(at);
  }

  lemma AndWord(at: nat)
    ensures IsKeyword(Conjunction(at), "AND")
  {
    assert Upper("AND") == "AND";
  }

  lemma {:induction false} JoinedMeans(ps: seq<Expr>, at: nat, row: Row)
    requires ps != []
    ensures Eval(Joined(ps, at), row) == Scope(ps, row)
  {
    if |ps| > 1 {
      JoinedMeans(ps[..|ps| - 1], at, row);
    } else {
      assert ps[..0] == [];
      assert And3(True, Eval(ps[0], row)) == Eval(ps[0], row);
    }
  }

  /** The clause after weaving `ps` into it. */
  function WovenClause(cl: Clause, ps: seq<Expr>, kwEnd: nat, start: nat, end: nat): Clause
    requires ps != []
  {
    var j, and := Joined(ps, kwEnd), Conjunction(kwEnd);
    if Loose(cl.e) then Clause(AndOp(j, and, Paren(Opening(start), cl.e, Closing(end))), cl.links)
    else Clause(Prepend(j, and, cl.e), cl.links)
  }

  lemma {:induction false} WovenWf(md: Mode, cl: Clause, ps: seq<Expr>, kwEnd: nat, start: nat, end: nat)
    requires WfClause(md, cl) && ps != [] && forall p <- ps :: Wf(md, p)
    ensures WfClause(md, WovenClause(cl, ps, kwEnd, start, end)) && !Loose(WovenClause(cl, ps, kwEnd, start, end).e)
  {
    hide WfLink, Joined;
    JoinedWf(md, ps, kwEnd);
    AndWord(kwEnd);
    LooseByLevel(md, cl.e);
    if !Loose(cl.e) {
      PrependWf(md, Joined(ps, kwEnd), Conjunction(kwEnd), cl.e);
    }
    LooseByLevel(md, WovenClause(cl, ps, kwEnd, start, end).e);
  }

  // ---------------------------------------------------------------- shapes

  /** One shape of a statement: which construct is a filter tree, what the trees compose
      to, and which guarded conjuncts are on. */
  datatype Shape = Shape(isTree: nat -> bool, tree: nat -> Expr, on: nat -> bool, body: nat -> Expr)

  ghost predicate ShapeOk(md: Mode, sh: Shape) {
    (forall id :: Wf(md, sh.tree(id)) && Level(sh.tree(id)) >= 3) && forall id :: Wf(md, sh.body(id))
  }

  /** What a construct prints. */
  function HoleToks(sh: Shape, id: nat, end: int): seq<Tok> {
    if sh.isTree(id) then Toks(sh.tree(id))
    else if sh.on(id) then [Conjunction(At(end)), Opening(At(end))] + Toks(sh.body(id)) + [Closing(At(end))]
    else []
  }

  /** The token text of a shape. */
  function Rendered(els: seq<Elem>, sh: Shape): seq<Tok> {
    if els == [] then []
    else (match els[0] case Tk(t) => [t] case Hole(id, _, end) => HoleToks(sh, id, end)) + Rendered(els[1..], sh)
  }

  /** The WHERE expression a shape's database reads, from the leading expression on. */
  function Conjoined(e: Expr, ks: seq<Link>, sh: Shape): Expr
    decreases |ks|
  {
    if ks == [] then e
    else Conjoined(WithLink(e, ks[0], sh), ks[1..], sh)
  }

  function WithLink(e: Expr, k: Link, sh: Shape): Expr {
    match k
    case AndExpr(op, x) => AndOp(e, op, x)
    case Guarded(id, end) => if sh.on(id) then AndOp(e, Conjunction(At(end)), Bracketed(sh.body(id), At(end))) else e
    case AndTree(op, id, end) => AndOp(e, op, sh.tree(id))
  }

  function InShape(cl: Clause, sh: Shape): Expr { Conjoined(cl.e, cl.links, sh) }

  /** Links of the kind their construct has. */
  predicate KindsOk(ks: seq<Link>, sh: Shape) {
    forall k <- ks :: (k.Guarded? ==> !sh.isTree(k.id)) && (k.AndTree? ==> sh.isTree(k.id))
  }

  lemma {:induction false} RenderedConcat(els: seq<Elem>, fs: seq<Elem>, sh: Shape)
    ensures Rendered(els + fs, sh) == Rendered(els, sh) + Rendered(fs, sh)
    decreases |els|
  {
    hide HoleToks;
    if els == [] {
      assert els + fs == fs;
    } else {
      assert (els + fs)[1..] == els[1..] + fs;
      RenderedConcat(els[1..], fs, sh);
    }
  }

  lemma {:induction false} RenderedTokens(ts: seq<Tok>, sh: Shape)
    ensures Rendered(Tks(ts), sh) == ts
    decreases |ts|
  {
    if ts != [] {
      assert Tks(ts)[1..] == Tks(ts[1..]) && Tks(ts)[0] == Tk(ts[0]);
      RenderedTokens(ts[1..], sh);
    }
  }

  lemma {:induction false} LinkSpells(e: Expr, k: Link, sh: Shape)
    requires KindsOk([k], sh)
    ensures Toks(WithLink(e, k, sh)) == Toks(e) + Rendered(LinkElems(k), sh)
  {
    hide Rendered;
    assert k in [k];
    match k
    case AndExpr(op, x) =>
      RenderedTokens([op] + Toks(x), sh);
      Right(e, op, x);
    case Guarded(id, end) =>
      RenderedHole(sh, id, end);
      GuardSpells(e, sh, id, end);
    case AndTree(op, id, end) =>
      RenderedHole(sh, id, end);
      RenderedConcat([Tk(op)], [Hole(id, false, end)], sh);
      RenderedTokens([op], sh);
      assert Tks([op]) == [Tk(op)] && [Tk(op)] + [Hole(id, false, end)] == LinkElems(k);
      Right(e, op, sh.tree(id));
  }

  lemma {:induction false} Right(e: Expr, op: Tok, x: Expr)
    ensures Toks(AndOp(e, op, x)) == Toks(e) + ([op] + Toks(x))
  {
  }

  lemma {:induction false} RenderedHole(sh: Shape, id: nat, end: nat)
    ensures Rendered([Hole(id, false, end)], sh) == HoleToks(sh, id, end)
  {
    var h: Elem := Hole(id, false, end);
    assert [h][1..] == [];
    assert HoleToks(sh, id, end) + [] == HoleToks(sh, id, end);
  }

  lemma {:induction false} GuardSpells(e: Expr, sh: Shape, id: nat, end: nat)
    requires !sh.isTree(id)
    ensures Toks(WithLink(e, Guarded(id, end), sh)) == Toks(e) + HoleToks(sh, id, end)
  {
    if sh.on(id) {
      var and, open, close, b := Conjunction(At(end)), Opening(At(end)), Closing(At(end)), Toks(sh.body(id));
      assert Toks(e) + [and] + ([open] + b + [close]) == Toks(e) + ([and, open] + b + [close]);
    } else {
      assert Toks(e) + [] == Toks(e);
    }
  }

  lemma {:induction false} NothingRendered(sh: Shape)
    ensures Rendered([], sh) == []
  {
  }

  lemma {:induction false} LinksSpell(e: Expr, ks: seq<Link>, sh: Shape)
    requires KindsOk(ks, sh)
    ensures Toks(Conjoined(e, ks, sh)) == Toks(e) + Rendered(LinksElems(ks), sh)
    decreases |ks|
  {
    hide Toks, WithLink, LinkElems, Rendered, HoleToks;
    if ks == [] {
      NothingRendered(sh);
      assert Toks(e) + [] == Toks(e);
    } else {
      assert ks[0] in ks;
      LinkSpells(e, ks[0], sh);
      LinksSpell(WithLink(e, ks[0], sh), ks[1..], sh);
      RenderedConcat(LinkElems(ks[0]), LinksElems(ks[1..]), sh);
    }
  }

  /** The expression of a shape is spelled by the tokens that shape prints. */
  lemma {:induction false} ShapeSpells(cl: Clause, sh: Shape)
    requires KindsOk(cl.links, sh)
    ensures Toks(InShape(cl, sh)) == Rendered(Elems(cl), sh)
  {
    LinksSpell(cl.e, cl.links, sh);
    RenderedConcat(Tks(Toks(cl.e)), LinksElems(cl.links), sh);
    RenderedTokens(Toks(cl.e), sh);
  }

  lemma {:induction false} ConjoinedWf(md: Mode, e: Expr, ks: seq<Link>, sh: Shape)
    requires Wf(md, e) && (ks != [] ==> Level(e) >= 2) && (forall k <- ks :: WfLink(md, k)) && ShapeOk(md, sh)
    ensures Wf(md, Conjoined(e, ks, sh))
    decreases |ks|
  {
    hide WfLink;
    if ks != [] {
      LinkWf(md, e, ks[0], sh);
      ConjoinedWf(md, WithLink(e, ks[0], sh), ks[1..], sh);
    }
  }

  lemma {:induction false} LinkWf(md: Mode, e: Expr, k: Link, sh: Shape)
    requires Wf(md, e) && Level(e) >= 2 && WfLink(md, k) && ShapeOk(md, sh)
    ensures Wf(md, WithLink(e, k, sh)) && Level(WithLink(e, k, sh)) >= 2
  {
    if k.Guarded? {
      AndWord(At(k.end));
    }
  }

  /** Links only conjoin, whatever they are conjoined to. */
  lemma {:induction false} LinksConjoin(e: Expr, d: Expr, x: Truth, ks: seq<Link>, sh: Shape, row: Row)
    requires Eval(d, row) == And3(x, Eval(e, row))
    ensures Eval(Conjoined(d, ks, sh), row) == And3(x, Eval(Conjoined(e, ks, sh), row))
    decreases |ks|
  {
    if ks != [] {
      LinkConjoins(e, d, x, ks[0], sh, row);
      LinksConjoin(WithLink(e, ks[0], sh), WithLink(d, ks[0], sh), x, ks[1..], sh, row);
    }
  }

  lemma {:induction false} LinkConjoins(e: Expr, d: Expr, x: Truth, k: Link, sh: Shape, row: Row)
    requires Eval(d, row) == And3(x, Eval(e, row))
    ensures Eval(WithLink(d, k, sh), row) == And3(x, Eval(WithLink(e, k, sh), row))
  {
    hide Eval;
    match k
    case AndExpr(op, y) => OneMore(e, d, x, op, y, row);
    case Guarded(id, end) => OneMore(e, d, x, Conjunction(At(end)), Bracketed(sh.body(id), At(end)), row);
    case AndTree(op, id, end) => OneMore(e, d, x, op, sh.tree(id), row);
  }

  lemma {:induction false} OneMore(e: Expr, d: Expr, x: Truth, op: Tok, y: Expr, row: Row)
    requires Eval(d, row) == And3(x, Eval(e, row))
    ensures Eval(AndOp(d, op, y), row) == And3(x, Eval(AndOp(e, op, y), row))
  {
    hide And3, Toks;
    And3Assoc(x, Eval(e, row), Eval(y, row));
  }

  /** In every shape the woven clause is read by the grammar as the policy conjuncts AND
      the clause as it was, top-level OR or not. */
  lemma {:induction false} WovenMeans(md: Mode, cl: Clause, ps: seq<Expr>, kwEnd: nat, start: nat, end: nat, sh: Shape, row: Row)
    requires WfClause(md, cl) && ps != [] && (forall p <- ps :: Wf(md, p)) && ShapeOk(md, sh)
    ensures
      var woven := InShape(WovenClause(cl, ps, kwEnd, start, end), sh);
      Wf(md, woven) && Eval(woven, row) == And3(Scope(ps, row), Eval(InShape(cl, sh), row)) &&
      (Eval(woven, row).True? <==> Eval(InShape(cl, sh), row).True? && forall p <- ps :: Eval(p, row).True?)
  {
    hide ShapeOk, Joined, Scope, Conjoined, WfLink;
    var w := WovenClause(cl, ps, kwEnd, start, end);
    WovenWf(md, cl, ps, kwEnd, start, end);
    ConjoinedWf(md, w.e, w.links, sh);
    JoinedMeans(ps, kwEnd, row);
    PrependMeans(Joined(ps, kwEnd), Conjunction(kwEnd), cl.e, row);
    LinksConjoin(cl.e, w.e, Scope(ps, row), cl.links, sh, row);
    ScopeTrue(ps, row);
  }
}
