/**
 Weave, then look again (internal/policy/weave.go, internal/policy/enforce.go): the
 insertions produce exactly the woven clause, an independent scan of the result finds
 every policy conjunct, and weaving a second time changes nothing.
 */
module Enforcing {
  import opened Lexing
  import opened SqlTokens
  import opened ClauseScanning
  import opened SqlGrammar
  import opened ClauseReading
  import opened ClauseTheorems
  import opened Weaving

  // ---------------------------------------------------------------- matching segments

  const FOLDED := {"AND", "OR", "NOT", "XOR", "IS", "NULL", "TRUE", "FALSE", "IN", "EXISTS", "SELECT", "FROM", "WHERE", "AS",
    "ON", "JOIN", "INNER", "LEFT", "RIGHT", "CROSS", "OUTER", "NATURAL", "USING", "LIKE", "REGEXP", "RLIKE", "BETWEEN", "CASE",
    "WHEN", "THEN", "ELSE", "DISTINCT", "ALL", "LIMIT", "GROUP", "BY", "ORDER", "HAVING", "UNION", "INTERVAL", "BINARY", "DIV",
    "MOD", "COLLATE", "ASC", "DESC"}

  /** `conjTokMatch`: `exactIdents` on dialects whose identifiers fold no case. */
  predicate TokMatch(exactIdents: bool, a: ConjTok, b: ConjTok) {
    if a.text == b.text && a.ident == b.ident then true
    else if !a.ident || !b.ident || Upper(a.text) != Upper(b.text) then false
    else if !exactIdents then true
    else !a.afterDot && !b.afterDot && Upper(a.text) in FOLDED
  }

  predicate TokensMatch(exactIdents: bool, a: seq<ConjTok>, b: seq<ConjTok>) {
    |a| == |b| && forall i :: 0 <= i < |a| ==> TokMatch(exactIdents, a[i], b[i])
  }

  function Wrapped(want: seq<ConjTok>): seq<ConjTok> { [ConjTok("(", false, false)] + want + [ConjTok(")", false, false)] }

  /** `segsContain`: a segment is the conjunct, bare or in one pair of parentheses. */
  predicate SegsContain(exactIdents: bool, segs: seq<seq<ConjTok>>, want: seq<ConjTok>) {
    exists seg <- segs :: TokensMatch(exactIdents, seg, want) || TokensMatch(exactIdents, seg, Wrapped(want))
  }

  method ConjTokensEqual(exactIdents: bool, a: seq<ConjTok>, b: seq<ConjTok>) returns (same: bool)
    ensures same == TokensMatch(exactIdents, a, b)
  {
    hide TokMatch;
    if |a| != |b| {
      return false;
    }
    for i := 0 to |a|
      invariant forall j :: 0 <= j < i ==> TokMatch(exactIdents, a[j], b[j])
    {
      if !TokMatch(exactIdents, a[i], b[i]) {
        return false;
      }
    }
    return true;
  }

  method SegsContainLoop(exactIdents: bool, segs: seq<seq<ConjTok>>, conjunct: seq<Tok>) returns (found: bool)
    ensures found == SegsContain(exactIdents, segs, Normal(conjunct))
  {
    hide TokensMatch;
    var want := NormalizedTokens(conjunct);
    for i := 0 to |segs|
      invariant forall j :: 0 <= j < i ==> !TokensMatch(exactIdents, segs[j], want) && !TokensMatch(exactIdents, segs[j], Wrapped(want))
    {
      var bare := ConjTokensEqual(exactIdents, segs[i], want);
      var wrapped := ConjTokensEqual(exactIdents, segs[i], Wrapped(want));
      if bare || wrapped {
        assert segs[i] in segs;
        return true;
      }
    }
    return false;
  }

  /** `wherePresent`: an identical conjunct stands unconditionally at the top level. */
  predicate Present(exactIdents: bool, where: ClauseScan, p: Expr) {
    where.lexOK && !where.hasOR && SegsContain(exactIdents, where.segs, Normal(Toks(p)))
  }

  /** A parenthesized conjunct normalizes to the conjunct in one pair of parentheses. */
  lemma {:induction false} BracketedNormal(p: Expr, at: nat)
    ensures TokensMatch(true, Normal(Toks(Bracketed(p, at))), Wrapped(Normal(Toks(p))))
    ensures TokensMatch(false, Normal(Toks(Bracketed(p, at))), Wrapped(Normal(Toks(p))))
  {
    var ts, open, close := Toks(p), Opening(at), Closing(at);
    var first := ConjTok("(", false, false);
    assert [open] + ts == [open] + ts;
    AppendConcat([], [open] + ts, [close]);
    assert ([open] + ts)[1..] == ts && [close][1..] == [];
    assert AppendAll([], [open] + ts) == AppendAll(Append([], open), ts);
    assert Append([], open) == [first] + [];
    AppendBehind(first, [], ts);
    var body := [first] + Normal(ts);
    assert AppendAll(body, [close]) == AppendAll(Append(body, close), []) == Append(body, close);
    assert Toks(Bracketed(p, at)) == [open] + ts + [close];
    var got := Normal(Toks(Bracketed(p, at)));
    assert got == body + [got[|got| - 1]];
    assert got[|got| - 1].text == ")" && !got[|got| - 1].ident;
    assert Wrapped(Normal(ts)) == body + [ConjTok(")", false, false)];
  }

  lemma {:induction false} JoinedSegments(ps: seq<Expr>, at: nat)
    requires ps != []
    ensures |Segments(Joined(ps, at))| == |ps|
    ensures forall i :: 0 <= i < |ps| ==> Segments(Joined(ps, at))[i] == Normal(Toks(Bracketed(ps[i], at)))
  {
    hide Toks;
    if |ps| > 1 {
      JoinedSegments(ps[..|ps| - 1], at);
    }
  }

  // ---------------------------------------------------------------- the woven statement

  /** A statement with a WHERE clause, its elements in source order. */
  ghost predicate Placed(pre: seq<Elem>, where: Tok, cl: Clause, post: seq<Elem>) {
    AllEnd(pre + [Tk(where)], EndOf(where)) && AllBehind(Elems(cl), EndOf(where)) &&
    EndOf(where) <= ClauseStart(cl) && AllBehind(Elems(cl), ClauseStart(cl)) &&
    ClauseStart(cl) <= ClauseEnd(cl) && AllEnd(Elems(cl), ClauseEnd(cl)) && AllBehind(post, ClauseEnd(cl))
  }

  function Statement(pre: seq<Elem>, where: Tok, cl: Clause, post: seq<Elem>): seq<Elem> {
    pre + [Tk(where)] + Elems(cl) + post
  }

  lemma BehindEarlier(els: seq<Elem>, a: int, b: int)
    requires AllBehind(els, b) && a <= b
    ensures AllBehind(els, a)
  {
  }

  lemma BehindBoth(els: seq<Elem>, fs: seq<Elem>, a: int)
    requires AllBehind(els, a) && AllBehind(fs, a)
    ensures AllBehind(els + fs, a)
  {
  }

  lemma EndBy(els: seq<Elem>, a: int, b: int)
    requires AllEnd(els, a) && a <= b
    ensures AllEnd(els, b)
  {
  }

  /** Insertions in front of the clause's first element, and nowhere else. */
  lemma {:induction false} LeadSplices(head: seq<Elem>, rest: seq<Elem>, lead: Insertion, more: seq<Insertion>)
    requires AllEnd(head, lead.off) && AllBehind(rest, lead.off)
    ensures SpliceToks(head + rest, [lead] + more) == head + Tks(lead.toks) + SpliceToks(rest, more)
  {
    assert ([lead] + more)[1..] == more;
    SpliceSkips(head, rest, [lead] + more);
    SpliceHere(rest, [lead] + more);
  }

  lemma {:induction false} NoInsertions(els: seq<Elem>)
    ensures SpliceToks(els, []) == els
  {
  }

  /** The clause as the insertions leave it. */
  function Woven(cl: Clause, where: Tok, ps: seq<Expr>): Clause
    requires ps != []
  {
    WovenClause(cl, ps, EndOf(where), At(ClauseStart(cl)), At(ClauseEnd(cl)))
  }

  /** The inserted texts turn the statement's clause into the woven clause. */
  lemma WeaveInserts(md: Mode, pre: seq<Elem>, where: Tok, cl: Clause, post: seq<Elem>, cs: ClauseScan, slot: Slot, ps: seq<Expr>)
    requires WfClause(md, cl) && Placed(pre, where, cl, post) && ps != []
    requires slot.whereKwEnd == EndOf(where)
    requires cs.hasOR == Loose(cl.e) && cs.start == ClauseStart(cl) && cs.end == ClauseEnd(cl)
    ensures SpliceToks(Statement(pre, where, cl, post), Insertions(slot, cs, ps)) == Statement(pre, where, Woven(cl, where, ps), post)
  {
    hide SpliceToks, Joined, Elems, ClauseStart, ClauseEnd, AllBehind, AllEnd, WfClause;
    var ins := Insertions(slot, cs, ps);
    var head, body := pre + [Tk(where)], Elems(cl);
    BehindEarlier(post, EndOf(where), ClauseEnd(cl));
    BehindBoth(body, post, EndOf(where));
    assert Statement(pre, where, cl, post) == head + (body + post);
    LeadSplices(head, body + post, ins[0], ins[1..]);
    assert [ins[0]] + ins[1..] == ins;
    if Loose(cl.e) {
      LooseElems(md, cl);
      BehindEarlier(post, ClauseStart(cl), ClauseEnd(cl));
      BehindBoth(body, post, ClauseStart(cl));
      NothingEnds(ClauseStart(cl));
      LeadSplices([], body + post, ins[1], [ins[2]]);
      assert [] + (body + post) == body + post && ins[1..] == [ins[1]] + [ins[2]];
      LeadSplices(body, post, ins[2], []);
      assert [ins[2]] + [] == [ins[2]];
      NoInsertions(post);
      WrappedElems(cl, where, ps);
      Assemble(head, Tks(ins[0].toks), Tks(ins[1].toks), body, Tks(ins[2].toks), post);
    } else {
      assert ins[1..] == [];
      NoInsertions(body + post);
      FlatElems(cl, where, ps);
      assert head + Tks(ins[0].toks) + (body + post) == head + (Tks(ins[0].toks) + body) + post;
    }
  }

  lemma Assemble(head: seq<Elem>, a: seq<Elem>, b: seq<Elem>, body: seq<Elem>, c: seq<Elem>, post: seq<Elem>)
    ensures head + a + ([] + b + (body + c + post)) == head + (a + b + body + c) + post
  {
  }

  lemma NothingEnds(bound: int)
    ensures AllEnd([], bound)
  {
  }

  lemma LooseElems(md: Mode, cl: Clause)
    requires WfClause(md, cl) && Loose(cl.e)
    ensures cl.links == []
  {
    LooseByLevel(md, cl.e);
  }

  lemma {:induction false} WrappedElems(cl: Clause, where: Tok, ps: seq<Expr>)
    requires ps != [] && Loose(cl.e) && cl.links == []
    ensures
      var j, s, e := Toks(Joined(ps, EndOf(where))) + [Conjunction(EndOf(where))], At(ClauseStart(cl)), At(ClauseEnd(cl));
      Elems(Woven(cl, where, ps)) == Tks(j) + Tks([Opening(s)]) + Elems(cl) + Tks([Closing(e)])
  {
    hide Joined, ClauseStart, ClauseEnd;
    var j, s, e := Joined(ps, EndOf(where)), At(ClauseStart(cl)), At(ClauseEnd(cl));
    var and := Conjunction(EndOf(where));
    var w := Woven(cl, where, ps);
    assert Toks(w.e) == Toks(j) + [and] + ([Opening(s)] + Toks(cl.e) + [Closing(e)]);
    assert Toks(w.e) == (Toks(j) + [and]) + [Opening(s)] + Toks(cl.e) + [Closing(e)];
    hide Toks;
    TksConcat(Toks(j) + [and], [Opening(s)]);
    TksConcat(Toks(j) + [and] + [Opening(s)], Toks(cl.e));
    TksConcat(Toks(j) + [and] + [Opening(s)] + Toks(cl.e), [Closing(e)]);
    assert Elems(w) == Tks(Toks(w.e)) + [] && Elems(cl) == Tks(Toks(cl.e)) + [];
  }

  lemma {:induction false} FlatElems(cl: Clause, where: Tok, ps: seq<Expr>)
    requires ps != [] && !Loose(cl.e)
    ensures Elems(Woven(cl, where, ps)) == Tks(Toks(Joined(ps, EndOf(where))) + [Conjunction(EndOf(where))]) + Elems(cl)
  {
    hide Joined, Toks;
    var j, and := Joined(ps, EndOf(where)), Conjunction(EndOf(where));
    PrependSpells(j, and, cl.e);
    TksConcat(Toks(j) + [and], Toks(cl.e));
  }

  // ---------------------------------------------------------------- looking again

  /** The first segments of the woven clause are the policies, in order. */
  lemma WovenSegments(cl: Clause, where: Tok, ps: seq<Expr>, i: nat)
    requires ps != [] && i < |ps|
    ensures Normal(Toks(Bracketed(ps[i], EndOf(where)))) in ClauseSegments(Woven(cl, where, ps))
    ensures !Loose(cl.e) ==> forall s <- ClauseSegments(cl) :: s in ClauseSegments(Woven(cl, where, ps))
  {
    hide Joined, Toks, Normal;
    var j, and := Joined(ps, EndOf(where)), Conjunction(EndOf(where));
    JoinedSegments(ps, EndOf(where));
    PrependSpells(j, and, cl.e);
    assert Segments(j)[i] in Segments(j);
    var w := Woven(cl, where, ps);
    assert w.links == cl.links;
    assert Segments(j) <= Segments(w.e);
    assert forall s <- Segments(j) :: s in Segments(w.e);
  }

  lemma {:induction false} FoundAmong(exactIdents: bool, segs: seq<seq<ConjTok>>, p: Expr, at: nat)
    requires Normal(Toks(Bracketed(p, at))) in segs
    ensures SegsContain(exactIdents, segs, Normal(Toks(p)))
  {
    BracketedNormal(p, at);
    hide TokensMatch, Toks, Normal, Wrapped;
  }

  lemma StillFound(exactIdents: bool, segs: seq<seq<ConjTok>>, segs': seq<seq<ConjTok>>, want: seq<ConjTok>)
    requires SegsContain(exactIdents, segs, want) && forall s <- segs :: s in segs'
    ensures SegsContain(exactIdents, segs', want)
  {
    hide TokensMatch, Wrapped;
  }

  /** The conjuncts a weave has to insert: those the statement does not carry yet. */
  function Needed(exactIdents: bool, where: ClauseScan, ps: seq<Expr>): seq<Expr> {
    if ps == [] then []
    else (if Present(exactIdents, where, ps[0]) then [] else [ps[0]]) + Needed(exactIdents, where, ps[1..])
  }

  lemma {:induction false} NeededMember(exactIdents: bool, where: ClauseScan, ps: seq<Expr>)
    ensures forall p :: p in Needed(exactIdents, where, ps) <==> p in ps && !Present(exactIdents, where, p)
  {
    if ps != [] {
      assert ps == [ps[0]] + ps[1..];
      NeededMember(exactIdents, where, ps[1..]);
    }
    hide Present;
  }

  /** Weave then enforce: on the woven statement the enforcing scan, which shares nothing
      with the weaver but the token stream, reads the clause, sees no top-level OR, and
      finds every policy conjunct, inserted or already there; a second weave has nothing
      to insert. */
  lemma {:induction false} WovenIsEnforced(md: Mode, exactIdents: bool, pre: seq<Elem>, where: Tok, cl: Clause, post: seq<Elem>, slot: Slot, ps: seq<Expr>)
    requires Before(pre, 0, false) && IsKeyword(where, "WHERE") && WfClause(md, cl) && Ends(post)
    requires Placed(pre, where, cl, post) && slot.whereKwEnd == EndOf(where) && forall p <- ps :: Wf(md, p)
    ensures
      var stmt := Statement(pre, where, cl, post);
      var cs := WhereScan(md, stmt);
      var again := WhereScan(md, SpliceToks(stmt, Insertions(slot, cs, Needed(exactIdents, cs, ps))));
      (ps != [] ==> again.lexOK && !again.hasOR) &&
      (forall p <- ps :: Present(exactIdents, again, p)) && Needed(exactIdents, again, ps) == []
  {
    hide Present, Placed, Elems, SpliceToks, Joined, WfClause, Ends, Before, WhereScan, Insertions, ClauseSegments, Toks;
    var stmt := Statement(pre, where, cl, post);
    WhereIsClause(md, pre, where, cl, post);
    var cs := WhereScan(md, stmt);
    var need := Needed(exactIdents, cs, ps);
    NeededMember(exactIdents, cs, ps);
    var again := WhereScan(md, SpliceToks(stmt, Insertions(slot, cs, need)));
    if need == [] {
      NothingNeeded(stmt, slot, cs);
      assert forall p <- ps :: Present(exactIdents, cs, p);
      PresentMeansRead(exactIdents, cs, ps);
    } else {
      WeaveInserts(md, pre, where, cl, post, cs, slot, need);
      WovenWf(md, cl, need, EndOf(where), At(ClauseStart(cl)), At(ClauseEnd(cl)));
      WhereIsClause(md, pre, where, Woven(cl, where, need), post);
      forall p | p in ps ensures Present(exactIdents, again, p) {
        OneEnforced(exactIdents, cl, where, need, cs, again, p);
      }
    }
    NeededMember(exactIdents, again, ps);
    NoneNeeded(exactIdents, again, ps);
  }

  lemma {:induction false} NoneNeeded(exactIdents: bool, where: ClauseScan, ps: seq<Expr>)
    requires forall p <- ps :: Present(exactIdents, where, p)
    ensures Needed(exactIdents, where, ps) == []
  {
    hide Present;
    if ps != [] {
      assert ps[0] in ps;
      NoneNeeded(exactIdents, where, ps[1..]);
    }
  }

  lemma {:induction false} NothingNeeded(stmt: seq<Elem>, slot: Slot, cs: ClauseScan)
    ensures SpliceToks(stmt, Insertions(slot, cs, [])) == stmt
  {
  }

  lemma PresentMeansRead(exactIdents: bool, cs: ClauseScan, ps: seq<Expr>)
    requires forall p <- ps :: Present(exactIdents, cs, p)
    ensures ps != [] ==> cs.lexOK && !cs.hasOR
  {
    hide SegsContain;
    if ps != [] {
      assert ps[0] in ps;
    }
  }

  lemma OneEnforced(exactIdents: bool, cl: Clause, where: Tok, need: seq<Expr>, cs: ClauseScan, again: ClauseScan, p: Expr)
    requires need != [] && (p in need || Present(exactIdents, cs, p))
    requires cs.hasOR == Loose(cl.e) && (!cs.hasOR ==> cs.segs == ClauseSegments(cl))
    requires again.lexOK && !again.hasOR && again.segs == ClauseSegments(Woven(cl, where, need))
    ensures Present(exactIdents, again, p)
  {
    hide SegsContain, Woven, ClauseSegments, Toks, Normal;
    if p in need {
      var i :| 0 <= i < |need| && need[i] == p;
      WovenSegments(cl, where, need, i);
      FoundAmong(exactIdents, again.segs, p, EndOf(where));
    } else {
      WovenSegments(cl, where, need, 0);
      StillFound(exactIdents, cs.segs, again.segs, Normal(Toks(p)));
    }
  }

  // ---------------------------------------------------------------- what weaving achieves

  /** Weaving scopes every shape. The clause the database reads after weaving, in any
      shape, is true on a row exactly when the clause it read before and every inserted
      policy conjunct are; nothing outside the clause changes. */
  lemma {:induction false} WeavingScopes(md: Mode, pre: seq<Elem>, where: Tok, cl: Clause, post: seq<Elem>, slot: Slot, ps: seq<Expr>, sh: Shape, row: Row)
    requires Before(pre, 0, false) && IsKeyword(where, "WHERE") && WfClause(md, cl) && Ends(post)
    requires Placed(pre, where, cl, post) && slot.whereKwEnd == EndOf(where) && ps != [] && forall p <- ps :: Wf(md, p)
    requires ShapeOk(md, sh) && KindsOk(cl.links, sh)
    ensures
      var stmt, cl' := Statement(pre, where, cl, post), Woven(cl, where, ps);
      var before, after := InShape(cl, sh), InShape(cl', sh);
      SpliceToks(stmt, Insertions(slot, WhereScan(md, stmt), ps)) == Statement(pre, where, cl', post) &&
      Toks(before) == Rendered(Elems(cl), sh) && Toks(after) == Rendered(Elems(cl'), sh) &&
      Wf(md, before) && Wf(md, after) &&
      (Eval(after, row).True? <==> Eval(before, row).True? && forall p <- ps :: Eval(p, row).True?)
  {
    hide Placed, Elems, SpliceToks, Joined, Ends, Before, WhereScan, Insertions, Toks, ShapeOk, WfLink, Conjoined, WovenClause;
    WhereIsClause(md, pre, where, cl, post);
    WeaveInserts(md, pre, where, cl, post, WhereScan(md, Statement(pre, where, cl, post)), slot, ps);
    WovenMeans(md, cl, ps, EndOf(where), At(ClauseStart(cl)), At(ClauseEnd(cl)), sh, row);
    ShapeSpells(cl, sh);
    WovenLinks(cl, where, ps);
    ShapeSpells(Woven(cl, where, ps), sh);
    ConjoinedWf(md, cl.e, cl.links, sh);
  }

  lemma WovenLinks(cl: Clause, where: Tok, ps: seq<Expr>)
    requires ps != []
    ensures Woven(cl, where, ps).links == cl.links
  {
  }

  /** A statement without a WHERE gets one that is exactly the policies, in front of its
      tail clause or at its end. */
  lemma WhereSynthesized(md: Mode, pre: seq<Elem>, post: seq<Elem>, slot: Slot, cs: ClauseScan, ps: seq<Expr>, row: Row)
    requires slot.whereKwEnd < 0 && (slot.tailStart >= 0 || slot.end >= 0) && ps != [] && forall p <- ps :: Wf(md, p)
    requires var at := if slot.tailStart >= 0 then slot.tailStart else slot.end; AllEnd(pre, at) && AllBehind(post, at)
    ensures
      var at := At(if slot.tailStart >= 0 then slot.tailStart else slot.end);
      var cl := Clause(Joined(ps, at), []);
      SpliceToks(pre + post, Insertions(slot, cs, ps)) == Statement(pre, Syn(Ident, "WHERE", at), cl, post) && WfClause(md, cl) &&
      (Eval(cl.e, row).True? <==> forall p <- ps :: Eval(p, row).True?)
  {
    hide SpliceToks, Joined, Toks, AllEnd, AllBehind, Wf;
    var at := At(if slot.tailStart >= 0 then slot.tailStart else slot.end);
    var cl, where := Clause(Joined(ps, at), []), Syn(Ident, "WHERE", at);
    var ins := Insertions(slot, cs, ps);
    LeadSplices(pre, post, ins[0], []);
    assert [ins[0]] + [] == ins;
    NoInsertions(post);
    TksConcat([where], Toks(cl.e));
    assert Tks([where]) == [Tk(where)] && Elems(cl) == Tks(Toks(cl.e)) + [];
    JoinedWf(md, ps, at);
    JoinedMeans(ps, at, row);
    ScopeTrue(ps, row);
  }

  /** Nothing is present in a statement without a WHERE. */
  lemma {:induction false} AllNeeded(exactIdents: bool, ps: seq<Expr>)
    ensures Needed(exactIdents, NOT_FOUND, ps) == ps
  {
    if ps != [] {
      AllNeeded(exactIdents, ps[1..]);
    }
  }

  /** Weave then enforce where there was no WHERE: every conjunct is needed; the enforcing
      scan finds the WHERE that was made, and in it every one of them; a second weave has
      nothing to insert. */
  lemma {:induction false} SynthesizedIsEnforced(md: Mode, exactIdents: bool, pre: seq<Elem>, post: seq<Elem>, slot: Slot, ps: seq<Expr>)
    requires Before(pre, 0, false) && Ends(post) && WhereScan(md, pre + post) == NOT_FOUND && forall p <- ps :: Wf(md, p)
    requires slot.whereKwEnd < 0 && (slot.tailStart >= 0 || slot.end >= 0)
    requires var at := if slot.tailStart >= 0 then slot.tailStart else slot.end; AllEnd(pre, at) && AllBehind(post, at)
    ensures
      var cs := WhereScan(md, pre + post);
      var need := Needed(exactIdents, cs, ps);
      var again := WhereScan(md, SpliceToks(pre + post, Insertions(slot, cs, need)));
      need == ps && (ps != [] ==> again.lexOK && !again.hasOR) &&
      (forall p <- ps :: Present(exactIdents, again, p)) && Needed(exactIdents, again, ps) == []
  {
    hide Present, SpliceToks, Joined, WfClause, Ends, Before, WhereScan, Insertions, Toks, AllEnd, AllBehind, Upper, Normal, Segments;
    AllNeeded(exactIdents, ps);
    var again := WhereScan(md, SpliceToks(pre + post, Insertions(slot, NOT_FOUND, ps)));
    if ps == [] {
      NothingNeeded(pre + post, slot, NOT_FOUND);
    } else {
      var at := At(if slot.tailStart >= 0 then slot.tailStart else slot.end);
      var cl, where := Clause(Joined(ps, at), []), Syn(Ident, "WHERE", at);
      WhereSynthesized(md, pre, post, slot, NOT_FOUND, ps, (s: seq<ConjTok>) => Unknown);
      WhereWord(at);
      WhereIsClause(md, pre, where, cl, post);
      JoinedTight(md, ps, at);
      forall p | p in ps ensures Present(exactIdents, again, p) {
        OneSynthesized(exactIdents, ps, at, again, p);
      }
    }
    NoneNeeded(exactIdents, again, ps);
  }

  lemma WhereWord(at: nat)
    ensures IsKeyword(Syn(Ident, "WHERE", at), "WHERE")
  {
    assert Upper("WHERE") == "WHERE";
  }

  lemma {:induction false} JoinedTight(md: Mode, ps: seq<Expr>, at: nat)
    requires ps != [] && forall p <- ps :: Wf(md, p)
    ensures !Loose(Joined(ps, at))
  {
    JoinedWf(md, ps, at);
    LooseByLevel(md, Joined(ps, at));
  }

  lemma {:induction false} OneSynthesized(exactIdents: bool, ps: seq<Expr>, at: nat, again: ClauseScan, p: Expr)
    requires p in ps && again.lexOK && !again.hasOR && again.segs == ClauseSegments(Clause(Joined(ps, at), []))
    ensures Present(exactIdents, again, p)
  {
    hide SegsContain, Toks, Normal, Joined;
    JoinedSegments(ps, at);
    var i :| 0 <= i < |ps| && ps[i] == p;
    assert Segments(Joined(ps, at)) + [] == Segments(Joined(ps, at));
    assert Segments(Joined(ps, at))[i] in again.segs;
    FoundAmong(exactIdents, again.segs, p, at);
  }
}
