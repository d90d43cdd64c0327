/**
 Weaving scoping conjuncts into a join's ON (internal/policy/weave.go): behind the
 expression, which is parenthesized first when an OR-class operator stands at its top
 level.
 */
module OnWeaving {
  import opened SqlTokens
  import opened ClauseScanning
  import opened SqlGrammar
  import opened ClauseReading
  import opened ClauseTheorems
  import opened Weaving
  import opened Enforcing

  /** `e AND (p1) AND (p2) ...`, read to the left. */
  function Appended(e: Expr, ps: seq<Expr>, at: nat): Expr {
    if ps == [] then e
    else AndOp(Appended(e, ps[..|ps| - 1], at), Conjunction(at), Bracketed(ps[|ps| - 1], at))
  }

  /** The insertions of one ON clause, in the order `splice` applies them. */
  function OnInsertions(cs: ClauseScan, ps: seq<Expr>): seq<Insertion> {
    if ps == [] then []
    else
      var at := At(cs.end);
      if cs.hasOR then
        [Insertion(cs.start, [Opening(At(cs.start))]),
         Insertion(cs.end, [Closing(at), Conjunction(at)] + Toks(Joined(ps, at)))]
      else [Insertion(cs.end, [Conjunction(at)] + Toks(Joined(ps, at)))]
  }

  method AssembleOnInsertions(cs: ClauseScan, ps: seq<Expr>) returns (ins: seq<Insertion>)
    ensures ins == OnInsertions(cs, ps)
  {
    ins := [];
    if |ps| == 0 {
      return;
    }
    var at := At(cs.end);
    var joined := JoinParenthesized(ps, at);
    if cs.hasOR {
      ins := ins + [Insertion(cs.start, [Opening(At(cs.start))])];
      ins := ins + [Insertion(cs.end, [Closing(at), Conjunction(at)] + joined)];
    } else {
      ins := ins + [Insertion(cs.end, [Conjunction(at)] + joined)];
    }
  }

  /** The ON expression after weaving. */
  function WovenOn(e: Expr, ps: seq<Expr>, start: nat, end: nat): Expr {
    Appended(if Loose(e) then Paren(Opening(start), e, Closing(end)) else e, ps, end)
  }

  lemma {:induction false} AppendedSpells(e: Expr, ps: seq<Expr>, at: nat)
    requires ps != []
    ensures Toks(Appended(e, ps, at)) == Toks(e) + ([Conjunction(at)] + Toks(Joined(ps, at)))
  {
    var n := |ps| - 1;
    var and, last := [Conjunction(at)], Toks(Bracketed(ps[n], at));
    if n == 0 {
      assert ps[..0] == [];
      assert Toks(AndOp(e, Conjunction(at), Bracketed(ps[0], at))) == Toks(e) + and + last;
    } else {
      AppendedSpells(e, ps[..n], at);
      var j := Toks(Joined(ps[..n], at));
      assert Toks(Joined(ps, at)) == j + and + last;
      assert Toks(Appended(e, ps, at)) == Toks(e) + (and + j) + and + last;
      assert Toks(e) + (and + j) + and + last == Toks(e) + (and + (j + and + last));
    }
  }

  lemma {:induction false} AppendedWf(md: Mode, e: Expr, ps: seq<Expr>, at: nat)
    requires Wf(md, e) && Level(e) >= 2 && forall p <- ps :: Wf(md, p)
    ensures Wf(md, Appended(e, ps, at)) && Level(Appended(e, ps, at)) >= 2
  {
    if ps != [] {
      AppendedWf(md, e, ps[..|ps| - 1], at);
      AndWord(at);
    }
  }

  lemma {:induction false} AppendedMeans(e: Expr, ps: seq<Expr>, at: nat, row: Row)
    ensures Eval(Appended(e, ps, at), row) == And3(Eval(e, row), Scope(ps, row))
  {
    if ps != [] {
      var front, last := ps[..|ps| - 1], ps[|ps| - 1];
      AppendedMeans(e, front, at, row);
      And3Assoc(Eval(e, row), Scope(front, row), Eval(last, row));
    } else {
      assert And3(Eval(e, row), True) == Eval(e, row);
    }
  }

  /** Tokens in their place. */
  ghost predicate OnPlaced(pre: seq<Elem>, ts: seq<Tok>, post: seq<Elem>)
    requires ts != []
  {
    AllEnd(pre, FirstAt(ts)) && FirstAt(ts) <= LastEnd(ts) &&
    AllBehind(Tks(ts), FirstAt(ts)) && AllEnd(Tks(ts), LastEnd(ts)) && AllBehind(post, LastEnd(ts))
  }

  /** Weaving into an ON leaves everything around it alone, and the new condition is true of
      a joined row exactly when the old one and every policy conjunct are. */
  lemma {:induction false} OnWeavingScopes(md: Mode, pre: seq<Elem>, e: Expr, post: seq<Elem>, cs: ClauseScan, ps: seq<Expr>, row: Row)
    requires Wf(md, e) && Toks(e) != [] && OnPlaced(pre, Toks(e), post) && ps != [] && forall p <- ps :: Wf(md, p)
    requires cs.hasOR == Loose(e) && (cs.hasOR ==> cs.start == FirstAt(Toks(e))) && cs.end == LastEnd(Toks(e))
    ensures
      var woven := WovenOn(e, ps, FirstAt(Toks(e)), LastEnd(Toks(e)));
      SpliceToks(pre + Tks(Toks(e)) + post, OnInsertions(cs, ps)) == pre + Tks(Toks(woven)) + post &&
      Wf(md, woven) && (Eval(woven, row).True? <==> Eval(e, row).True? && forall p <- ps :: Eval(p, row).True?)
  {
    hide SpliceToks, Joined, Toks, AllEnd, AllBehind, Scope;
    var start, end := FirstAt(Toks(e)), LastEnd(Toks(e));
    var base := if Loose(e) then Paren(Opening(start), e, Closing(end)) else e;
    LooseByLevel(md, e);
    AppendedWf(md, base, ps, end);
    AppendedMeans(base, ps, end, row);
    ScopeTrue(ps, row);
    AppendedSpells(base, ps, end);
    if Loose(e) {
      WrappedOn(pre, Toks(e), post, cs, ps);
      ParenSpelled(e, start, end);
    } else {
      PlainOn(pre, e, post, cs, ps);
    }
  }

  lemma {:induction false} PlainOn(pre: seq<Elem>, e: Expr, post: seq<Elem>, cs: ClauseScan, ps: seq<Expr>)
    requires Toks(e) != [] && OnPlaced(pre, Toks(e), post) && ps != [] && !Loose(e)
    requires !cs.hasOR && cs.end == LastEnd(Toks(e))
    ensures
      var end := LastEnd(Toks(e));
      SpliceToks(pre + Tks(Toks(e)) + post, OnInsertions(cs, ps)) ==
      pre + Tks(Toks(e) + ([Conjunction(end)] + Toks(Joined(ps, end)))) + post
  {
    hide SpliceToks, Joined, Toks, AllEnd, AllBehind;
    var end := LastEnd(Toks(e));
    var ins := OnInsertions(cs, ps);
    EndBy(pre, FirstAt(Toks(e)), end);
    EndBoth(pre, Tks(Toks(e)), end);
    LeadSplices(pre + Tks(Toks(e)), post, ins[0], []);
    assert [ins[0]] + [] == ins;
    NoInsertions(post);
    TksConcat(Toks(e), [Conjunction(end)] + Toks(Joined(ps, end)));
    assert pre + Tks(Toks(e)) + Tks(ins[0].toks) + post == pre + (Tks(Toks(e)) + Tks(ins[0].toks)) + post;
  }

  lemma EndBoth(els: seq<Elem>, fs: seq<Elem>, a: int)
    requires AllEnd(els, a) && AllEnd(fs, a)
    ensures AllEnd(els + fs, a)
  {
  }

  lemma {:induction false} WrappedOn(pre: seq<Elem>, ts: seq<Tok>, post: seq<Elem>, cs: ClauseScan, ps: seq<Expr>)
    requires ts != [] && OnPlaced(pre, ts, post) && ps != []
    requires cs.hasOR && cs.start == FirstAt(ts) && cs.end == LastEnd(ts)
    ensures
      var start, end := FirstAt(ts), LastEnd(ts);
      SpliceToks(pre + Tks(ts) + post, OnInsertions(cs, ps)) ==
      pre + Tks([Opening(start)] + ts + [Closing(end)] + ([Conjunction(end)] + Toks(Joined(ps, end)))) + post
  {
    hide SpliceToks, Joined, AllEnd, AllBehind, Toks;
    var start, end := FirstAt(ts), LastEnd(ts);
    var j := [Conjunction(end)] + Toks(Joined(ps, end));
    var ins := OnInsertions(cs, ps);
    BehindEarlier(post, start, end);
    BehindBoth(Tks(ts), post, start);
    LeadSplices(pre, Tks(ts) + post, ins[0], [ins[1]]);
    assert [ins[0]] + [ins[1]] == ins && pre + (Tks(ts) + post) == pre + Tks(ts) + post;
    LeadSplices(Tks(ts), post, ins[1], []);
    assert [ins[1]] + [] == [ins[1]];
    NoInsertions(post);
    assert ins[1].toks == [Closing(end)] + j;
    Spread(start, ts, end, j);
    assert pre + Tks(ins[0].toks) + (Tks(ts) + Tks(ins[1].toks) + post) == pre + (Tks([Opening(start)]) + Tks(ts) + Tks(ins[1].toks)) + post;
  }

  lemma {:induction false} ParenSpelled(e: Expr, start: nat, end: nat)
    ensures Toks(Paren(Opening(start), e, Closing(end))) == [Opening(start)] + Toks(e) + [Closing(end)]
  {
  }

  lemma Spread(start: nat, ts: seq<Tok>, end: nat, j: seq<Tok>)
    ensures Tks([Opening(start)] + ts + [Closing(end)] + j) == Tks([Opening(start)]) + Tks(ts) + Tks([Closing(end)] + j)
  {
    assert [Opening(start)] + ts + [Closing(end)] + j == [Opening(start)] + ts + ([Closing(end)] + j);
    TksConcat([Opening(start)] + ts, [Closing(end)] + j);
    TksConcat([Opening(start)], ts);
  }
}
