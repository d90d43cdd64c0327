/**
 Weaving into the ON that `joinOn` located, end to end (internal/policy/weave.go,
 internal/policy/enforce.go): which join tree the insertions make, which of its rows are
 scoped, and what a second search of the result finds.
 */
module OnEnforcing {
  import opened Core
  import opened SqlTokens
  import opened ClauseScanning
  import opened SqlGrammar
  import opened ClauseReading
  import opened ClauseTheorems
  import opened Weaving
  import opened Enforcing
  import opened OnWeaving
  import opened JoinScanning
  import opened JoinTrees
  import opened JoinGating
  import opened JoinLanding
  import opened JoinSearching
  import opened JoinTheorems

  // ---------------------------------------------------------------- another condition in its place

  /** The joins around the reference. */
  function Ids(c: Ctx): set<nat> {
    match c
    case Top => {}
    case InParen(_, _, up) => Ids(up)
    case InLeft(id, _, _, _, _, _, up) => {id} + Ids(up)
    case InRight(id, _, _, _, _, _, up) => {id} + Ids(up)
  }

  predicate Apart(c: Ctx) {
    match c
    case Top => true
    case InParen(_, _, up) => Apart(up)
    case InLeft(id, _, _, _, _, _, up) => id !in Ids(up) && Apart(up)
    case InRight(id, _, _, _, _, _, up) => id !in Ids(up) && Apart(up)
  }

  /** The context with another condition on the join `at`. */
  function WithOn(c: Ctx, at: nat, e: Expr): Ctx {
    match c
    case Top => Top
    case InParen(open, close, up) => InParen(open, close, WithOn(up, at, e))
    case InLeft(id, kind, natural, kws, r, q, up) =>
      if id == at && q.On? then InLeft(id, kind, natural, kws, r, On(q.kw, e), up)
      else InLeft(id, kind, natural, kws, r, q, WithOn(up, at, e))
    case InRight(id, l, kind, natural, kws, q, up) =>
      if id == at && q.On? then InRight(id, l, kind, natural, kws, On(q.kw, e), up)
      else InRight(id, l, kind, natural, kws, q, WithOn(up, at, e))
  }

  function OnAt(c: Ctx, at: nat): Option<Expr> {
    match c
    case Top => None
    case InParen(_, _, up) => OnAt(up, at)
    case InLeft(id, _, _, _, _, q, up) => if id == at && q.On? then Some(q.e) else OnAt(up, at)
    case InRight(id, _, _, _, _, q, up) => if id == at && q.On? then Some(q.e) else OnAt(up, at)
  }

  lemma {:induction false} PlugApart(c: Ctx, f: From)
    requires Distinct(Plug(c, f))
    ensures Distinct(f) && Joins(f) !! Ids(c) && Apart(c)
    decreases c
  {
    match c
    case Top =>
    case InParen(open, close, up) => PlugApart(up, Sub(open, f, close));
    case InLeft(id, kind, natural, kws, r, q, up) => PlugApart(up, Join(id, f, kind, natural, kws, r, q));
    case InRight(id, l, kind, natural, kws, q, up) => PlugApart(up, Join(id, l, kind, natural, kws, f, q));
  }

  lemma {:induction false} WithOnWf(md: Mode, c: Ctx, isJoin: bool, at: nat, e: Expr)
    requires WfCtx(md, c, isJoin) && Wf(md, e)
    ensures WfCtx(md, WithOn(c, at, e), isJoin)
  {
    hide Wf, KwsOk, WfFrom, IsKeyword, Nested;
    match c
    case Top =>
    case InParen(_, _, up) => WithOnWf(md, up, false, at, e);
    case InLeft(_, _, _, _, _, _, up) => WithOnWf(md, up, true, at, e);
    case InRight(_, _, _, _, _, _, up) => WithOnWf(md, up, true, at, e);
  }

  lemma {:induction false} AheadSame(c: Ctx, at: nat, e: Expr)
    ensures Ahead(WithOn(c, at, e)) == Ahead(c)
  {
    match c
    case Top =>
    case InParen(_, _, up) => AheadSame(up, at, e);
    case InLeft(_, _, _, _, _, _, up) => AheadSame(up, at, e);
    case InRight(_, _, _, _, _, _, up) => AheadSame(up, at, e);
  }

  /** The same relations and joins. */
  ghost predicate Alike(f: From, g: From) { Rels(f) == Rels(g) && Joins(f) == Joins(g) && (Distinct(f) <==> Distinct(g)) }

  lemma {:induction false} PlugAlike(c: Ctx, f: From, g: From)
    requires Alike(f, g)
    ensures Alike(Plug(c, f), Plug(c, g))
    decreases c
  {
    match c
    case Top =>
    case InParen(open, close, up) => PlugAlike(up, Sub(open, f, close), Sub(open, g, close));
    case InLeft(id, kind, natural, kws, r, q, up) =>
      PlugAlike(up, Join(id, f, kind, natural, kws, r, q), Join(id, g, kind, natural, kws, r, q));
    case InRight(id, l, kind, natural, kws, q, up) =>
      PlugAlike(up, Join(id, l, kind, natural, kws, f, q), Join(id, l, kind, natural, kws, g, q));
  }

  lemma {:induction false} WithOnAlike(c: Ctx, at: nat, e: Expr, f: From)
    ensures Alike(Plug(c, f), Plug(WithOn(c, at, e), f))
    decreases c
  {
    hide Alike;
    match c
    case Top => AlikeItself(f);
    case InParen(open, close, up) => WithOnAlike(up, at, e, Sub(open, f, close));
    case InLeft(id, kind, natural, kws, r, q, up) =>
      var g := Join(id, f, kind, natural, kws, r, q);
      if id == at && q.On? {
        QualAlike(g, On(q.kw, e));
        PlugAlike(up, g, g.(qual := On(q.kw, e)));
      } else {
        WithOnAlike(up, at, e, g);
      }
    case InRight(id, l, kind, natural, kws, q, up) =>
      var g := Join(id, l, kind, natural, kws, f, q);
      if id == at && q.On? {
        QualAlike(g, On(q.kw, e));
        PlugAlike(up, g, g.(qual := On(q.kw, e)));
      } else {
        WithOnAlike(up, at, e, g);
      }
  }

  lemma {:induction false} AlikeItself(f: From)
    ensures Alike(f, f)
  {
  }

  lemma {:induction false} QualAlike(g: From, q: Qual)
    requires g.Join?
    ensures Alike(g, g.(qual := q))
  {
  }

  /** What stands around that condition. */
  lemma {:induction false} WithOnSpells(c: Ctx, f: From, at: nat, e': Expr) returns (a: seq<Tok>, b: seq<Tok>)
    requires OnAt(c, at).Some?
    ensures FromToks(Plug(c, f)) == a + Toks(OnAt(c, at).value) + b
    ensures FromToks(Plug(WithOn(c, at, e'), f)) == a + Toks(e') + b
    decreases c
  {
    hide FromToks, Toks, QualToks;
    match c
    case InParen(open, close, up) => a, b := WithOnSpells(up, Sub(open, f, close), at, e');
    case InLeft(id, kind, natural, kws, r, q, up) =>
      var g := Join(id, f, kind, natural, kws, r, q);
      if id == at && q.On? {
        a, b := HereSpells(up, g, e');
      } else {
        a, b := WithOnSpells(up, g, at, e');
      }
    case InRight(id, l, kind, natural, kws, q, up) =>
      var g := Join(id, l, kind, natural, kws, f, q);
      if id == at && q.On? {
        a, b := HereSpells(up, g, e');
      } else {
        a, b := WithOnSpells(up, g, at, e');
      }
  }

  lemma {:induction false} HereSpells(up: Ctx, g: From, e': Expr) returns (a: seq<Tok>, b: seq<Tok>)
    requires g.Join? && g.qual.On?
    ensures FromToks(Plug(up, g)) == a + Toks(g.qual.e) + b
    ensures FromToks(Plug(up, g.(qual := On(g.qual.kw, e')))) == a + Toks(e') + b
  {
    var g' := g.(qual := On(g.qual.kw, e'));
    var front := FromToks(g.l) + g.kws + FromToks(g.r);
    a, b := Ahead(up) + (front + [g.qual.kw]), Behind(up);
    JoinSpelled(g);
    JoinSpelled(g');
    PlugSpells(up, g);
    PlugSpells(up, g');
    hide FromToks, Toks;
    Regroup(Ahead(up), front, g.qual.kw, Toks(g.qual.e), b);
    Regroup(Ahead(up), front, g.qual.kw, Toks(e'), b);
  }

  lemma Regroup(a: seq<Tok>, b: seq<Tok>, kw: Tok, ts: seq<Tok>, c: seq<Tok>)
    ensures a + (b + ([kw] + ts)) + c == a + (b + [kw]) + ts + c
  {
  }

  // ---------------------------------------------------------------- the landing, reached again

  lemma {:induction false} LandingKinds(cur: Landing, up: Ctx)
    requires Apart(up) && (cur.Lands? ==> cur.id !in Ids(up))
    ensures
      var l := LandingFrom(cur, up);
      if Alone(up) then l == cur
      else l.Lands? ==> l.id in Ids(up) && OnAt(up, l.id) == Some(l.e) && !LeadsPositional(l.e)
    decreases up
  {
    hide LeadsPositional, LeadWord;
    if !Alone(up) {
      if up.qual.Using? {
        LandingKinds(Garbled(EndOf(up.qual.close)), up.up);
      } else if !LeadsPositional(up.qual.e) {
        LandingKinds(Lands(up.id, up.kind, true, up.qual.e, up.up), up.up);
      }
    }
  }

  lemma {:induction false} LandingWoven(cur: Landing, cur': Landing, up: Ctx, e': Expr)
    requires Apart(up) && !Alone(up) && (cur.Lands? ==> cur.id !in Ids(up)) && LandingFrom(cur, up).Lands? && !LeadsPositional(e')
    ensures var l := LandingFrom(cur, up); LandingFrom(cur', WithOn(up, l.id, e')) == Lands(l.id, l.kind, l.right, e', l.up)
    decreases up
  {
    hide LeadsPositional, LeadWord;
    var l := LandingFrom(cur, up);
    LandingKinds(cur, up);
    if up.qual.Using? {
      var next := Garbled(EndOf(up.qual.close));
      LandingKinds(next, up.up);
      LandingWoven(next, next, up.up, e');
    } else {
      var next := Lands(up.id, up.kind, true, up.qual.e, up.up);
      LandingKinds(next, up.up);
      if !Alone(up.up) {
        LandingWoven(next, Lands(up.id, up.kind, true, up.qual.e, WithOn(up.up, l.id, e')), up.up, e');
      }
    }
  }

  /** The search meets the same first ON, and the run lands in the same join. */
  lemma {:induction false} MeetWoven(c: Ctx, crossed: Option<JoinKind>, e': Expr)
    requires Apart(c) && Meet(c, crossed).FirstOn? && LandingOf(Meet(c, crossed)).Lands?
    requires Alone(Meet(c, crossed).up) || !LeadsPositional(e')
    ensures
      var m := Meet(c, crossed);
      var l := LandingOf(m);
      var m' := Meet(WithOn(c, l.id, e'), crossed);
      OnAt(c, l.id) == Some(l.e) && l.id in Ids(c) &&
      (if Alone(m.up) then l == Lands(m.id, m.kind, m.right, m.e, m.up) && m' == m.(e := e')
       else m' == m.(up := WithOn(m.up, l.id, e'))) &&
      LandingOf(m') == Lands(l.id, l.kind, l.right, e', l.up)
    decreases c
  {
    hide LeadsPositional, LeadWord, LandingFrom, Alone;
    match c
    case InRight(id, l, kind, natural, kws, q, up) =>
      if q.On? {
        LastWoven(Lands(id, kind, true, q.e, up), up, e');
      } else {
        MeetWoven(up, crossed, e');
      }
    case InLeft(id, kind, natural, kws, r, q, up) =>
      if q.On? {
        LastWoven(Lands(id, kind, false, q.e, up), up, e');
      } else {
        MeetWoven(up, Some(Inner), e');
      }
  }

  lemma {:induction false} LastWoven(cur: Landing, up: Ctx, e': Expr)
    requires Apart(up) && cur.Lands? && cur.id !in Ids(up) && LandingFrom(cur, up).Lands? && (Alone(up) || !LeadsPositional(e'))
    ensures
      var l := LandingFrom(cur, up);
      if Alone(up) then l == cur && forall x: Landing :: LandingFrom(x, up) == x
      else
        l.id in Ids(up) && OnAt(up, l.id) == Some(l.e) &&
        LandingFrom(cur.(up := WithOn(up, l.id, e')), WithOn(up, l.id, e')) == Lands(l.id, l.kind, l.right, e', l.up)
  {
    LandingKinds(cur, up);
    if !Alone(up) {
      LandingWoven(cur, cur.(up := WithOn(up, LandingFrom(cur, up).id, e')), up, e');
    }
  }

  lemma {:induction false} LandingWf(md: Mode, cur: Landing, up: Ctx)
    requires WfCtx(md, up, true) && (cur.Lands? ==> Wf(md, cur.e))
    ensures var l := LandingFrom(cur, up); l.Lands? ==> Wf(md, l.e)
    decreases up
  {
    hide Wf, KwsOk, WfFrom, LeadsPositional, LeadWord;
    if !Alone(up) {
      if up.qual.Using? {
        LandingWf(md, Garbled(EndOf(up.qual.close)), up.up);
      } else if !LeadsPositional(up.qual.e) {
        LandingWf(md, Lands(up.id, up.kind, true, up.qual.e, up.up), up.up);
      }
    }
  }

  lemma {:induction false} MeetWf(md: Mode, c: Ctx, isJoin: bool, crossed: Option<JoinKind>)
    requires WfCtx(md, c, isJoin) && Meet(c, crossed).FirstOn?
    ensures var m := Meet(c, crossed); Wf(md, m.e) && (LandingOf(m).Lands? ==> Wf(md, LandingOf(m).e))
    decreases c
  {
    hide Wf, KwsOk, WfFrom, LandingFrom;
    match c
    case InRight(id, l, kind, natural, kws, q, up) =>
      if q.On? {
        LandingWf(md, Lands(id, kind, true, q.e, up), up);
      } else {
        MeetWf(md, up, true, crossed);
      }
    case InLeft(id, kind, natural, kws, r, q, up) =>
      if q.On? {
        LandingWf(md, Lands(id, kind, false, q.e, up), up);
      } else {
        MeetWf(md, up, true, Some(Inner));
      }
  }

  // ---------------------------------------------------------------- the segments of the woven run

  function Brackets(ps: seq<Expr>, at: nat): seq<seq<ConjTok>> {
    if ps == [] then [] else Brackets(ps[..|ps| - 1], at) + [Normal(Toks(Bracketed(ps[|ps| - 1], at)))]
  }

  lemma {:induction false} BracketIn(ps: seq<Expr>, at: nat, p: Expr)
    requires p in ps
    ensures Normal(Toks(Bracketed(p, at))) in Brackets(ps, at)
  {
    hide Normal, Toks;
    assert ps == ps[..|ps| - 1] + [ps[|ps| - 1]];
    if p != ps[|ps| - 1] {
      BracketIn(ps[..|ps| - 1], at, p);
    }
  }

  lemma {:induction false} PourAppended(cur: seq<ConjTok>, e: Expr, ps: seq<Expr>, at: nat)
    ensures var x, y := Pour(cur, Appended(e, ps, at)), Pour(cur, e); x.0 + [x.1] == y.0 + [y.1] + Brackets(ps, at)
  {
    hide Toks, AppendAll;
    if ps == [] {
    } else {
      var front, last := ps[..|ps| - 1], Bracketed(ps[|ps| - 1], at);
      PourAppended(cur, e, front, at);
      AndPours(cur, Appended(e, front, at), Conjunction(at), last);
      var x, y := Pour(cur, Appended(e, front, at)), Pour(cur, e);
      assert x.0 + [x.1] + [] == x.0 + [x.1];
      assert y.0 + [y.1] + (Brackets(front, at) + [Normal(Toks(last))]) == (y.0 + [y.1] + Brackets(front, at)) + [Normal(Toks(last))];
    }
  }

  lemma {:induction false} AppendedLeads(e: Expr, ps: seq<Expr>, at: nat)
    ensures LeadsPositional(Appended(e, ps, at)) == LeadsPositional(e)
  {
    if ps != [] {
      AppendedLeads(e, ps[..|ps| - 1], at);
    }
  }

  /** Conditions in front of the landing stay as they are; the landing gets the new ones. */
  lemma {:induction false} UpPourWoven(cur: Landing, seg: seq<ConjTok>, up: Ctx, ps: seq<Expr>, at: nat)
    requires Apart(up) && !Alone(up) && (cur.Lands? ==> cur.id !in Ids(up)) && LandingFrom(cur, up).Lands?
    ensures
      var l := LandingFrom(cur, up);
      var x, y := UpPour(seg, WithOn(up, l.id, Appended(l.e, ps, at))), UpPour(seg, up);
      x.0 + [x.1] == y.0 + [y.1] + Brackets(ps, at)
    decreases up
  {
    hide LeadsPositional, LeadWord, Pour, AppendAll, Append, Appended, Brackets, QualToks;
    var l := LandingFrom(cur, up);
    var e' := Appended(l.e, ps, at);
    LandingKinds(cur, up);
    AppendedLeads(l.e, ps, at);
    if up.qual.Using? {
      var next := Garbled(EndOf(up.qual.close));
      LandingKinds(next, up.up);
      UpPourWoven(next, AppendAll(seg, QualToks(up.qual)), up.up, ps, at);
    } else {
      var next := Lands(up.id, up.kind, true, up.qual.e, up.up);
      LandingKinds(next, up.up);
      var seg1 := Append(seg, up.qual.kw);
      if Alone(up.up) {
        PourAppended(seg1, l.e, ps, at);
        assert Pour(seg1, e').0 + [] == Pour(seg1, e').0 && Pour(seg1, l.e).0 + [] == Pour(seg1, l.e).0;
      } else {
        var (a, b) := Pour(seg1, up.qual.e);
        UpPourWoven(next, b, up.up, ps, at);
        var x, y := UpPour(b, WithOn(up.up, l.id, e')), UpPour(b, up.up);
        assert a + x.0 + [x.1] == a + (x.0 + [x.1]);
        assert a + (y.0 + [y.1] + Brackets(ps, at)) == (a + y.0) + [y.1] + Brackets(ps, at);
      }
    }
  }

  lemma {:induction false} UpLooseWoven(cur: Landing, up: Ctx, e': Expr)
    requires Apart(up) && !Alone(up) && (cur.Lands? ==> cur.id !in Ids(up)) && LandingFrom(cur, up).Lands?
    requires !UpLoose(up) && !Loose(e') && !LeadsPositional(e')
    ensures !UpLoose(WithOn(up, LandingFrom(cur, up).id, e')) && !Loose(LandingFrom(cur, up).e)
    decreases up
  {
    hide LeadsPositional, LeadWord, Loose;
    LandingKinds(cur, up);
    if up.qual.Using? {
      var next := Garbled(EndOf(up.qual.close));
      LandingKinds(next, up.up);
      UpLooseWoven(next, up.up, e');
    } else {
      var next := Lands(up.id, up.kind, true, up.qual.e, up.up);
      LandingKinds(next, up.up);
      if !Alone(up.up) {
        UpLooseWoven(next, up.up, e');
      }
    }
  }

  // ---------------------------------------------------------------- the statement

  /** Each element lies behind the ones before it, as in source text. */
  predicate InOrder(els: seq<Elem>) {
    (forall i :: 0 <= i < |els| && els[i].Tk? ==> els[i].t.at < EndOf(els[i].t)) &&
    forall i, j :: 0 <= i < j < |els| ==> ElemEnd(els[i]) < ElemEnd(els[j]) && (els[j].Tk? ==> ElemEnd(els[i]) <= els[j].t.at)
  }

  function Whole(pre: seq<Elem>, f: From, post: seq<Elem>): seq<Elem> { pre + Tks(FromToks(f)) + post }

  lemma {:induction false} OrderedPlaced(a: seq<Elem>, ts: seq<Tok>, b: seq<Elem>)
    requires ts != [] && InOrder(a + Tks(ts) + b)
    ensures OnPlaced(a, ts, b)
  {
    var els, n, m := a + Tks(ts) + b, |a|, |ts|;
    assert els[n] == Tk(ts[0]) && els[n + m - 1] == Tk(ts[m - 1]);
    forall el | el in a ensures ElemEnd(el) <= FirstAt(ts) {
      var i :| 0 <= i < n && a[i] == el;
      assert els[i] == el;
    }
    forall el | el in Tks(ts) ensures FirstAt(ts) < ElemEnd(el) <= LastEnd(ts) {
      var i :| 0 <= i < m && Tks(ts)[i] == el;
      assert els[n + i] == el;
    }
    forall el | el in b ensures ElemEnd(el) > LastEnd(ts) {
      var i :| 0 <= i < |b| && b[i] == el;
      assert els[n + m + i] == el;
    }
    assert Tk(ts[0]) in Tks(ts);
  }

  /** The condition as weaving leaves it. */
  function Woven(e: Expr, ps: seq<Expr>): Expr
    requires Toks(e) != []
  {
    WovenOn(e, ps, FirstAt(Toks(e)), LastEnd(Toks(e)))
  }

  /** The insertions of a scan that lands in this condition turn the tree into the one with
      the woven condition. */
  lemma {:induction false} TreeWoven(md: Mode, pre: seq<Elem>, c: Ctx, f: From, post: seq<Elem>, at: nat, e: Expr, cs: ClauseScan, ps: seq<Expr>)
    requires OnAt(c, at) == Some(e) && Wf(md, e) && Toks(e) != [] && ps != [] && forall p <- ps :: Wf(md, p)
    requires InOrder(Whole(pre, Plug(c, f), post)) && cs.end == LastEnd(Toks(e)) && (cs.hasOR ==> cs.start == FirstAt(Toks(e))) && cs.hasOR == Loose(e)
    ensures SpliceToks(Whole(pre, Plug(c, f), post), OnInsertions(cs, ps)) == Whole(pre, Plug(WithOn(c, at, Woven(e, ps)), f), post)
  {
    hide SpliceToks, Toks, FromToks, Wf, InOrder, OnPlaced, OnInsertions, Loose;
    var e' := Woven(e, ps);
    var a, b := WithOnSpells(c, f, at, e');
    Around(pre, a, Toks(e), b, post);
    Around(pre, a, Toks(e'), b, post);
    OrderedPlaced(pre + Tks(a), Toks(e), Tks(b) + post);
    OnWeavingScopes(md, pre + Tks(a), e, Tks(b) + post, cs, ps, (s: seq<ConjTok>) => Unknown);
  }

  lemma Around(pre: seq<Elem>, a: seq<Tok>, ts: seq<Tok>, b: seq<Tok>, post: seq<Elem>)
    ensures pre + Tks(a + ts + b) + post == (pre + Tks(a)) + Tks(ts) + (Tks(b) + post)
  {
    TksConcat(a + ts, b);
    TksConcat(a, ts);
  }

  lemma {:induction false} MeetApart(c: Ctx, crossed: Option<JoinKind>)
    requires Apart(c) && Meet(c, crossed).FirstOn?
    ensures var m := Meet(c, crossed); m.id !in Ids(m.up) && Apart(m.up)
    decreases c
  {
    match c
    case InRight(_, _, _, _, _, q, up) =>
      if !q.On? {
        MeetApart(up, crossed);
      }
    case InLeft(_, _, _, _, _, q, up) =>
      if !q.On? {
        MeetApart(up, Some(Inner));
      }
  }

  /** The run of an accepted search that can be woven: it lands in a condition, and either
      no OR-class operator stands at its top level or the run is that one ON. */
  predicate Weavable(m: First)
    requires m.FirstOn?
  {
    LandingOf(m).Lands? && (RunLoose(m.e, m.up) ==> Alone(m.up))
  }

  lemma {:induction false} LandingTight(m: First)
    requires m.FirstOn? && Weavable(m) && Apart(m.up) && m.id !in Ids(m.up)
    ensures Loose(LandingOf(m).e) == RunLoose(m.e, m.up)
    ensures Alone(m.up) ==> LandingOf(m).e == m.e
  {
    hide Loose, LeadsPositional, LeadWord;
    var cur := Lands(m.id, m.kind, m.right, m.e, m.up);
    LandingKinds(cur, m.up);
    if !Alone(m.up) {
      TrueTight();
      UpLooseWoven(cur, m.up, Opaque(Nil));
    }
  }

  lemma TrueTight()
    ensures !Loose(Opaque(Nil)) && !LeadsPositional(Opaque(Nil))
  {
  }

  /** Read again, the run has no top-level OR, and the segments it had before, unless an OR
      kept them from counting, are followed by one for each inserted conjunct. */
  lemma {:induction false} RunWoven(md: Mode, m: First, m': First, ps: seq<Expr>)
    requires m.FirstOn? && Weavable(m) && Apart(m.up) && m.id !in Ids(m.up) && Wf(md, m.e) && forall p <- ps :: Wf(md, p)
    requires var l := LandingOf(m); Wf(md, l.e) && Toks(l.e) != []
    requires
      var l := LandingOf(m);
      var e' := Woven(l.e, ps);
      m' == if Alone(m.up) then m.(e := e') else m.(up := WithOn(m.up, l.id, e'))
    ensures !RunLoose(m'.e, m'.up)
    ensures
      var l := LandingOf(m);
      var more := Brackets(ps, LastEnd(Toks(l.e)));
      if RunLoose(m.e, m.up) then exists front :: RunSegments(m'.e, m'.up) == front + more
      else RunSegments(m'.e, m'.up) == RunSegments(m.e, m.up) + more
  {
    hide Loose, LeadsPositional, LeadWord, Toks, Wf, Pour, Appended, Brackets;
    var l := LandingOf(m);
    var start, end := FirstAt(Toks(l.e)), LastEnd(Toks(l.e));
    LandingTight(m);
    WovenTight(md, l.e, ps, start, end);
    var cur := Lands(m.id, m.kind, m.right, m.e, m.up);
    LandingKinds(cur, m.up);
    if Alone(m.up) {
      OneWoven(m.e, m.up, ps, start, end);
      hide UpPour, RunSegments, UpLoose;
    } else {
      AppendedLeads(l.e, ps, end);
      UpLooseWoven(cur, m.up, Woven(l.e, ps));
      var (a, b) := Pour([], m.e);
      UpPourWoven(cur, b, m.up, ps, end);
      var x, y := UpPour(b, m'.up), UpPour(b, m.up);
      assert a + x.0 + [x.1] == a + (x.0 + [x.1]);
      assert a + (y.0 + [y.1] + Brackets(ps, end)) == a + y.0 + [y.1] + Brackets(ps, end);
    }
  }

  lemma {:induction false} WovenTight(md: Mode, e: Expr, ps: seq<Expr>, start: nat, end: nat)
    requires Wf(md, e) && forall p <- ps :: Wf(md, p)
    ensures !Loose(WovenOn(e, ps, start, end)) && Wf(md, WovenOn(e, ps, start, end))
  {
    hide Appended;
    var base := if Loose(e) then Paren(Opening(start), e, Closing(end)) else e;
    LooseByLevel(md, e);
    AppendedWf(md, base, ps, end);
    LooseByLevel(md, Appended(base, ps, end));
  }

  lemma {:induction false} OneWoven(e: Expr, up: Ctx, ps: seq<Expr>, start: nat, end: nat)
    requires Alone(up)
    ensures
      var e' := WovenOn(e, ps, start, end);
      RunLoose(e', up) == Loose(e') &&
      (if Loose(e) then exists front :: RunSegments(e', up) == front + Brackets(ps, end)
       else RunSegments(e', up) == RunSegments(e, up) + Brackets(ps, end))
  {
    hide Pour, Appended, Loose;
    var base := if Loose(e) then Paren(Opening(start), e, Closing(end)) else e;
    PourAppended([], base, ps, end);
    var x, y := Pour([], Appended(base, ps, end)), Pour([], base);
    assert x.0 + [] + [x.1] == x.0 + [x.1] && y.0 + [] + [y.1] == y.0 + [y.1];
  }

  // ---------------------------------------------------------------- end to end

  /** A reference in a join tree, in a statement whose elements stand in source order, for
      which `joinOn` finds an ON and does not refuse it. */
  ghost predicate Accepted(md: Mode, pre: seq<Elem>, c: Ctx, id: nat, toks: seq<Tok>, post: seq<Elem>, ownJoin: JoinKind) {
    md.inOn && WfCtx(md, c, false) && toks != [] && Idle(toks, 0, false) && After(post) && Distinct(Plug(c, Rel(id, toks))) &&
    InOrder(Whole(pre, Plug(c, Rel(id, toks)), post)) &&
    var res := Located(md, pre, c, toks, post, ownJoin);
    res.found && !res.wrongJoin
  }

  /** The context after weaving `ps` into the condition that the search lands in. */
  function Rewoven(c: Ctx, ps: seq<Expr>): Ctx
    requires Meet(c, None).FirstOn? && LandingOf(Meet(c, None)).Lands? && Toks(LandingOf(Meet(c, None)).e) != []
  {
    var l := LandingOf(Meet(c, None));
    WithOn(c, l.id, Woven(l.e, ps))
  }

  /** What is known of an accepted search that can be woven. */
  lemma {:induction false} AcceptedFacts(md: Mode, pre: seq<Elem>, c: Ctx, id: nat, toks: seq<Tok>, post: seq<Elem>, ownJoin: JoinKind)
    requires Accepted(md, pre, c, id, toks, post, ownJoin) && Meet(c, None).FirstOn? && Weavable(Meet(c, None))
    ensures
      var m := Meet(c, None);
      var l := LandingOf(m);
      var cs := Located(md, pre, c, toks, post, ownJoin).cs;
      Apart(c) && Apart(m.up) && m.id !in Ids(m.up) && Wf(md, m.e) && Wf(md, l.e) && Toks(l.e) != [] && FirstScanned(cs, m) &&
      OnAt(c, l.id) == Some(l.e) && cs.lexOK && cs.hasOR == Loose(l.e) && cs.end == LastEnd(Toks(l.e)) && (cs.hasOR ==> cs.start == FirstAt(Toks(l.e)))
  {
    hide Find, Idle, After, WfCtx, Concluded, Meet, NaturalRun, LandingFrom, ScopesAlways, Distinct, Plug, Behind, Ahead, Wf, Toks, Loose, RunLoose,
      RunSegments, InOrder, Apart, OnAt, Ids, Located;
    var m := Meet(c, None);
    AcceptedReads(md, pre, c, id, toks, post, ownJoin);
    PlugApart(c, Rel(id, toks));
    MeetApart(c, None);
    MeetWf(md, c, false, None);
    NonEmpty(md, LandingOf(m).e);
    LandingTight(m);
    MeetWoven(c, None, Opaque(Nil));
  }

  /** The search of the woven tree ends in the same place, and is accepted again. */
  lemma {:induction false} FoundAgain(md: Mode, pre: seq<Elem>, c: Ctx, id: nat, toks: seq<Tok>, post: seq<Elem>, ownJoin: JoinKind, ps: seq<Expr>)
    requires Accepted(md, pre, c, id, toks, post, ownJoin) && Meet(c, None).FirstOn? && Weavable(Meet(c, None)) && forall p <- ps :: Wf(md, p)
    ensures
      var m := Meet(c, None);
      var l := LandingOf(m);
      Toks(l.e) != [] &&
      var c' := Rewoven(c, ps);
      var again := Located(md, pre, c', toks, post, ownJoin);
      var m' := Meet(c', None);
      again.found && !again.wrongJoin && m'.FirstOn? && FirstScanned(again.cs, m') &&
      m' == (if Alone(m.up) then m.(e := Woven(l.e, ps)) else m.(up := WithOn(m.up, l.id, Woven(l.e, ps)))) &&
      LandingOf(m') == Lands(l.id, l.kind, l.right, Woven(l.e, ps), l.up) &&
      (ScopesAlways(Plug(c', Rel(id, toks)), l.id, id) <==> !Leaks(l))
  {
    hide Find, Idle, After, WfCtx, Concluded, NaturalRun, LandingFrom, ScopesAlways, Distinct, Plug, Behind, Ahead, Wf, Toks, Loose, RunLoose,
      RunSegments, InOrder, Ids, OnAt, WithOn, WovenOn, FirstScanned, LeadsPositional, Meet, Apart;
    AcceptedFacts(md, pre, c, id, toks, post, ownJoin);
    var m := Meet(c, None);
    var l := LandingOf(m);
    var e', f := Woven(l.e, ps), Rel(id, toks);
    var c' := WithOn(c, l.id, e');
    WovenLeads(m, ps);
    MeetWoven(c, None, e');
    WovenTight(md, l.e, ps, FirstAt(Toks(l.e)), LastEnd(Toks(l.e)));
    WithOnWf(md, c, false, l.id, e');
    WithOnAlike(c, l.id, e', f);
    AheadSame(c, l.id, e');
    AcceptedMeets(md, pre, c, toks, post, ownJoin);
    AcceptedMeets(md, pre, c', toks, post, ownJoin);
    AcceptedReads(md, pre, c', id, toks, post, ownJoin);
  }

  lemma {:induction false} WovenLeads(m: First, ps: seq<Expr>)
    requires m.FirstOn? && Weavable(m) && Apart(m.up) && m.id !in Ids(m.up) && Toks(LandingOf(m).e) != []
    ensures Alone(m.up) || !LeadsPositional(Woven(LandingOf(m).e, ps))
  {
    hide Loose, Toks, LeadsPositional, LeadWord, Appended;
    var l := LandingOf(m);
    LandingKinds(Lands(m.id, m.kind, m.right, m.e, m.up), m.up);
    LandingTight(m);
    AppendedLeads(l.e, ps, LastEnd(Toks(l.e)));
  }

  /** Weaving into an ON scopes the rows. The insertions for the located scan turn the
      statement's join tree into the one with the woven condition, which is true of a joined
      row exactly when the old one and every policy conjunct are; and if the landing does
      not leak, then wherever that condition decides the join and the policy conjuncts say
      of a relation's tuple what they should, every row of the whole tree null-extends the
      relation or has a tuple that satisfies the predicate. */
  lemma {:induction false} WovenOnScopes(md: Mode, pre: seq<Elem>, c: Ctx, id: nat, toks: seq<Tok>, post: seq<Elem>, ownJoin: JoinKind, ps: seq<Expr>,
                                         w: World, says: JoinTrees.Row -> SqlGrammar.Row, p: int -> bool)
    requires Accepted(md, pre, c, id, toks, post, ownJoin) && Meet(c, None).FirstOn? && Weavable(Meet(c, None))
    requires ps != [] && forall x <- ps :: Wf(md, x)
    ensures
      var l := LandingOf(Meet(c, None));
      Toks(l.e) != [] &&
      var tree, tree', e' := Plug(c, Rel(id, toks)), Plug(Rewoven(c, ps), Rel(id, toks)), Woven(l.e, ps);
      var cs := Located(md, pre, c, toks, post, ownJoin).cs;
      SpliceToks(Whole(pre, tree, post), OnInsertions(cs, ps)) == Whole(pre, tree', post) && Wf(md, e') && OnAt(Rewoven(c, ps), l.id) == Some(e') &&
      (forall row: SqlGrammar.Row :: Eval(e', row).True? <==> Eval(l.e, row).True? && forall x <- ps :: Eval(x, row).True?) &&
      (!Leaks(l) && (forall row: JoinTrees.Row :: w.holds(l.id, row) ==> Eval(e', says(row)).True?) &&
       (forall row: JoinTrees.Row :: (forall x <- ps :: Eval(x, says(row)).True?) ==> Scoped(row, id, p)) ==>
         AllScoped(w, tree', id, p))
  {
    hide Find, Idle, After, WfCtx, Concluded, NaturalRun, LandingFrom, Distinct, Plug, Behind, Ahead, Wf, Toks, Loose, RunLoose,
      RunSegments, InOrder, Ids, OnAt, WithOn, WovenOn, FirstScanned, Meet, Apart, SpliceToks, OnInsertions, Eval, AllScoped, Scoped, Whole, Located;
    AcceptedFacts(md, pre, c, id, toks, post, ownJoin);
    FoundAgain(md, pre, c, id, toks, post, ownJoin, ps);
    var l := LandingOf(Meet(c, None));
    var e', tree' := Woven(l.e, ps), Plug(Rewoven(c, ps), Rel(id, toks));
    var start, end := FirstAt(Toks(l.e)), LastEnd(Toks(l.e));
    TreeWoven(md, pre, c, Rel(id, toks), post, l.id, l.e, Located(md, pre, c, toks, post, ownJoin).cs, ps);
    WovenTight(md, l.e, ps, start, end);
    OnAtWoven(c, l.id, e');
    forall row: SqlGrammar.Row ensures Eval(e', row).True? <==> Eval(l.e, row).True? && forall x <- ps :: Eval(x, row).True? {
      WovenOnMeans(l.e, ps, start, end, row);
    }
    if !Leaks(l) && (forall row: JoinTrees.Row :: w.holds(l.id, row) ==> Eval(e', says(row)).True?) &&
       (forall row: JoinTrees.Row :: (forall x <- ps :: Eval(x, says(row)).True?) ==> Scoped(row, id, p)) {
      forall row: JoinTrees.Row | w.holds(l.id, row) ensures Scoped(row, id, p) {
        assert Eval(e', says(row)).True?;
      }
      assert AllScoped(Conjoin(w, l.id, id, p), tree', id, p);
      AlreadyConjoined(w, tree', l.id, id, p);
    }
  }

  lemma {:induction false} OnAtWoven(c: Ctx, at: nat, e: Expr)
    requires OnAt(c, at).Some?
    ensures OnAt(WithOn(c, at, e), at) == Some(e)
  {
    match c
    case Top =>
    case InParen(_, _, up) => OnAtWoven(up, at, e);
    case InLeft(id, _, _, _, _, q, up) =>
      if !(id == at && q.On?) {
        OnAtWoven(up, at, e);
      }
    case InRight(id, _, _, _, _, q, up) =>
      if !(id == at && q.On?) {
        OnAtWoven(up, at, e);
      }
  }

  lemma {:induction false} WovenOnMeans(e: Expr, ps: seq<Expr>, start: nat, end: nat, row: SqlGrammar.Row)
    ensures Eval(WovenOn(e, ps, start, end), row).True? <==> Eval(e, row).True? && forall x <- ps :: Eval(x, row).True?
  {
    hide Appended, Scope;
    AppendedMeans(if Loose(e) then Paren(Opening(start), e, Closing(end)) else e, ps, end, row);
    ScopeTrue(ps, row);
  }

  /** A condition that implies the predicate is not changed by conjoining it. */
  lemma {:induction false} AlreadyConjoined(w: World, f: From, at: nat, d: nat, p: int -> bool)
    requires AllScoped(Conjoin(w, at, d, p), f, d, p) && forall row: JoinTrees.Row :: w.holds(at, row) ==> Scoped(row, d, p)
    ensures AllScoped(w, f, d, p)
  {
    hide Scoped;
    forall row: JoinTrees.Row | Yields(w, f, row) ensures Scoped(row, d, p) {
      SameRows(w, Conjoin(w, at, d, p), f, row);
    }
  }

  lemma {:induction false} SameRows(w: World, v: World, f: From, row: JoinTrees.Row)
    requires w.has == v.has && forall id: nat, r: JoinTrees.Row :: w.holds(id, r) == v.holds(id, r)
    ensures Yields(w, f, row) == Yields(v, f, row)
    decreases f
  {
    match f
    case Rel(_, _) =>
    case Sub(_, g, _) => SameRows(w, v, g, row);
    case Join(id, l, _, _, _, r, _) =>
      forall s: JoinTrees.Row ensures Yields(w, l, s) == Yields(v, l, s) && Yields(w, r, s) == Yields(v, r, s) {
        SameRows(w, v, l, s);
        SameRows(w, v, r, s);
      }
      SameMatches(w, v, id, l, r, row);
      hide UnmatchedLeft, UnmatchedRight;
  }

  lemma {:induction false} SameMatches(w: World, v: World, id: nat, l: From, r: From, row: JoinTrees.Row)
    requires forall id: nat, s: JoinTrees.Row :: w.holds(id, s) == v.holds(id, s)
    requires forall s: JoinTrees.Row :: Yields(w, l, s) == Yields(v, l, s) && Yields(w, r, s) == Yields(v, r, s)
    ensures UnmatchedLeft(w, id, l, r, row) == UnmatchedLeft(v, id, l, r, row)
    ensures UnmatchedRight(w, id, l, r, row) == UnmatchedRight(v, id, l, r, row)
  {
    hide Yields, Mix;
  }

  /** Weave then enforce, in an ON. On the woven statement the enforcing search starts from
      the tokens again, finds an ON, does not refuse it, reads it without a top-level OR and
      with every policy conjunct, inserted or already there, among its segments; a second
      weave has nothing to insert. */
  lemma {:induction false} WovenOnIsEnforced(md: Mode, exactIdents: bool, pre: seq<Elem>, c: Ctx, id: nat, toks: seq<Tok>, post: seq<Elem>,
                                             ownJoin: JoinKind, ps: seq<Expr>)
    requires Accepted(md, pre, c, id, toks, post, ownJoin) && Meet(c, None).FirstOn? && Weavable(Meet(c, None)) && forall p <- ps :: Wf(md, p)
    ensures
      Toks(LandingOf(Meet(c, None)).e) != [] &&
      var cs := Located(md, pre, c, toks, post, ownJoin).cs;
      var need := Needed(exactIdents, cs, ps);
      var c' := if need == [] then c else Rewoven(c, need);
      var again := Located(md, pre, c', toks, post, ownJoin);
      SpliceToks(Whole(pre, Plug(c, Rel(id, toks)), post), OnInsertions(cs, need)) == Whole(pre, Plug(c', Rel(id, toks)), post) &&
      again.found && !again.wrongJoin && (ps != [] ==> again.cs.lexOK && !again.cs.hasOR) &&
      (forall p <- ps :: Present(exactIdents, again.cs, p)) && Needed(exactIdents, again.cs, ps) == []
  {
    hide Find, Idle, After, WfCtx, Concluded, NaturalRun, LandingFrom, Distinct, Plug, Behind, Ahead, Wf, Toks, Loose, RunLoose, Present,
      RunSegments, InOrder, Ids, OnAt, WithOn, WovenOn, FirstScanned, Meet, Apart, SpliceToks, OnInsertions, Whole, Located, ScopesAlways;
    AcceptedFacts(md, pre, c, id, toks, post, ownJoin);
    var m := Meet(c, None);
    var l := LandingOf(m);
    var cs := Located(md, pre, c, toks, post, ownJoin).cs;
    var need := Needed(exactIdents, cs, ps);
    NeededMember(exactIdents, cs, ps);
    if need == [] {
      NothingInserted(Whole(pre, Plug(c, Rel(id, toks)), post), cs);
      assert forall p <- ps :: Present(exactIdents, cs, p);
      PresentMeansRead(exactIdents, cs, ps);
      NoneNeeded(exactIdents, cs, ps);
    } else {
      var again := Located(md, pre, Rewoven(c, need), toks, post, ownJoin).cs;
      FoundAgain(md, pre, c, id, toks, post, ownJoin, need);
      TreeWoven(md, pre, c, Rel(id, toks), post, l.id, l.e, cs, need);
      var m' := Meet(Rewoven(c, need), None);
      RunWoven(md, m, m', need);
      forall p | p in ps ensures Present(exactIdents, again, p) {
        OneOnEnforced(exactIdents, cs, m, again, m', need, LastEnd(Toks(l.e)), p);
      }
      assert again.lexOK && !again.hasOR by { ReadAgain(again, m'); }
      NoneNeeded(exactIdents, again, ps);
    }
  }

  lemma {:induction false} ReadAgain(again: ClauseScan, m': First)
    requires m'.FirstOn? && FirstScanned(again, m') && LandingOf(m').Lands? && !RunLoose(m'.e, m'.up)
    ensures again.lexOK && !again.hasOR && again.segs == RunSegments(m'.e, m'.up)
  {
    hide RunLoose, RunSegments, Toks, LandingFrom;
  }

  lemma {:induction false} NothingInserted(els: seq<Elem>, cs: ClauseScan)
    ensures SpliceToks(els, OnInsertions(cs, [])) == els
  {
  }

  lemma {:induction false} OneOnEnforced(exactIdents: bool, cs: ClauseScan, m: First, again: ClauseScan, m': First, need: seq<Expr>, end: nat, p: Expr)
    requires m.FirstOn? && m'.FirstOn? && FirstScanned(cs, m) && FirstScanned(again, m') && LandingOf(m).Lands? && LandingOf(m').Lands?
    requires p in need || Present(exactIdents, cs, p)
    requires !RunLoose(m'.e, m'.up)
    requires
      if RunLoose(m.e, m.up) then exists front :: RunSegments(m'.e, m'.up) == front + Brackets(need, end)
      else RunSegments(m'.e, m'.up) == RunSegments(m.e, m.up) + Brackets(need, end)
    ensures Present(exactIdents, again, p)
  {
    hide RunLoose, RunSegments, Toks, LandingFrom, SegsContain, Brackets, Normal;
    if p in need {
      BracketIn(need, end, p);
      FoundAmong(exactIdents, again.segs, p, end);
    } else {
      StillFound(exactIdents, cs.segs, again.segs, Normal(Toks(p)));
    }
  }

  /** The other runs: `x JOIN b JOIN a ON p ON q` with an OR at the top level of `p` or of
      `q`. The parentheses go around `p ON q`, keyword and all, which is no condition. */
  lemma {:induction false} LooseRunWraps(md: Mode, pre: seq<Elem>, a: nat, toks: seq<Tok>, b: From, x: From, kws: seq<Tok>, kws': seq<Tok>,
                                         i: nat, j: nat, kind: JoinKind, on: Qual, on': Qual, post: seq<Elem>, ps: seq<Expr>)
    requires md.inOn && After(post) && toks != [] && Idle(toks, 0, false) && ps != []
    requires on.On? && on'.On? && !LeadsPositional(on'.e) && !kind.Cross? && (Loose(on.e) || Loose(on'.e))
    requires
      var c := InRight(i, b, Inner, false, kws, on, InRight(j, x, kind, false, kws', on', Top));
      WfCtx(md, c, false) && Distinct(Plug(c, Rel(a, toks))) && InOrder(Whole(pre, Plug(c, Rel(a, toks)), post)) && !NaturalRun(pre + Tks(Ahead(c)))
    ensures
      var c := InRight(i, b, Inner, false, kws, on, InRight(j, x, kind, false, kws', on', Top));
      var res := Located(md, pre, c, toks, post, Inner);
      var run := Toks(on.e) + [on'.kw] + Toks(on'.e);
      var start, end := FirstAt(run), LastEnd(run);
      res.found && !res.wrongJoin && res.cs.lexOK && !Weavable(Meet(c, None)) &&
      SpliceToks(Whole(pre, Plug(c, Rel(a, toks)), post), OnInsertions(res.cs, ps)) ==
        pre + Tks(Ahead(c) + toks + [on.kw]) + Tks([Opening(start)] + run + [Closing(end)] + ([Conjunction(end)] + Toks(Joined(ps, end)))) + post
  {
    hide Find, Idle, After, Concluded, NaturalRun, Distinct, Plug, Toks, WfFrom, Wf, KwsOk, InOrder, Loose, LeadsPositional, LeadWord, OnInsertions,
      SpliceToks, RunSegments, OnPlaced, Joined, ScopesAlways;
    var c := InRight(i, b, Inner, false, kws, on, InRight(j, x, kind, false, kws', on', Top));
    var run, cur := Toks(on.e) + [on'.kw] + Toks(on'.e), Lands(j, kind, true, on'.e, Top);
    assert Meet(c, None) == FirstOn(i, Inner, true, on.e, c.up, None);
    assert LandingFrom(Lands(i, Inner, true, on.e, c.up), c.up) == LandingFrom(cur, Top) == cur;
    AcceptedMeets(md, pre, c, toks, post, Inner);
    AcceptedReads(md, pre, c, a, toks, post, Inner);
    NonEmpty(md, on.e);
    NonEmpty(md, on'.e);
    PlugSpells(c, Rel(a, toks));
    var front := Ahead(c) + toks + [on.kw];
    assert Behind(Top) == [] && Behind(c.up) == [on'.kw] + Toks(on'.e) + Behind(Top);
    assert Behind(c) == [on.kw] + Toks(on.e) + Behind(c.up);
    assert Ahead(c) + toks + Behind(c) == front + run;
    TksConcat(front, run);
    var cs := Located(md, pre, c, toks, post, Inner).cs;
    assert Whole(pre, Plug(c, Rel(a, toks)), post) == (pre + Tks(front)) + Tks(run) + post;
    OrderedPlaced(pre + Tks(front), run, post);
    assert run[0] == Toks(on.e)[0] && run[|run| - 1] == Toks(on'.e)[|Toks(on'.e)| - 1];
    WrappedOn(pre + Tks(front), run, post, cs, ps);
  }
}
