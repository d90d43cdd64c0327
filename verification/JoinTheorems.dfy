/**
 When the ON that `joinOn` settles for scopes the relation: for every join tree, an exact
 condition, and the three kinds of tree on which it fails (internal/policy/splice.go).
 */
module JoinTheorems {
  import opened Core
  import opened SqlTokens
  import opened ClauseScanning
  import opened SqlGrammar
  import opened ClauseReading
  import opened ClauseTheorems
  import opened JoinScanning
  import opened JoinTrees
  import opened JoinGating
  import opened JoinLanding
  import opened JoinSearching

  // ---------------------------------------------------------------- rows of the whole tree

  /** Scoping the ON where the conjunct lands scopes the whole tree's rows, unless that join
      preserves the right operand that holds the relation. */
  lemma {:induction false} MeetScopes(w: World, c: Ctx, crossed: Option<JoinKind>, f: From, d: nat, p: int -> bool)
    requires Distinct(Plug(c, f)) && WfUp(c) && d in Rels(f)
    requires var m := Meet(c, crossed); m.FirstOn? && (!m.right ==> !KeepsLeft(m.kind)) && LandingOf(m).Lands? && !Leaks(LandingOf(m))
    ensures AllScoped(Conjoin(w, LandingOf(Meet(c, crossed)).id, d, p), Plug(c, f), d, p)
    decreases c
  {
    hide AllScoped, Distinct;
    match c
    case InRight(id, l, kind, natural, kws, q, up) =>
      var g := Join(id, l, kind, natural, kws, f, q);
      if q.On? {
        LandingScopes(w, Lands(id, kind, true, q.e, up), g, up, d, p);
      } else {
        MeetScopes(w, up, crossed, g, d, p);
      }
    case InLeft(id, kind, natural, kws, r, q, up) =>
      var g := Join(id, f, kind, natural, kws, r, q);
      if q.On? {
        LandingScopes(w, Lands(id, kind, false, q.e, up), g, up, d, p);
      } else {
        MeetScopes(w, up, Some(Inner), g, d, p);
      }
  }

  /** The row with nothing of `ids` and one tuple of everything else. */
  function Without(ids: set<nat>): JoinTrees.Row { (k: nat) => if k in ids then None else Some(0) }

  /** A row that keeps the one tuple of every relation outside `f` survives all enclosing
      joins. */
  lemma {:induction false} SurvivesUp(c: Ctx, f: From, at: nat, d: nat, ids: set<nat>)
    requires Distinct(Plug(c, f)) && at in Joins(f) && ids <= Rels(f) && Yields(Bare(at, d), f, Without(ids))
    ensures Yields(Bare(at, d), Plug(c, f), Without(ids))
    decreases c
  {
    hide Yields;
    match c
    case Top =>
    case InParen(open, close, up) =>
      SubYields(Bare(at, d), open, f, close, Without(ids));
      SurvivesUp(up, Sub(open, f, close), at, d, ids);
    case InLeft(id, kind, natural, kws, r, q, up) =>
      var g := Join(id, f, kind, natural, kws, r, q);
      PlugDistinct(up, g);
      LeftSurvives(g, at, d, Without(ids));
      SurvivesUp(up, g, at, d, ids);
    case InRight(id, l, kind, natural, kws, q, up) =>
      var g := Join(id, l, kind, natural, kws, f, q);
      PlugDistinct(up, g);
      RightSurvives(g, at, d, Without(ids));
      SurvivesUp(up, g, at, d, ids);
  }

  lemma {:induction false} SubYields(w: World, open: Tok, f: From, close: Tok, row: JoinTrees.Row)
    requires Yields(w, f, row)
    ensures Yields(w, Sub(open, f, close), row)
  {
  }

  /** The landing so far is the join `f`. */
  predicate InPlace(cur: Landing, f: From, d: nat) {
    cur.Lands? ==> f.Join? && cur.id == f.id && cur.kind == f.kind && (cur.right ==> d in Rels(f.r))
  }

  /** The landing join in its place. */
  lemma {:induction false} LandingLeaks(cur: Landing, f: From, up: Ctx, d: nat) returns (ids: set<nat>)
    requires InPlace(cur, f, d) && d in Rels(f) && Distinct(Plug(up, f))
    requires var l := LandingFrom(cur, up); l.Lands? && Leaks(l)
    ensures d !in ids && Yields(Bare(LandingFrom(cur, up).id, d), Plug(up, f), Without(ids))
    decreases up
  {
    hide Yields;
    PlugDistinct(up, f);
    if up.InRight? && !up.qual.NoQual? {
      var g := Join(up.id, up.l, up.kind, up.natural, up.kws, f, up.qual);
      if up.qual.On? {
        ids := LandingLeaks(Lands(up.id, up.kind, true, up.qual.e, up.up), g, up.up, d);
      } else {
        ids := LandingLeaks(Garbled(EndOf(up.qual.close)), g, up.up, d);
      }
    } else {
      ids := Rels(f.l);
      PreservedRightLeaks(f, d, Without(ids));
      SurvivesUp(up, f, f.id, d, ids);
    }
  }

  lemma {:induction false} MeetLeaks(c: Ctx, crossed: Option<JoinKind>, f: From, d: nat) returns (ids: set<nat>)
    requires Distinct(Plug(c, f)) && d in Rels(f)
    requires var m := Meet(c, crossed); m.FirstOn? && LandingOf(m).Lands? && Leaks(LandingOf(m))
    ensures d !in ids && Yields(Bare(LandingOf(Meet(c, crossed)).id, d), Plug(c, f), Without(ids))
    decreases c
  {
    hide Yields, Distinct;
    match c
    case InRight(id, l, kind, natural, kws, q, up) =>
      var g := Join(id, l, kind, natural, kws, f, q);
      if q.On? {
        ids := LandingLeaks(Lands(id, kind, true, q.e, up), g, up, d);
      } else {
        ids := MeetLeaks(up, crossed, g, d);
      }
    case InLeft(id, kind, natural, kws, r, q, up) =>
      var g := Join(id, f, kind, natural, kws, r, q);
      if q.On? {
        ids := LandingLeaks(Lands(id, kind, false, q.e, up), g, up, d);
      } else {
        ids := MeetLeaks(up, Some(Inner), g, d);
      }
  }

  /** However the tables are filled and whatever the conditions say, no row of the tree has
      an unscoped tuple of the relation. */
  ghost predicate ScopesAlways(tree: From, at: nat, d: nat) {
    forall w: World, p: int -> bool :: AllScoped(Conjoin(w, at, d, p), tree, d, p)
  }

  lemma {:induction false} LandingDecides(c: Ctx, f: From, d: nat)
    requires Distinct(Plug(c, f)) && WfUp(c) && d in Rels(f)
    requires var m := Meet(c, None); m.FirstOn? && (!m.right ==> !KeepsLeft(m.kind)) && LandingOf(m).Lands?
    ensures ScopesAlways(Plug(c, f), LandingOf(Meet(c, None)).id, d) <==> !Leaks(LandingOf(Meet(c, None)))
  {
    hide AllScoped, Yields, Distinct, Meet, LandingFrom;
    var l := LandingOf(Meet(c, None));
    if Leaks(l) {
      var ids := MeetLeaks(c, None, f, d);
      LeakSeen(Plug(c, f), l.id, d, ids);
    } else {
      forall w: World, p: int -> bool ensures AllScoped(Conjoin(w, l.id, d, p), Plug(c, f), d, p) {
        MeetScopes(w, c, None, f, d, p);
      }
    }
  }

  lemma {:induction false} LeakSeen(tree: From, at: nat, d: nat, ids: set<nat>)
    requires d !in ids && Yields(Bare(at, d), tree, Without(ids))
    ensures !ScopesAlways(tree, at, d)
  {
    hide Yields;
    var w := World((id: nat, v: int) => v == 0, (id: nat, row: JoinTrees.Row) => true);
    assert Bare(at, d) == Conjoin(w, at, d, Never);
    assert !Scoped(Without(ids), d, Never);
    assert !AllScoped(Conjoin(w, at, d, Never), tree, d, Never);
  }

  // ---------------------------------------------------------------- the whole search

  /** `joinOn` from a reference in its place in a statement. */
  function Located(md: Mode, pre: seq<Elem>, c: Ctx, toks: seq<Tok>, post: seq<Elem>, ownJoin: JoinKind): JoinOn {
    Finish(Find(md, SEARCH, Tks(toks + Behind(c)) + post), ownJoin, NaturalRun(pre + Tks(Ahead(c))))
  }

  lemma {:induction false} SearchFromReference(md: Mode, c: Ctx, toks: seq<Tok>, post: seq<Elem>)
    requires md.inOn && WfCtx(md, c, false) && toks != [] && Idle(toks, 0, false) && After(post)
    ensures Agrees(Find(md, SEARCH, Tks(toks + Behind(c)) + post), Meet(c, None))
  {
    hide Find, Idle, After, Agrees, WfCtx;
    IdleFind(md, SEARCH, toks);
    SkipPrimary(toks, Behind(c), post);
    FindConcat(md, SEARCH, Tks(toks), Tks(Behind(c)) + post);
    SearchAgrees(md, c, false, None, post);
  }

  /** The bookkeeping behind a result that is found and not refused. */
  lemma {:induction false} AcceptedMeets(md: Mode, pre: seq<Elem>, c: Ctx, toks: seq<Tok>, post: seq<Elem>, ownJoin: JoinKind)
    requires md.inOn && WfCtx(md, c, false) && toks != [] && Idle(toks, 0, false) && After(post)
    ensures
      var res, m := Located(md, pre, c, toks, post, ownJoin), Meet(c, None);
      (res.found && !res.wrongJoin <==> m.FirstOn? && OnGates(ownJoin, m.crossed) && !(m.crossed.None? && NaturalRun(pre + Tks(Ahead(c)))))
  {
    hide Find, Idle, After, WfCtx, Concluded, Meet, NaturalRun, LandingFrom, FirstScanned;
    SearchFromReference(md, c, toks, post);
  }

  /** A hole met from its left operand was crossed with that join's own kind. */
  lemma {:induction false} LeftMet(md: Mode, c: Ctx, isJoin: bool, crossed: Option<JoinKind>)
    requires WfCtx(md, c, isJoin)
    ensures var m := Meet(c, crossed); m.FirstOn? && !m.right ==> m.crossed == Some(m.kind) && !m.kind.Cross?
    decreases c
  {
    hide Wf, KwsOk, FromToks, Idle;
    match c
    case Top =>
    case InParen(_, _, _) =>
    case InRight(_, _, _, _, _, _, up) => LeftMet(md, up, true, crossed);
    case InLeft(_, _, _, _, _, _, up) => LeftMet(md, up, true, Some(Inner));
  }

  /** An accepted search has found the ON that the tree says, and its scan reads the run
      that begins there. */
  lemma {:induction false} AcceptedReads(md: Mode, pre: seq<Elem>, c: Ctx, id: nat, toks: seq<Tok>, post: seq<Elem>, ownJoin: JoinKind)
    requires md.inOn && WfCtx(md, c, false) && toks != [] && Idle(toks, 0, false) && After(post) && Distinct(Plug(c, Rel(id, toks)))
    requires var res := Located(md, pre, c, toks, post, ownJoin); res.found && !res.wrongJoin
    ensures Meet(c, None).FirstOn? && FirstScanned(Located(md, pre, c, toks, post, ownJoin).cs, Meet(c, None))
    ensures var l := LandingOf(Meet(c, None)); l.Lands? ==> (ScopesAlways(Plug(c, Rel(id, toks)), l.id, id) <==> !Leaks(l))
  {
    hide Find, Idle, After, WfCtx, Concluded, Meet, NaturalRun, LandingFrom, ScopesAlways, Distinct, Plug, FirstScanned, Behind, Ahead;
    AcceptedMeets(md, pre, c, toks, post, ownJoin);
    SearchFromReference(md, c, toks, post);
    LeftMet(md, c, false, None);
    WfCtxUp(md, c, false);
    if LandingOf(Meet(c, None)).Lands? {
      LandingDecides(c, Rel(id, toks), id);
    }
  }

  /** The next qualifier outward, if the group is a right operand, is not another one of the
      same run. */
  predicate Alone(up: Ctx) { up.InRight? ==> up.qual.NoQual? }

  /** A lone ON is read to its own end, with its own conjuncts. */
  lemma {:induction false} AloneReads(cs: ClauseScan, m: First)
    requires m.FirstOn? && FirstScanned(cs, m)
    ensures Alone(m.up) ==> cs.lexOK && LandingOf(m).Lands? && cs.hasOR == Loose(m.e) && (!cs.hasOR ==> cs.segs == Segments(m.e))
  {
    hide RunSegments, RunLoose, Toks, Segments, Loose;
    if Alone(m.up) {
      LoneSegments(m.e, m.up);
    }
  }

  /** Join gating. Whenever `joinOn` finds an ON and does not refuse it, its scan is the one
      that the join tree says: it is readable unless a later ON of the run begins with a
      name END, and then it ends behind the condition of a join of this statement exactly
      when the run lands in one. In that case conjoining a predicate on the relation there
      makes every row of the whole tree null-extend the relation or satisfy the predicate,
      if and only if that join is not a RIGHT or FULL join with the relation in its right
      operand. An ON with no further qualifier behind it has its own conjuncts as segments. */
  lemma {:induction false} JoinGatingExact(md: Mode, pre: seq<Elem>, c: Ctx, id: nat, toks: seq<Tok>, post: seq<Elem>, ownJoin: JoinKind)
    requires md.inOn && WfCtx(md, c, false) && toks != [] && Idle(toks, 0, false) && After(post)
    requires var tree := Plug(c, Rel(id, toks)); Distinct(tree) && Ascending(FromToks(tree))
    requires var res := Located(md, pre, c, toks, post, ownJoin); res.found && !res.wrongJoin
    ensures var tree := Plug(c, Rel(id, toks)); WfFrom(md, tree) && FromToks(tree) == Ahead(c) + toks + Behind(c)
    ensures Meet(c, None).FirstOn? && FirstScanned(Located(md, pre, c, toks, post, ownJoin).cs, Meet(c, None))
    ensures
      var tree, cs, l := Plug(c, Rel(id, toks)), Located(md, pre, c, toks, post, ownJoin).cs, LandingOf(Meet(c, None));
      (cs.lexOK <==> !l.Unread?) &&
      (cs.lexOK ==> (EndsAnOn(tree, cs.end) <==> l.Lands?)) &&
      (Alone(Meet(c, None).up) && !cs.hasOR ==> cs.segs == Segments(Meet(c, None).e)) &&
      (l.Lands? ==> (ScopesAlways(tree, l.id, id) <==> !Leaks(l)))
  {
    hide Find, Idle, After, WfCtx, Concluded, Meet, NaturalRun, LandingFrom, ScopesAlways, Distinct, Plug, Toks, EndsAnOn, LandEnd, RunLoose,
      RunSegments, Ascending, Behind, Ahead;
    AcceptedReads(md, pre, c, id, toks, post, ownJoin);
    AloneReads(Located(md, pre, c, toks, post, ownJoin).cs, Meet(c, None));
    PlugSpells(c, Rel(id, toks));
    PlugWf(md, c, Rel(id, toks));
    MeetsInTree(md, c, false, None, Rel(id, toks));
  }

  /** On ordinary joins the search is right: when the join that introduces the relation owns
      an ON and no further qualifier follows that ON directly, an accepted result always
      scopes. */
  lemma {:induction false} OwnOnScopes(md: Mode, pre: seq<Elem>, c: Ctx, id: nat, toks: seq<Tok>, post: seq<Elem>, ownJoin: JoinKind)
    requires md.inOn && WfCtx(md, c, false) && toks != [] && Idle(toks, 0, false) && After(post)
    requires Distinct(Plug(c, Rel(id, toks))) && Ascending(FromToks(Plug(c, Rel(id, toks)))) && (c.InLeft? || c.InRight?) && c.qual.On? && Alone(c.up)
    requires c.InRight? ==> ownJoin == c.kind
    requires var res := Located(md, pre, c, toks, post, ownJoin); res.found && !res.wrongJoin
    ensures ScopesAlways(Plug(c, Rel(id, toks)), c.id, id)
  {
    hide Find, Idle, After, Concluded, NaturalRun, FirstScanned, RunLoose, ScopesAlways, Distinct, Plug, Segments, Toks;
    AcceptedMeets(md, pre, c, toks, post, ownJoin);
    JoinGatingExact(md, pre, c, id, toks, post, ownJoin);
  }

  // ---------------------------------------------------------------- where it fails

  /** `x FULL JOIN a CROSS JOIN b ON p`, and the same with RIGHT: the CROSS join owns no
      ON, so the search goes on to the outer join's, takes the crossing of CROSS for an
      inner join, and accepts; unscoped rows of `a` come through. */
  lemma {:induction false} CrossGroupLeaks(md: Mode, pre: seq<Elem>, a: nat, toks: seq<Tok>, b: From, x: From, kws: seq<Tok>, kws': seq<Tok>,
                        i: nat, j: nat, kind: JoinKind, on: Qual, post: seq<Elem>, ownJoin: JoinKind)
    requires md.inOn && After(post) && toks != [] && Idle(toks, 0, false)
    requires on.On? && (kind.Full? || kind.Right?)
    requires
      var c := InLeft(i, Cross, false, kws, b, NoQual, InRight(j, x, kind, false, kws', on, Top));
      WfCtx(md, c, false) && Distinct(Plug(c, Rel(a, toks))) && Ascending(FromToks(Plug(c, Rel(a, toks))))
    ensures
      var c := InLeft(i, Cross, false, kws, b, NoQual, InRight(j, x, kind, false, kws', on, Top));
      var res := Located(md, pre, c, toks, post, ownJoin);
      res.found && !res.wrongJoin && !ScopesAlways(Plug(c, Rel(a, toks)), j, a)
  {
    hide Find, Idle, After, Concluded, NaturalRun, FirstScanned, RunLoose, ScopesAlways, Distinct, Plug, Segments, Toks, WfFrom, Wf, KwsOk;
    var c := InLeft(i, Cross, false, kws, b, NoQual, InRight(j, x, kind, false, kws', on, Top));
    assert Meet(c, None) == FirstOn(j, kind, true, on.e, Top, Some(Inner));
    AcceptedMeets(md, pre, c, toks, post, ownJoin);
    JoinGatingExact(md, pre, c, a, toks, post, ownJoin);
  }

  /** `x FULL JOIN b JOIN a ON p ON q`: the scan of `p` does not stop at the second ON, so
      the conjunct is appended to `q`, the outer join's condition. */
  lemma {:induction false} NestedOnLeaks(md: Mode, pre: seq<Elem>, a: nat, toks: seq<Tok>, b: From, x: From, kws: seq<Tok>, kws': seq<Tok>,
                      i: nat, j: nat, kind: JoinKind, on: Qual, on': Qual, post: seq<Elem>)
    requires md.inOn && After(post) && toks != [] && Idle(toks, 0, false)
    requires on.On? && on'.On? && !LeadsPositional(on'.e) && (kind.Full? || kind.Right?)
    requires
      var c := InRight(i, b, Inner, false, kws, on, InRight(j, x, kind, false, kws', on', Top));
      WfCtx(md, c, false) && Distinct(Plug(c, Rel(a, toks))) && Ascending(FromToks(Plug(c, Rel(a, toks)))) && !NaturalRun(pre + Tks(Ahead(c)))
    ensures
      var c := InRight(i, b, Inner, false, kws, on, InRight(j, x, kind, false, kws', on', Top));
      var res := Located(md, pre, c, toks, post, Inner);
      res.found && !res.wrongJoin && Meet(c, None).FirstOn? && LandingOf(Meet(c, None)) == Lands(j, kind, true, on'.e, Top) && !ScopesAlways(Plug(c, Rel(a, toks)), j, a)
  {
    hide Find, Idle, After, Concluded, NaturalRun, FirstScanned, RunLoose, ScopesAlways, Distinct, Plug, Segments, Toks, WfFrom, Wf, KwsOk;
    var c := InRight(i, b, Inner, false, kws, on, InRight(j, x, kind, false, kws', on', Top));
    assert Meet(c, None) == FirstOn(i, Inner, true, on.e, c.up, None);
    var cur := Lands(j, kind, true, on'.e, Top);
    assert LandingFrom(Lands(i, Inner, true, on.e, c.up), c.up) == LandingFrom(cur, Top) == cur;
    AcceptedMeets(md, pre, c, toks, post, Inner);
    JoinGatingExact(md, pre, c, a, toks, post, Inner);
  }

  /** `x JOIN b JOIN a ON p USING (c)`: the scan of `p` runs on over the USING of the outer
      join, and the conjunct is appended behind its columns, where no condition ends. */
  lemma {:induction false} UsingRunGarbles(md: Mode, pre: seq<Elem>, a: nat, toks: seq<Tok>, b: From, x: From, kws: seq<Tok>, kws': seq<Tok>,
                      i: nat, j: nat, kind: JoinKind, on: Qual, using: Qual, post: seq<Elem>)
    requires md.inOn && After(post) && toks != [] && Idle(toks, 0, false)
    requires on.On? && using.Using? && !kind.Cross?
    requires
      var c := InRight(i, b, Inner, false, kws, on, InRight(j, x, kind, false, kws', using, Top));
      WfCtx(md, c, false) && Distinct(Plug(c, Rel(a, toks))) && Ascending(FromToks(Plug(c, Rel(a, toks)))) && !NaturalRun(pre + Tks(Ahead(c)))
    ensures
      var c := InRight(i, b, Inner, false, kws, on, InRight(j, x, kind, false, kws', using, Top));
      var res := Located(md, pre, c, toks, post, Inner);
      res.found && !res.wrongJoin && res.cs.lexOK && res.cs.end == EndOf(using.close) && !EndsAnOn(Plug(c, Rel(a, toks)), res.cs.end)
  {
    hide Find, Idle, After, Concluded, NaturalRun, RunLoose, RunSegments, ScopesAlways, Distinct, Plug, Segments, Toks, WfFrom, Wf, KwsOk, Ascending,
      EndsAnOn;
    var c := InRight(i, b, Inner, false, kws, on, InRight(j, x, kind, false, kws', using, Top));
    var cur := Garbled(EndOf(using.close));
    assert Meet(c, None) == FirstOn(i, Inner, true, on.e, c.up, None);
    assert LandingFrom(Lands(i, Inner, true, on.e, c.up), c.up) == LandingFrom(cur, Top) == cur;
    AcceptedMeets(md, pre, c, toks, post, Inner);
    JoinGatingExact(md, pre, c, a, toks, post, Inner);
  }

  /** `x JOIN b JOIN a ON p ON offset = 1`: read in operator position the name ends the
      scan, and the conjunct is inserted right behind the second ON. A name END makes the
      scan unreadable instead. */
  lemma {:induction false} KeywordRunGarbles(md: Mode, pre: seq<Elem>, a: nat, toks: seq<Tok>, b: From, x: From, kws: seq<Tok>, kws': seq<Tok>,
                      i: nat, j: nat, kind: JoinKind, on: Qual, on': Qual, post: seq<Elem>)
    requires md.inOn && After(post) && toks != [] && Idle(toks, 0, false)
    requires on.On? && on'.On? && LeadsPositional(on'.e) && !kind.Cross?
    requires
      var c := InRight(i, b, Inner, false, kws, on, InRight(j, x, kind, false, kws', on', Top));
      WfCtx(md, c, false) && Distinct(Plug(c, Rel(a, toks))) && Ascending(FromToks(Plug(c, Rel(a, toks)))) && !NaturalRun(pre + Tks(Ahead(c)))
    ensures
      var c := InRight(i, b, Inner, false, kws, on, InRight(j, x, kind, false, kws', on', Top));
      var res := Located(md, pre, c, toks, post, Inner);
      res.found && !res.wrongJoin && (res.cs.lexOK <==> LeadWord(on'.e) != "END") &&
      (res.cs.lexOK ==> res.cs.end == EndOf(on'.kw) && !EndsAnOn(Plug(c, Rel(a, toks)), res.cs.end))
  {
    hide Find, Idle, After, Concluded, NaturalRun, RunLoose, RunSegments, ScopesAlways, Distinct, Plug, Segments, Toks, WfFrom, Wf, KwsOk, Ascending,
      EndsAnOn, LeadWord, LeadsPositional;
    var c := InRight(i, b, Inner, false, kws, on, InRight(j, x, kind, false, kws', on', Top));
    assert Meet(c, None) == FirstOn(i, Inner, true, on.e, c.up, None);
    assert LandingOf(Meet(c, None)) == if LeadWord(on'.e) == "END" then Unread else Garbled(EndOf(on'.kw));
    AcceptedMeets(md, pre, c, toks, post, Inner);
    JoinGatingExact(md, pre, c, a, toks, post, Inner);
  }

  /** `x FULL JOIN y NATURAL LEFT OUTER JOIN a ON p`: the word OUTER interrupts the run in
      which NATURAL is looked for. */
  lemma {:induction false} NaturalOuterLeaks(md: Mode, pre: seq<Elem>, a: nat, toks: seq<Tok>, y: From, x: From, kws: seq<Tok>, kws': seq<Tok>,
                          i: nat, j: nat, kind: JoinKind, on: Qual, post: seq<Elem>)
    requires md.inOn && After(post) && toks != [] && Idle(toks, 0, false)
    requires on.On? && (kind.Full? || kind.Right?) && Words(kws) == ["NATURAL", "LEFT", "OUTER", "JOIN"]
    requires
      var c := InRight(i, y, Left, true, kws, NoQual, InRight(j, x, kind, false, kws', on, Top));
      WfCtx(md, c, false) && Distinct(Plug(c, Rel(a, toks))) && Ascending(FromToks(Plug(c, Rel(a, toks))))
    ensures
      var c := InRight(i, y, Left, true, kws, NoQual, InRight(j, x, kind, false, kws', on, Top));
      var res := Located(md, pre, c, toks, post, Left);
      res.found && !res.wrongJoin && !ScopesAlways(Plug(c, Rel(a, toks)), j, a)
  {
    hide Find, Idle, After, Concluded, NaturalRun, FirstScanned, RunLoose, ScopesAlways, Distinct, Plug, Segments, Toks, WfFrom, Wf, KwsOk;
    var c := InRight(i, y, Left, true, kws, NoQual, InRight(j, x, kind, false, kws', on, Top));
    assert Meet(c, None) == FirstOn(j, kind, true, on.e, Top, None);
    assert |Words(kws)| == |kws| && Words(kws)[2] == Word(kws[2]) && Words(kws)[3] == Word(kws[3]);
    OuterInterrupts(pre + Tks(Ahead(c.up) + FromToks(y)), kws);
    AheadSpells(pre, c, y, kws);
    AcceptedMeets(md, pre, c, toks, post, Left);
    JoinGatingExact(md, pre, c, a, toks, post, Left);
  }

  lemma {:induction false} AheadSpells(pre: seq<Elem>, c: Ctx, y: From, kws: seq<Tok>)
    requires c.InRight? && c.l == y && c.kws == kws
    ensures pre + Tks(Ahead(c)) == pre + Tks(Ahead(c.up) + FromToks(y)) + Tks(kws)
  {
    TksConcat(Ahead(c.up) + FromToks(y), kws);
  }

  /** The run that ends in `OUTER JOIN` has no NATURAL in it. */
  lemma {:induction false} OuterInterrupts(els: seq<Elem>, kws: seq<Tok>)
    requires |kws| == 4 && Word(kws[2]) == "OUTER" && Word(kws[3]) == "JOIN"
    ensures !NaturalRun(els + Tks(kws))
  {
    hide Upper;
    var all := els + Tks(kws);
    var n := |all|;
    assert all[n - 1] == Tk(kws[3]) && all[..n - 1][n - 2] == Tk(kws[2]);
    assert "OUTER" !in JOINS;
    assert !NaturalRun(all[..n - 1]);
  }
}
