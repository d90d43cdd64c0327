/**
 Whether a landing is a join condition, read off the statement itself: the appended text
 goes behind the condition of some join of the tree, or behind something else
 (internal/policy/splice.go).
 */
module JoinLanding {
  import opened Core
  import opened SqlTokens
  import opened SqlGrammar
  import opened ClauseReading
  import opened ClauseTheorems
  import opened JoinScanning
  import opened JoinTrees
  import opened JoinGating

  /** Each token ends behind the ones before it. */
  predicate Ascending(ts: seq<Tok>) { forall i, j :: 0 <= i < j < |ts| ==> EndOf(ts[i]) < EndOf(ts[j]) }

  ghost predicate EndsIn(ts: seq<Tok>, n: int) { exists t <- ts :: EndOf(t) == n }

  lemma EndsApart(ts: seq<Tok>, us: seq<Tok>, n: int)
    requires Ascending(ts + us) && EndsIn(ts, n)
    ensures !EndsIn(us, n)
  {
    var i :| 0 <= i < |ts| && EndOf(ts[i]) == n;
    forall j | 0 <= j < |us| ensures EndOf(us[j]) != n {
      assert (ts + us)[i] == ts[i] && (ts + us)[|ts| + j] == us[j];
    }
  }

  lemma EndsEither(ts: seq<Tok>, us: seq<Tok>, n: int)
    ensures EndsIn(ts + us, n) <==> EndsIn(ts, n) || EndsIn(us, n)
  {
  }

  lemma AscendingParts(ts: seq<Tok>, us: seq<Tok>)
    requires Ascending(ts + us)
    ensures Ascending(ts) && Ascending(us)
  {
    assert (ts + us)[..|ts|] == ts && (ts + us)[|ts|..] == us;
    forall i, j | 0 <= i < j < |us| ensures EndOf(us[i]) < EndOf(us[j]) {
      assert EndOf((ts + us)[|ts| + i]) < EndOf((ts + us)[|ts| + j]);
    }
    forall i, j | 0 <= i < j < |ts| ensures EndOf(ts[i]) < EndOf(ts[j]) {
      assert EndOf((ts + us)[i]) < EndOf((ts + us)[j]);
    }
  }

  // ---------------------------------------------------------------- ends of conditions

  predicate EndsQual(q: Qual, n: int) { q.On? && Toks(q.e) != [] && LastEnd(Toks(q.e)) == n }

  /** The condition of some join of the tree ends at this offset. */
  predicate EndsAnOn(f: From, n: int) {
    match f
    case Rel(_, _) => false
    case Sub(_, g, _) => EndsAnOn(g, n)
    case Join(_, l, _, _, _, r, q) => EndsAnOn(l, n) || EndsAnOn(r, n) || EndsQual(q, n)
  }

  lemma QualEnds(q: Qual, n: int)
    requires EndsQual(q, n)
    ensures EndsIn(QualToks(q), n)
  {
    hide Toks;
    assert Toks(q.e)[|Toks(q.e)| - 1] in QualToks(q);
  }

  lemma {:induction false} OnEndsThere(f: From, n: int)
    requires EndsAnOn(f, n)
    ensures EndsIn(FromToks(f), n)
  {
    hide EndsIn;
    match f
    case Sub(open, g, close) =>
      OnEndsThere(g, n);
      EndsEither([open], FromToks(g), n);
      EndsEither([open] + FromToks(g), [close], n);
    case Join(_, l, _, _, kws, r, q) =>
      if EndsAnOn(l, n) {
        OnEndsThere(l, n);
      } else if EndsAnOn(r, n) {
        OnEndsThere(r, n);
      } else {
        QualEnds(q, n);
      }
      EndsEither(FromToks(l), kws, n);
      EndsEither(FromToks(l) + kws, FromToks(r), n);
      EndsEither(FromToks(l) + kws + FromToks(r), QualToks(q), n);
  }

  lemma {:induction false} AscendingItem(c: Ctx, f: From)
    requires Ascending(FromToks(Plug(c, f)))
    ensures Ascending(FromToks(f))
  {
    PlugSpells(c, f);
    AscendingParts(Ahead(c) + FromToks(f), Behind(c));
    AscendingParts(Ahead(c), FromToks(f));
  }

  /** What the tokens of one item end is decided inside that item. */
  lemma {:induction false} SubDecides(open: Tok, f: From, close: Tok, n: int)
    requires EndsIn(FromToks(f), n)
    ensures EndsAnOn(Sub(open, f, close), n) == EndsAnOn(f, n) && EndsIn(FromToks(Sub(open, f, close)), n)
  {
    hide EndsIn;
    EndsEither([open], FromToks(f), n);
    EndsEither([open] + FromToks(f), [close], n);
  }

  lemma {:induction false} LeftDecides(f: From, n: int)
    requires f.Join? && EndsIn(FromToks(f.l), n) && Ascending(FromToks(f))
    ensures EndsAnOn(f, n) == EndsAnOn(f.l, n) && EndsIn(FromToks(f), n)
  {
    hide EndsIn, Ascending, FromToks, QualToks, EndsAnOn, EndsQual;
    JoinSpelled(f);
    var l, r, q := FromToks(f.l), FromToks(f.r), QualToks(f.qual);
    assert l + f.kws + r + q == l + (f.kws + r + q);
    EndsApart(l, f.kws + r + q, n);
    EndsEither(l, f.kws + r + q, n);
    NotThere(f, n);
  }

  lemma {:induction false} RightDecides(f: From, n: int)
    requires f.Join? && EndsIn(FromToks(f.r), n) && Ascending(FromToks(f))
    ensures EndsAnOn(f, n) == EndsAnOn(f.r, n) && EndsIn(FromToks(f), n)
  {
    hide EndsIn, Ascending, FromToks, QualToks, EndsAnOn, EndsQual;
    JoinSpelled(f);
    var l, r, q := FromToks(f.l), FromToks(f.r), QualToks(f.qual);
    EndsEither(l + f.kws, r, n);
    EndsEither(l + f.kws + r, q, n);
    EndsApart(l + f.kws + r, q, n);
    assert l + f.kws + r + q == l + (f.kws + r + q);
    EndsEither(f.kws, r, n);
    EndsEither(f.kws + r, q, n);
    if EndsIn(l, n) {
      EndsApart(l, f.kws + r + q, n);
    }
    NotThere(f, n);
  }

  lemma {:induction false} JoinSpelled(f: From)
    requires f.Join?
    ensures FromToks(f) == FromToks(f.l) + f.kws + FromToks(f.r) + QualToks(f.qual)
  {
  }

  /** No condition of an operand, or of the qualifier, ends where none of its tokens does. */
  lemma {:induction false} NotThere(f: From, n: int)
    requires f.Join?
    ensures EndsAnOn(f, n) <==> EndsAnOn(f.l, n) || EndsAnOn(f.r, n) || EndsQual(f.qual, n)
    ensures !EndsIn(FromToks(f.l), n) ==> !EndsAnOn(f.l, n)
    ensures !EndsIn(f.kws + FromToks(f.r) + QualToks(f.qual), n) ==> !EndsAnOn(f.r, n) && !EndsQual(f.qual, n)
    ensures !EndsIn(QualToks(f.qual), n) ==> !EndsQual(f.qual, n)
  {
    hide EndsIn, EndsQual, FromToks, QualToks;
    EndsEither(f.kws, FromToks(f.r), n);
    EndsEither(f.kws + FromToks(f.r), QualToks(f.qual), n);
    if EndsAnOn(f.l, n) {
      OnEndsThere(f.l, n);
    }
    if EndsAnOn(f.r, n) {
      OnEndsThere(f.r, n);
    }
    if EndsQual(f.qual, n) {
      QualEnds(f.qual, n);
    }
  }

  /** Enclosing joins change nothing about it. */
  lemma {:induction false} StaysSo(c: Ctx, f: From, n: int)
    requires Ascending(FromToks(Plug(c, f))) && EndsIn(FromToks(f), n)
    ensures EndsAnOn(Plug(c, f), n) <==> EndsAnOn(f, n)
    decreases c
  {
    hide EndsIn, Ascending, FromToks, EndsAnOn;
    match c
    case Top =>
    case InParen(open, close, up) =>
      SubDecides(open, f, close, n);
      StaysSo(up, Sub(open, f, close), n);
    case InLeft(id, kind, natural, kws, r, q, up) =>
      var g := Join(id, f, kind, natural, kws, r, q);
      AscendingItem(up, g);
      LeftDecides(g, n);
      StaysSo(up, g, n);
    case InRight(id, l, kind, natural, kws, q, up) =>
      var g := Join(id, l, kind, natural, kws, f, q);
      AscendingItem(up, g);
      RightDecides(g, n);
      StaysSo(up, g, n);
  }

  // ---------------------------------------------------------------- landings

  /** The landing so far is in `f`, and is a condition of it if it says so. */
  ghost predicate Placed(cur: Landing, f: From) {
    !cur.Unread? && EndsIn(FromToks(f), LandEnd(cur)) && (EndsAnOn(f, LandEnd(cur)) <==> cur.Lands?)
  }

  lemma {:induction false} OnPlaces(f: From, right: bool, up: Ctx)
    requires f.Join? && f.qual.On? && Toks(f.qual.e) != []
    ensures Placed(Lands(f.id, f.kind, right, f.qual.e, up), f)
  {
    hide EndsIn, FromToks, Toks;
    JoinSpelled(f);
    var n := LastEnd(Toks(f.qual.e));
    QualEnds(f.qual, n);
    EndsEither(FromToks(f.l) + f.kws + FromToks(f.r), QualToks(f.qual), n);
  }

  /** A token of the qualifier that is not the last one of its condition. */
  lemma {:induction false} NoOnPlaces(f: From, n: nat)
    requires f.Join? && Ascending(FromToks(f)) && EndsIn(QualToks(f.qual), n) && !EndsQual(f.qual, n)
    ensures Placed(Garbled(n), f)
  {
    hide EndsIn, Ascending, FromToks, QualToks, EndsQual;
    JoinSpelled(f);
    var l, r, q := FromToks(f.l), FromToks(f.r), QualToks(f.qual);
    EndsEither(l + f.kws + r, q, n);
    if EndsAnOn(f.l, n) {
      OnEndsThere(f.l, n);
      EndsEither(l, f.kws, n);
      EndsEither(l + f.kws, r, n);
      EndsApart(l + f.kws + r, q, n);
    }
    if EndsAnOn(f.r, n) {
      OnEndsThere(f.r, n);
      EndsEither(l + f.kws, r, n);
      EndsApart(l + f.kws + r, q, n);
    }
    NotThere(f, n);
  }

  lemma {:induction false} UsingPlaces(f: From)
    requires f.Join? && f.qual.Using? && Ascending(FromToks(f))
    ensures Placed(Garbled(EndOf(f.qual.close)), f)
  {
    hide Ascending, FromToks, Placed;
    assert f.qual.close in QualToks(f.qual);
    NoOnPlaces(f, EndOf(f.qual.close));
  }

  lemma {:induction false} KeywordPlaces(f: From)
    requires f.Join? && f.qual.On? && Ascending(FromToks(f))
    ensures Placed(Garbled(EndOf(f.qual.kw)), f)
  {
    hide FromToks, Placed, Toks;
    JoinSpelled(f);
    var kw, ts := f.qual.kw, Toks(f.qual.e);
    AscendingParts(FromToks(f.l) + f.kws + FromToks(f.r), QualToks(f.qual));
    assert kw in QualToks(f.qual);
    assert QualToks(f.qual)[0] == kw && (ts != [] ==> QualToks(f.qual)[|ts|] == ts[|ts| - 1]);
    NoOnPlaces(f, EndOf(kw));
  }

  /** The scan ends behind a condition of the tree exactly when it says so. */
  lemma {:induction false} LandsInTree(cur: Landing, f: From, up: Ctx, md: Mode)
    requires Placed(cur, f) && Ascending(FromToks(Plug(up, f))) && WfCtx(md, up, true)
    ensures var l := LandingFrom(cur, up); !l.Unread? ==> (EndsAnOn(Plug(up, f), LandEnd(l)) <==> l.Lands?)
    decreases up
  {
    hide EndsIn, Ascending, FromToks, Wf, EndsAnOn, KwsOk, Idle, Toks;
    if up.InRight? && !up.qual.NoQual? {
      var g := Join(up.id, up.l, up.kind, up.natural, up.kws, f, up.qual);
      AscendingItem(up.up, g);
      if up.qual.Using? {
        UsingPlaces(g);
        LandsInTree(Garbled(EndOf(up.qual.close)), g, up.up, md);
      } else if LeadsPositional(up.qual.e) {
        KeywordPlaces(g);
        StaysSo(up.up, g, EndOf(up.qual.kw));
      } else {
        NonEmpty(md, up.qual.e);
        OnPlaces(g, true, up.up);
        LandsInTree(Lands(up.id, up.kind, true, up.qual.e, up.up), g, up.up, md);
      }
    } else {
      StaysSo(up, f, LandEnd(cur));
    }
  }

  /** The same from the reference. */
  lemma {:induction false} MeetsInTree(md: Mode, c: Ctx, isJoin: bool, crossed: Option<JoinKind>, f: From)
    requires WfCtx(md, c, isJoin) && Meet(c, crossed).FirstOn? && Ascending(FromToks(Plug(c, f)))
    ensures var l := LandingOf(Meet(c, crossed)); !l.Unread? ==> (EndsAnOn(Plug(c, f), LandEnd(l)) <==> l.Lands?)
    decreases c
  {
    hide Ascending, FromToks, Wf, EndsAnOn, KwsOk, Idle, Toks, Placed, LandingFrom, WfFrom;
    match c
    case InRight(id, l, kind, natural, kws, q, up) =>
      var g := Join(id, l, kind, natural, kws, f, q);
      if q.On? {
        NonEmpty(md, q.e);
        OnPlaces(g, true, up);
        LandsInTree(Lands(id, kind, true, q.e, up), g, up, md);
      } else {
        MeetsInTree(md, up, true, crossed, g);
      }
    case InLeft(id, kind, natural, kws, r, q, up) =>
      var g := Join(id, f, kind, natural, kws, r, q);
      if q.On? {
        NonEmpty(md, q.e);
        OnPlaces(g, false, up);
        LandsInTree(Lands(id, kind, false, q.e, up), g, up, md);
      } else {
        MeetsInTree(md, up, true, Some(Inner), g);
      }
  }
}
