/**
 The search of `joinOn` against the join tree: which ON it stops at, what it has seen on
 the way, and where an appended conjunct lands (internal/policy/splice.go).
 */
module JoinSearching {
  import opened Core
  import opened SqlTokens
  import opened ClauseScanning
  import opened SqlGrammar
  import opened ClauseReading
  import opened ClauseTheorems
  import opened JoinScanning
  import opened JoinTrees
  import opened JoinGating

  /** The search at the reference's depth, before any ON. */
  function Searching(crossed: Option<JoinKind>): Search {
    Search(0, false, false, crossed, crossed.Some?, false, NEW_SCAN, false)
  }

  lemma {:induction false} FindConcat(md: Mode, st: Search, els: seq<Elem>, fs: seq<Elem>)
    ensures Find(md, st, els + fs) == Find(md, Find(md, st, els), fs)
    decreases |els|
  {
    hide SearchStep;
    if els == [] {
      assert els + fs == fs;
    } else if !st.done {
      assert (els + fs)[1..] == els[1..] + fs;
      FindConcat(md, SearchStep(md, st, els[0]), els[1..], fs);
    }
  }

  lemma {:induction false} FindOne(md: Mode, st: Search, el: Elem)
    requires !st.done
    ensures Find(md, st, [el]) == SearchStep(md, st, el)
  {
    hide SearchStep;
    assert [el][1..] == [];
  }

  lemma {:induction false} IdleFind(md: Mode, st: Search, ts: seq<Tok>)
    requires !st.inOn && !st.done && Idle(ts, st.depth, st.prevDot)
    ensures Find(md, st, Tks(ts)) == st.(depth := 0, prevDot := false)
    decreases |ts|
  {
    hide EndsSearch, Upper;
    if ts != [] {
      assert Tks(ts)[0] == Tk(ts[0]) && Tks(ts)[1..] == Tks(ts[1..]);
      IdleStep(md, st, ts);
      IdleFind(md, Passed(st, ts[0]), ts[1..]);
    }
  }

  lemma {:induction false} IdleStep(md: Mode, st: Search, ts: seq<Tok>)
    requires !st.inOn && !st.done && ts != [] && Idle(ts, st.depth, st.prevDot)
    ensures SearchStep(md, st, Tk(ts[0])) == Passed(st, ts[0]) && Idle(ts[1..], Passed(st, ts[0]).depth, Passed(st, ts[0]).prevDot)
  {
    hide EndsSearch, Upper;
  }

  lemma {:induction false} IdleNested(ts: seq<Tok>, depth: nat, dotted: bool)
    requires Idle(ts, depth, dotted)
    ensures Calm(ts, depth)
    decreases |ts|
  {
    hide EndsSearch, Upper;
    if ts != [] {
      IdleNested(ts[1..], DepthAfter(depth, ts[0]), IsDot(ts[0]));
    }
  }

  /** Behind an opening parenthesis nothing is looked at until it closes. */
  lemma {:induction false} NestedIdle(ts: seq<Tok>, close: Tok, depth: nat, dotted: bool)
    requires Nested(ts, depth) && close.kind.RParen?
    ensures Idle(ts + [close], depth + 1, dotted)
    decreases |ts|
  {
    hide EndsSearch, Upper;
    if ts == [] {
      assert ts + [close] == [close] && [close][1..] == [];
      assert !IsDot(close);
    } else {
      assert (ts + [close])[1..] == ts[1..] + [close];
      NestedIdle(ts[1..], close, DepthAfter(depth, ts[0]), IsDot(ts[0]));
    }
  }

  lemma {:induction false} GroupIdle(open: Tok, ts: seq<Tok>, close: Tok)
    requires open.kind.LParen? && Nested(ts, 0) && close.kind.RParen?
    ensures Idle([open] + ts + [close], 0, false)
  {
    hide EndsSearch, Upper;
    assert ([open] + ts + [close])[1..] == ts + [close];
    NestedIdle(ts, close, 0, false);
    assert !IsDot(open);
  }

  lemma {:induction false} FlatCalm(ts: seq<Tok>)
    requires forall t <- ts :: t.kind.Ident?
    ensures Calm(ts, 0)
  {
    if ts != [] {
      assert ts[0] in ts;
      FlatCalm(ts[1..]);
    }
  }

  lemma {:induction false} FromCalm(md: Mode, f: From)
    requires WfFrom(md, f)
    ensures Calm(FromToks(f), 0)
    decreases f
  {
    hide Calm, Idle, Wf, Nested;
    match f
    case Rel(_, toks) => IdleNested(toks, 0, false);
    case Sub(open, g, close) =>
      FromCalm(md, g);
      CalmNested(FromToks(g), 0);
      CalmWrap(open, FromToks(g), close);
    case Join(_, l, kind, natural, kws, r, q) =>
      FromCalm(md, l);
      FlatCalm(kws);
      FromCalm(md, r);
      QualCalm(md, q);
      CalmConcat(FromToks(l), kws, 0, 0);
      CalmConcat(FromToks(l) + kws, FromToks(r), 0, 0);
      CalmConcat(FromToks(l) + kws + FromToks(r), QualToks(q), 0, 0);
  }

  lemma {:induction false} QualCalm(md: Mode, q: Qual)
    requires q.NoQual? || (q.On? && IsKeyword(q.kw, "ON") && Wf(md, q.e)) ||
      (q.Using? && IsKeyword(q.kw, "USING") && q.open.kind.LParen? && Nested(q.names, 0) && q.close.kind.RParen?)
    ensures Calm(QualToks(q), 0)
  {
    hide Calm, Nested;
    match q
    case NoQual => assert Calm([], 0) by { FlatCalm([]); }
    case On(kw, e) =>
      CalmOne(kw);
      ToksCalm(md, e);
      CalmConcat([kw], Toks(e), 0, 0);
    case Using(kw, open, names, close) =>
      CalmOne(kw);
      CalmWrap(open, names, close);
      CalmConcat([kw], [open] + names + [close], 0, 0);
  }

  /** A relation or a parenthesized join is passed over. */
  lemma {:induction false} PrimaryIdle(md: Mode, f: From)
    requires WfFrom(md, f) && !f.Join?
    ensures Idle(FromToks(f), 0, false)
  {
    hide Idle;
    if f.Sub? {
      FromCalm(md, f.f);
      CalmNested(FromToks(f.f), 0);
      GroupIdle(f.open, FromToks(f.f), f.close);
    }
  }

  // ---------------------------------------------------------------- join keywords

  lemma WordStep(md: Mode, st: Search, t: Tok)
    requires t.kind.Ident? && st.depth == 0 && !st.prevDot && !st.inOn && !st.done
    ensures SearchStep(md, st, Tk(t)) == PlainWord(st, Word(t))
  {
    hide PlainWord, Upper;
    assert !IsDot(t);
  }

  lemma JoinWords()
    ensures forall w :: w in JOINS && w != "NATURAL" ==> w != "ON" && !EndsSearch(w)
    ensures "OUTER" !in JOINS && !EndsSearch("OUTER") && EndsSearch("NATURAL")
  {
    assert forall w :: w in JOINS ==> w !in TAIL && w !in {"USING", "WHERE", "SET", "ON"};
  }

  /** Crossing a join's keywords for the first time records its kind. */
  lemma {:induction false} FirstCrossing(md: Mode, kind: JoinKind, kws: seq<Tok>)
    requires KwsOk(kind, false, kws)
    ensures Find(md, Searching(None), Tks(kws)) == Searching(Some(CrossedKind(kind)))
  {
    hide EndsSearch, Upper;
    var s0, s3 := Searching(None), Searching(Some(CrossedKind(kind)));
    var s1 := s0.(crossed := Some(CrossedKind(kind)));
    JoinWords();
    var ws := Words(kws);
    assert forall t <- kws :: t.kind.Ident?;
    WordStep(md, s0, kws[0]);
    if |kws| == 1 {
      assert ws[0] in {"JOIN", "STRAIGHT_JOIN"};
      FindOne(md, s0, Tk(kws[0]));
      assert Tks(kws) == [Tk(kws[0])];
    } else {
      assert ws[0] in {"INNER", "LEFT", "RIGHT", "FULL", "CROSS"} && ws[|ws| - 1] == "JOIN";
      assert SearchStep(md, s0, Tk(kws[0])) == s1;
      WordStep(md, s1, kws[1]);
      if |kws| == 2 {
        TwoSteps(md, s0, kws[0], kws[1]);
        assert kws == [kws[0], kws[1]];
      } else {
        assert ws[1] == "OUTER";
        assert SearchStep(md, s1, Tk(kws[1])) == s1;
        WordStep(md, s1, kws[2]);
        TwoSteps(md, s0, kws[0], kws[1]);
        FindConcat(md, s0, Tks([kws[0], kws[1]]), [Tk(kws[2])]);
        FindOne(md, s1, Tk(kws[2]));
        assert Tks(kws) == Tks([kws[0], kws[1]]) + [Tk(kws[2])];
      }
    }
  }

  lemma {:induction false} TwoSteps(md: Mode, st: Search, a: Tok, b: Tok)
    requires !st.done && !SearchStep(md, st, Tk(a)).done
    ensures Find(md, st, Tks([a, b])) == SearchStep(md, SearchStep(md, st, Tk(a)), Tk(b))
  {
    hide SearchStep;
    FindConcat(md, st, [Tk(a)], [Tk(b)]);
    FindOne(md, st, Tk(a));
    FindOne(md, SearchStep(md, st, Tk(a)), Tk(b));
    assert Tks([a, b]) == [Tk(a)] + [Tk(b)];
  }

  lemma {:induction false} SecondStays(md: Mode, st: Search, els: seq<Elem>)
    requires st.second
    ensures Find(md, st, els).second
    decreases |els|
  {
    hide StepScan, EndsSearch, Upper;
    if els != [] && !st.done {
      SecondStays(md, SearchStep(md, st, els[0]), els[1..]);
    }
  }

  /** Crossing a second join: from there on any ON found is refused, and a NATURAL ends
      the search. */
  lemma {:induction false} NextCrossing(md: Mode, k: JoinKind, kind: JoinKind, natural: bool, kws: seq<Tok>, rest: seq<Elem>)
    requires KwsOk(kind, natural, kws)
    ensures var r := Find(md, Searching(Some(k)), Tks(kws) + rest); r.inOn ==> r.second
  {
    hide EndsSearch, Upper;
    JoinWords();
    var st, ws := Searching(Some(k)), Words(kws);
    assert forall t <- kws :: t.kind.Ident?;
    WordStep(md, st, kws[0]);
    assert natural || ws[0] in JOINS - {"NATURAL"};
    var els := Tks(kws) + rest;
    assert els[0] == Tk(kws[0]);
    if !natural {
      SecondStays(md, SearchStep(md, st, els[0]), els[1..]);
    }
  }

  /** A NATURAL join ends the search. */
  lemma {:induction false} NaturalEnds(md: Mode, crossed: Option<JoinKind>, kind: JoinKind, kws: seq<Tok>, rest: seq<Elem>)
    requires KwsOk(kind, true, kws)
    ensures !Find(md, Searching(crossed), Tks(kws) + rest).inOn
  {
    hide EndsSearch, Upper;
    JoinWords();
    WordStep(md, Searching(crossed), kws[0]);
    assert (Tks(kws) + rest)[0] == Tk(kws[0]);
  }

  // ---------------------------------------------------------------- inside the ON

  function WithReader(st: Search, r: Reader): Search
    requires r.ex.Some?
  {
    st.(scan := r.ex.value, depth := r.depth, prevDot := r.prevDot, done := r.done)
  }

  /** Inside the ON the search reads exactly as the WHERE scan does. */
  lemma {:induction false} FindIsRead(md: Mode, st: Search, ts: seq<Tok>)
    requires st.inOn && !st.done && Calm(ts, st.depth)
    ensures var r := Read(md, Reader(Some(st.scan), st.depth, st.prevDot, false), Tks(ts));
      r.ex.Some? && Find(md, st, Tks(ts)) == WithReader(st, r)
    decreases |ts|
  {
    hide StepScan;
    if ts != [] {
      assert Tks(ts)[0] == Tk(ts[0]) && Tks(ts)[1..] == Tks(ts[1..]);
      StepIsRead(md, st, ts[0]);
      var st' := SearchStep(md, st, Tk(ts[0]));
      if !st'.done {
        FindIsRead(md, st', ts[1..]);
      }
    }
  }

  lemma StepIsRead(md: Mode, st: Search, t: Tok)
    requires st.inOn && !st.done && !(st.depth == 0 && (t.kind.RParen? || Cuts(t)))
    ensures var r := ReadTok(md, Reader(Some(st.scan), st.depth, st.prevDot, false), t);
      r.ex.Some? && SearchStep(md, st, Tk(t)) == WithReader(st, r) && r.depth == DepthAfter(st.depth, t)
  {
    hide StepScan, IsDot;
  }

  /** The search once an ON has been entered. */
  function Inside(crossed: Option<JoinKind>, scan: Scan): Search { Searching(crossed).(inOn := true, scan := scan) }

  lemma {:induction false} OnOpens(md: Mode, crossed: Option<JoinKind>, kw: Tok)
    requires IsKeyword(kw, "ON")
    ensures Find(md, Searching(crossed), Tks([kw])) == Inside(crossed, NEW_SCAN)
  {
    hide Upper;
    WordStep(md, Searching(crossed), kw);
    FindOne(md, Searching(crossed), Tk(kw));
    assert Tks([kw]) == [Tk(kw)];
  }

  lemma {:induction false} InsideTakes(md: Mode, crossed: Option<JoinKind>, scan: Scan, ts: seq<Tok>, scan': Scan)
    requires Calm(ts, 0) && Takes(md, scan, 0, ts, scan')
    ensures Find(md, Inside(crossed, scan), Tks(ts)) == Inside(crossed, scan')
  {
    FindIsRead(md, Inside(crossed, scan), ts);
  }

  // ---------------------------------------------------------------- the run of qualifiers

  /** What may follow a FROM item: nothing, a comma, a semicolon, a construct, or a keyword
      that ends it. */
  predicate After(post: seq<Elem>) {
    post == [] || post[0].Hole? || Cuts(post[0].t) ||
    (post[0].t.kind.Ident? && (Word(post[0].t) in TAIL || Word(post[0].t) in {"WHERE", "SET"}))
  }

  /** Some later ON that the scan reads has a top-level OR-class operator. */
  predicate UpLoose(up: Ctx)
    decreases up
  {
    up.InRight? &&
    match up.qual
    case NoQual => false
    case On(_, e) => !LeadsPositional(e) && (Loose(e) || UpLoose(up.up))
    case Using(_, _, _, _) => UpLoose(up.up)
  }

  predicate RunLoose(e: Expr, up: Ctx) { Loose(e) || UpLoose(up) }

  /** What the rest of the run adds to the segment `cur`; the qualifiers' own words are
      content like any other. */
  function UpPour(cur: seq<ConjTok>, up: Ctx): (seq<seq<ConjTok>>, seq<ConjTok>)
    decreases up
  {
    if !up.InRight? then ([], cur)
    else
      match up.qual
      case NoQual => ([], cur)
      case On(kw, e) =>
        var cur1 := Append(cur, kw);
        if LeadsPositional(e) then ([], cur1)
        else
          var (a, b) := Pour(cur1, e);
          var (c, d) := UpPour(b, up.up);
          (a + c, d)
      case Using(_, _, _, _) => UpPour(AppendAll(cur, QualToks(up.qual)), up.up)
  }

  /** The segments of a run without a top-level OR-class operator. */
  function RunSegments(e: Expr, up: Ctx): seq<seq<ConjTok>> {
    var (a, b) := Pour([], e);
    var (c, d) := UpPour(b, up);
    a + c + [d]
  }

  /** A lone ON has its own conjuncts. */
  lemma {:induction false} LoneSegments(e: Expr, up: Ctx)
    requires up.InRight? ==> up.qual.NoQual?
    ensures RunSegments(e, up) == Segments(e) && RunLoose(e, up) == Loose(e)
  {
    hide Pour, Segments;
    PourSegments(e);
    var (a, b) := Pour([], e);
    assert a + [] + [b] == a + [b];
  }

  /** The scan stands behind a part of the run that ends at this offset. */
  predicate StandsBehind(scan: Scan, end: int) {
    !scan.operand && scan.cases == 0 && !scan.bad && scan.start >= 0 && scan.end == end && (!scan.hasOR ==> scan.cur != [])
  }

  lemma ConcludedFlushed(scan: Scan)
    ensures Concluded(Flushed(scan)) == Concluded(scan)
  {
  }

  /** What ends an ON: it leaves the scan as it is. */
  predicate EndsOn(els: seq<Elem>) {
    After(els) || (els != [] && els[0].Tk? && (els[0].t.kind.RParen? || (els[0].t.kind.Ident? && Word(els[0].t) in JOINS)))
  }

  lemma {:induction false} EndFind(md: Mode, crossed: Option<JoinKind>, scan: Scan, els: seq<Elem>)
    requires md.inOn && EndsOn(els) && !scan.operand && scan.cases == 0
    ensures var r := Find(md, Inside(crossed, scan), els);
      r.inOn && !r.second && r.crossed == crossed && (r.scan == scan || r.scan == Flushed(scan))
  {
    hide Upper;
    if els != [] && els[0].Tk? && els[0].t.kind.Ident? {
      TailScan(md, scan, els[0].t);
      assert !IsDot(els[0].t);
      hide StepScan;
      assert SearchStep(md, Inside(crossed, scan), els[0]).done;
    }
  }

  /** Nothing, a parenthesis or a join follows the last ON of a run. */
  lemma {:induction false} BehindEnds(md: Mode, up: Ctx, post: seq<Elem>)
    requires WfCtx(md, up, true) && After(post) && !(up.InRight? && !up.qual.NoQual?)
    ensures EndsOn(Tks(Behind(up)) + post)
  {
    hide Upper;
    var els := Tks(Behind(up)) + post;
    match up
    case Top => assert els == post;
    case InParen(_, close, more) => assert els[0] == Tk(close);
    case InLeft(_, kind, natural, kws, r, q, more) =>
      assert kws[0] in kws;
      FirstWord(kind, natural, kws);
      assert els[0] == Tk(kws[0]);
    case InRight(_, l, kind, natural, kws, q, more) =>
      assert false;
  }

  lemma FirstWord(kind: JoinKind, natural: bool, kws: seq<Tok>)
    requires KwsOk(kind, natural, kws)
    ensures kws != [] && kws[0].kind.Ident? && Word(kws[0]) in JOINS
  {
    hide Upper;
    assert kws[0] in kws;
    if !natural {
      assert Words(kws)[0] in JOINS;
    }
  }

  /** Once inside an ON the evidence is complete. */
  lemma {:induction false} InsideKeeps(md: Mode, st: Search, els: seq<Elem>)
    requires st.inOn
    ensures var r := Find(md, st, els); r.inOn && r.crossed == st.crossed && r.second == st.second
    decreases |els|
  {
    hide StepScan;
    if els != [] && !st.done {
      InsideKeeps(md, SearchStep(md, st, els[0]), els[1..]);
    }
  }

  /** What the rest of the run leaves of a scan that stands behind one of its ONs. */
  ghost predicate RunScanned(r: Search, scan0: Scan, cur: Landing, up: Ctx) {
    var l := LandingFrom(cur, up);
    if l.Unread? then r.scan.bad
    else
      var cs := Concluded(r.scan);
      var hasOR := scan0.hasOR || UpLoose(up);
      cs.lexOK && cs.hasOR == hasOR && cs.start == scan0.start && cs.end == LandEnd(l) &&
      (!hasOR ==> cs.segs == scan0.segs + UpPour(scan0.cur, up).0 + [UpPour(scan0.cur, up).1])
  }

  lemma {:induction false} UpFind(md: Mode, crossed: Option<JoinKind>, scan0: Scan, cur: Landing, up: Ctx, post: seq<Elem>)
    requires md.inOn && WfCtx(md, up, true) && After(post) && !cur.Unread?
    requires StandsBehind(scan0, LandEnd(cur))
    ensures RunScanned(Find(md, Inside(crossed, scan0), Tks(Behind(up)) + post), scan0, cur, up)
    decreases up
  {
    hide Find, Upper, Toks, Wf, LeadsPositional, Behind, KwsOk, Idle, RunScanned, StandsBehind, LandingFrom, UpLoose, UpPour;
    if up.InRight? && up.qual.Using? {
      UsingFind(md, crossed, scan0, cur, up, post);
    } else if up.InRight? && up.qual.On? {
      if LeadsPositional(up.qual.e) {
        StopFind(md, crossed, scan0, cur, up, post);
      } else {
        OnFind(md, crossed, scan0, cur, up, post);
      }
    } else {
      LastFind(md, crossed, scan0, cur, up, post);
    }
  }

  /** Nothing more of the run. */
  lemma {:induction false} LastFind(md: Mode, crossed: Option<JoinKind>, scan0: Scan, cur: Landing, up: Ctx, post: seq<Elem>)
    requires md.inOn && WfCtx(md, up, true) && After(post) && !cur.Unread? && !(up.InRight? && !up.qual.NoQual?)
    requires StandsBehind(scan0, LandEnd(cur))
    ensures RunScanned(Find(md, Inside(crossed, scan0), Tks(Behind(up)) + post), scan0, cur, up)
  {
    hide Find, Upper, Toks, Wf, Behind, KwsOk, Idle, WfCtx, After, LandEnd;
    BehindEnds(md, up, post);
    EndFind(md, crossed, scan0, Tks(Behind(up)) + post);
    ConcludedFlushed(scan0);
    assert scan0.segs + [] + [scan0.cur] == scan0.segs + [scan0.cur];
  }

  /** USING and its columns are content. */
  lemma {:induction false} UsingFind(md: Mode, crossed: Option<JoinKind>, scan0: Scan, cur: Landing, up: Ctx, post: seq<Elem>)
    requires md.inOn && WfCtx(md, up, true) && After(post) && !cur.Unread? && up.InRight? && up.qual.Using?
    requires StandsBehind(scan0, LandEnd(cur))
    ensures RunScanned(Find(md, Inside(crossed, scan0), Tks(Behind(up)) + post), scan0, cur, up)
    decreases up, 0
  {
    hide Find, Upper, Toks, Wf, KwsOk, Idle, StandsBehind, AppendAll, RunScanned, LandingFrom, Nested, WfFrom, Took, Takes;
    var ts, q := QualToks(up.qual), up.qual;
    var scan1 := Took(scan0, ts, false);
    BehindState(scan0, LandEnd(cur));
    UsingIsContent(md, crossed, scan0, q);
    TookBehind(scan0, ts, LandEnd(cur));
    assert ts[|ts| - 1] == q.close;
    hide QualToks;
    TksConcat(ts, Behind(up.up));
    assert Behind(up) == ts + Behind(up.up);
    assert Tks(Behind(up)) + post == Tks(ts) + (Tks(Behind(up.up)) + post);
    FindConcat(md, Inside(crossed, scan0), Tks(ts), Tks(Behind(up.up)) + post);
    UpFind(md, crossed, scan1, Garbled(EndOf(q.close)), up.up, post);
    UsingAdds(Find(md, Inside(crossed, scan0), Tks(Behind(up)) + post), scan0, scan1, cur, up);
  }

  lemma {:induction false} UsingAdds(r: Search, scan0: Scan, scan1: Scan, cur: Landing, up: Ctx)
    requires up.InRight? && up.qual.Using? && scan0.start >= 0 && scan1 == Took(scan0, QualToks(up.qual), false)
    requires RunScanned(r, scan1, Garbled(EndOf(up.qual.close)), up.up)
    ensures RunScanned(r, scan0, cur, up)
  {
    hide Concluded, LandEnd, AppendAll, QualToks;
  }

  lemma {:induction false} UsingIsContent(md: Mode, crossed: Option<JoinKind>, scan: Scan, q: Qual)
    requires q.Using? && IsKeyword(q.kw, "USING") && q.open.kind.LParen? && Nested(q.names, 0) && q.close.kind.RParen?
    requires scan.cases == 0
    ensures Find(md, Inside(crossed, scan), Tks(QualToks(q))) == Inside(crossed, Took(scan, QualToks(q), false))
  {
    hide Upper, Find, Takes, Took, Nested, Calm;
    var us := [q.open] + q.names + [q.close];
    UsingWord(md);
    PlainTok(md, scan, q.kw);
    TookOperand(scan, [q.kw], false);
    GroupTakes(md, Took(scan, [q.kw], false), q.open, q.names, q.close);
    TakesThen(md, scan, 0, [q.kw], Took(scan, [q.kw], false), us, Took(Took(scan, [q.kw], false), us, false));
    TookConcat(scan, [q.kw], us, false, false);
    CalmOne(q.kw);
    CalmWrap(q.open, q.names, q.close);
    CalmConcat([q.kw], us, 0, 0);
    InsideTakes(md, crossed, scan, QualToks(q), Took(scan, QualToks(q), false));
  }

  lemma UsingWord(md: Mode)
    ensures "USING" !in ARMS && "USING" !in Stops(md) && !Introducer("USING")
  {
  }

  /** Collecting tokens keeps the scan where it stands. */
  lemma {:induction false} TookBehind(scan: Scan, ts: seq<Tok>, end: int)
    requires ts != [] && StandsBehind(scan, end)
    ensures var s := Took(scan, ts, false); StandsBehind(s, EndOf(ts[|ts| - 1])) && s.start == scan.start && s.hasOR == scan.hasOR
  {
    AppendLength(scan.cur, ts);
    hide AppendAll;
  }

  /** An ON whose condition begins with an ordinary operand is read to its end. */
  lemma {:induction false} OnFind(md: Mode, crossed: Option<JoinKind>, scan0: Scan, cur: Landing, up: Ctx, post: seq<Elem>)
    requires md.inOn && WfCtx(md, up, true) && After(post) && !cur.Unread? && up.InRight? && up.qual.On? && !LeadsPositional(up.qual.e)
    requires StandsBehind(scan0, LandEnd(cur))
    ensures RunScanned(Find(md, Inside(crossed, scan0), Tks(Behind(up)) + post), scan0, cur, up)
    decreases up, 0
  {
    hide Find, Upper, Toks, Wf, KwsOk, Idle, LeadsPositional, Scanned, Took, Takes, RunScanned, StandsBehind, LandingFrom, UpLoose, UpPour;
    var kw, e := up.qual.kw, up.qual.e;
    BehindState(scan0, LandEnd(cur));
    OnIsContent(md, crossed, scan0, kw);
    var scan1 := Took(scan0, [kw], false);
    TookBehind(scan0, [kw], LandEnd(cur));
    BehindState(scan1, EndOf(kw));
    var scan2 := ExprScanned(md, scan1, e);
    ToksCalm(md, e);
    InsideTakes(md, crossed, scan1, Toks(e), scan2);
    SplitBehind(up, post);
    FindConcat(md, Inside(crossed, scan0), Tks([kw]), Tks(Toks(e)) + (Tks(Behind(up.up)) + post));
    FindConcat(md, Inside(crossed, scan1), Tks(Toks(e)), Tks(Behind(up.up)) + post);
    ScannedBehind(scan1, e, scan2, EndOf(kw));
    var next := Lands(up.id, up.kind, true, e, up.up);
    UpFind(md, crossed, scan2, next, up.up, post);
    OnAdds(Find(md, Inside(crossed, scan0), Tks(Behind(up)) + post), scan0, scan2, cur, up);
  }

  lemma BehindState(scan: Scan, end: int)
    requires StandsBehind(scan, end)
    ensures !scan.operand && scan.cases == 0 && !scan.bad && scan.start >= 0 && scan.end == end
  {
  }

  lemma {:induction false} ScannedBehind(scan: Scan, e: Expr, scan': Scan, end: int)
    requires Toks(e) != [] && Scanned(scan, e, scan') && StandsBehind(scan, end)
    ensures StandsBehind(scan', LastEnd(Toks(e))) && scan'.start == scan.start
  {
    hide Toks, Pour;
  }

  lemma {:induction false} OnAdds(r: Search, scan0: Scan, scan2: Scan, cur: Landing, up: Ctx)
    requires up.InRight? && up.qual.On? && !LeadsPositional(up.qual.e) && Toks(up.qual.e) != []
    requires scan0.start >= 0 && Scanned(Took(scan0, [up.qual.kw], false), up.qual.e, scan2)
    requires RunScanned(r, scan2, Lands(up.id, up.kind, true, up.qual.e, up.up), up.up)
    ensures RunScanned(r, scan0, cur, up)
  {
    hide Toks, LeadsPositional, Loose, Concluded, LandEnd;
    var kw, e := up.qual.kw, up.qual.e;
    TookOne(scan0, kw, false);
    hide Took;
    if !(scan0.hasOR || Loose(e) || UpLoose(up.up)) {
      var (a, b) := Pour(Append(scan0.cur, kw), e);
      var (c, d) := UpPour(b, up.up);
      assert scan0.segs + a + c + [d] == scan0.segs + (a + c) + [d];
    }
  }

  /** A later condition that begins with a name spelled like a keyword. */
  lemma {:induction false} StopFind(md: Mode, crossed: Option<JoinKind>, scan0: Scan, cur: Landing, up: Ctx, post: seq<Elem>)
    requires md.inOn && WfCtx(md, up, true) && After(post) && !cur.Unread? && up.InRight? && up.qual.On? && LeadsPositional(up.qual.e)
    requires StandsBehind(scan0, LandEnd(cur))
    ensures RunScanned(Find(md, Inside(crossed, scan0), Tks(Behind(up)) + post), scan0, cur, up)
  {
    hide Find, Upper, Toks, Wf, KwsOk, Idle, LeadsPositional, Took, StandsBehind, RunScanned, LandingFrom;
    var kw, e := up.qual.kw, up.qual.e;
    BehindState(scan0, LandEnd(cur));
    OnIsContent(md, crossed, scan0, kw);
    var scan1 := Took(scan0, [kw], false);
    TookBehind(scan0, [kw], LandEnd(cur));
    LeadingTok(md, e);
    var t, us := Toks(e)[0], Tks(Toks(e)[1..]) + (Tks(Behind(up.up)) + post);
    SplitBehind(up, post);
    assert Tks(Toks(e)) == [Tk(t)] + Tks(Toks(e)[1..]);
    assert Tks(Toks(e)) + (Tks(Behind(up.up)) + post) == [Tk(t)] + us;
    FindConcat(md, Inside(crossed, scan0), Tks([kw]), [Tk(t)] + us);
    KeywordFind(md, crossed, scan1, t, us, EndOf(kw));
    StopAdds(Find(md, Inside(crossed, scan0), Tks(Behind(up)) + post), scan0, scan1, cur, up);
  }

  lemma {:induction false} LeadingTok(md: Mode, e: Expr)
    requires Wf(md, e) && LeadsPositional(e)
    ensures Toks(e) != [] && Toks(e)[0].kind.Ident? && Word(Toks(e)[0]) == LeadWord(e) && Positional(LeadWord(e))
  {
    hide Upper, Positional;
    match e
    case OrOp(l, _, _) => LeadingTok(md, l);
    case XorOp(l, _, _) => LeadingTok(md, l);
    case AndOp(l, _, _) => LeadingTok(md, l);
    case NotOp(_, _) =>
    case Paren(_, _, _) =>
    case Opaque(ps) =>
      assert WfPart(md, ps.head, true);
      assert PartToks(ps.head) == [ps.head.first] + PathToks(ps.head.path);
  }

  /** Read in operator position: END is a stray END, the others end the scan. */
  lemma {:induction false} KeywordFind(md: Mode, crossed: Option<JoinKind>, scan: Scan, t: Tok, rest: seq<Elem>, end: int)
    requires md.inOn && t.kind.Ident? && Positional(Word(t)) && StandsBehind(scan, end)
    ensures var r := Find(md, Inside(crossed, scan), [Tk(t)] + rest);
      if Word(t) == "END" then r.scan.bad else r.scan == Flushed(scan)
  {
    hide Upper, Flushed;
    assert !IsDot(t);
    var els := [Tk(t)] + rest;
    assert els[0] == Tk(t) && els[1..] == rest;
    if Word(t) == "END" {
      EndBad(md, scan, t);
      hide StepScan;
      FindUnfolds(md, Inside(crossed, scan), els);
      BadStays(md, SearchStep(md, Inside(crossed, scan), Tk(t)), rest);
    } else {
      assert Word(t) in Stops(md);
      TailScan(md, scan, t);
      hide StepScan;
      FindUnfolds(md, Inside(crossed, scan), els);
    }
  }

  lemma EndBad(md: Mode, scan: Scan, t: Tok)
    requires IsKeyword(t, "END") && !scan.operand && scan.cases == 0
    ensures StepScan(md, scan, t, true, false).0.bad
  {
    hide Upper, Append, AfterOperand, LooseOr;
  }

  lemma {:induction false} BadStays(md: Mode, st: Search, els: seq<Elem>)
    requires st.inOn && st.scan.bad
    ensures Find(md, st, els).scan.bad
    decreases |els|
  {
    hide StepScan, Upper;
    if els != [] && !st.done {
      if els[0].Tk? {
        BadStep(md, st.scan, els[0].t, DepthAfter(st.depth, els[0].t) == 0, st.prevDot);
      }
      BadStays(md, SearchStep(md, st, els[0]), els[1..]);
    }
  }

  lemma {:induction false} StopAdds(r: Search, scan0: Scan, scan1: Scan, cur: Landing, up: Ctx)
    requires up.InRight? && up.qual.On? && LeadsPositional(up.qual.e)
    requires scan1 == Took(scan0, [up.qual.kw], false) && StandsBehind(scan1, EndOf(up.qual.kw)) && scan1.start == scan0.start && scan1.hasOR == scan0.hasOR
    requires if LeadWord(up.qual.e) == "END" then r.scan.bad else r.scan == Flushed(scan1)
    ensures RunScanned(r, scan0, cur, up)
  {
    hide LeadsPositional, LeadWord;
    TookOne(scan0, up.qual.kw, false);
    hide Took;
    assert scan0.segs + [] + [scan1.cur] == scan0.segs + [scan1.cur];
  }

  lemma {:induction false} OnIsContent(md: Mode, crossed: Option<JoinKind>, scan: Scan, kw: Tok)
    requires IsKeyword(kw, "ON") && scan.cases == 0
    ensures Find(md, Inside(crossed, scan), Tks([kw])) == Inside(crossed, Took(scan, [kw], false))
  {
    hide Upper, Find, Takes, Took;
    OnWord(md);
    PlainTok(md, scan, kw);
    CalmOne(kw);
    InsideTakes(md, crossed, scan, [kw], Took(scan, [kw], false));
  }

  lemma OnWord(md: Mode)
    ensures "ON" !in ARMS && "ON" !in Stops(md) && !Introducer("ON")
  {
  }

  lemma {:induction false} SplitBehind(up: Ctx, post: seq<Elem>)
    requires up.InRight? && up.qual.On?
    ensures Tks(Behind(up)) + post == Tks([up.qual.kw]) + (Tks(Toks(up.qual.e)) + (Tks(Behind(up.up)) + post))
  {
    hide Toks;
    var kw, ts, rest := up.qual.kw, Toks(up.qual.e), Behind(up.up);
    assert Behind(up) == [kw] + (ts + rest);
    TksConcat([kw], ts + rest);
    TksConcat(ts, rest);
  }

  // ---------------------------------------------------------------- the search

  /** What a search from the hole returns, by what it meets. */
  ghost predicate Agrees(r: Search, f: First) {
    match f
    case Nothing => !r.inOn
    case Second => r.inOn ==> r.second
    case FirstOn(id, kind, right, e, up, crossed) =>
      r.inOn && !r.second && r.crossed == crossed &&
      FirstScanned(Concluded(r.scan), f)
  }

  /** The result of a search whose first ON is `f`. */
  predicate FirstScanned(cs: ClauseScan, f: First)
    requires f.FirstOn?
  {
    var l := LandingOf(f);
    (cs.lexOK <==> !l.Unread?) &&
    (!l.Unread? ==>
      cs.hasOR == RunLoose(f.e, f.up) && Toks(f.e) != [] && cs.start == FirstAt(Toks(f.e)) && cs.end == LandEnd(l) &&
      (!cs.hasOR ==> cs.segs == RunSegments(f.e, f.up)))
  }

  lemma {:induction false} OnMet(md: Mode, crossed: Option<JoinKind>, kw: Tok, e: Expr, up: Ctx, post: seq<Elem>, f: First)
    requires md.inOn && IsKeyword(kw, "ON") && Wf(md, e) && WfCtx(md, up, true) && After(post)
    requires f.FirstOn? && f.e == e && f.up == up && f.crossed == crossed
    ensures Agrees(Find(md, Searching(crossed), Tks([kw]) + (Tks(Toks(e)) + (Tks(Behind(up)) + post))), f)
  {
    hide Find, Upper, Toks, Wf, Behind, FirstScanned, Scanned, RunScanned, LandingFrom, Takes, WfCtx, After, StandsBehind, Tks;
    var more := Tks(Behind(up)) + post;
    OnOpens(md, crossed, kw);
    FindConcat(md, Searching(crossed), Tks([kw]), Tks(Toks(e)) + more);
    var scan := ExprScanned(md, NEW_SCAN, e);
    ToksCalm(md, e);
    InsideTakes(md, crossed, NEW_SCAN, Toks(e), scan);
    FindConcat(md, Inside(crossed, NEW_SCAN), Tks(Toks(e)), more);
    InsideKeeps(md, Inside(crossed, scan), more);
    FirstBehind(e, scan);
    var cur := Lands(f.id, f.kind, f.right, e, up);
    UpFind(md, crossed, scan, cur, up, post);
    FirstAdds(Find(md, Inside(crossed, scan), more), e, scan, f);
  }

  lemma {:induction false} FirstBehind(e: Expr, scan: Scan)
    requires Toks(e) != [] && Scanned(NEW_SCAN, e, scan)
    ensures StandsBehind(scan, LastEnd(Toks(e)))
  {
    hide Toks, Pour;
  }

  lemma {:induction false} FirstAdds(r: Search, e: Expr, scan: Scan, f: First)
    requires f.FirstOn? && f.e == e && Toks(e) != [] && Scanned(NEW_SCAN, e, scan)
    requires RunScanned(r, scan, Lands(f.id, f.kind, f.right, e, f.up), f.up)
    ensures FirstScanned(Concluded(r.scan), f)
  {
    hide Toks, Pour, UpPour, LandingFrom, LandEnd;
    var (a, b) := Pour([], e);
    assert [] + a == a;
  }

  lemma {:induction false} CloseEnds(md: Mode, crossed: Option<JoinKind>, els: seq<Elem>)
    requires After(els) || (els != [] && els[0].Tk? && els[0].t.kind.RParen?)
    ensures !Find(md, Searching(crossed), els).inOn
  {
    hide Upper;
    if els != [] && els[0].Tk? {
      assert SearchStep(md, Searching(crossed), els[0]).done;
    }
  }

  lemma {:induction false} UsingEnds(md: Mode, crossed: Option<JoinKind>, kw: Tok, rest: seq<Elem>)
    requires IsKeyword(kw, "USING")
    ensures !Find(md, Searching(crossed), [Tk(kw)] + rest).inOn
  {
    hide Upper;
    WordStep(md, Searching(crossed), kw);
  }

  /** The search meets what the join tree says it meets. */
  lemma {:induction false} SearchAgrees(md: Mode, c: Ctx, isJoin: bool, crossed: Option<JoinKind>, post: seq<Elem>)
    requires md.inOn && WfCtx(md, c, isJoin) && After(post)
    ensures Agrees(Find(md, Searching(crossed), Tks(Behind(c)) + post), Meet(c, crossed))
    decreases c, 2
  {
    hide Find, Upper, Toks, Wf, Agrees, After, KwsOk, FromToks, Idle;
    match c
    case Top =>
      assert Tks(Behind(c)) + post == post;
      CloseEnds(md, crossed, post);
      NothingAgrees(Find(md, Searching(crossed), post));
    case InParen(_, close, up) =>
      var els := Tks(Behind(c)) + post;
      assert els[0] == Tk(close);
      CloseEnds(md, crossed, els);
      NothingAgrees(Find(md, Searching(crossed), els));
    case InRight(id, l, kind, natural, kws, q, up) =>
      RightAgrees(md, c, isJoin, crossed, post);
    case InLeft(id, kind, natural, kws, r, q, up) =>
      LeftAgrees(md, c, isJoin, crossed, post);
  }

  lemma NothingAgrees(r: Search)
    requires !r.inOn
    ensures Agrees(r, Nothing) && Agrees(r, Second)
  {
  }

  lemma {:induction false} RightAgrees(md: Mode, c: Ctx, isJoin: bool, crossed: Option<JoinKind>, post: seq<Elem>)
    requires md.inOn && WfCtx(md, c, isJoin) && After(post) && c.InRight?
    ensures Agrees(Find(md, Searching(crossed), Tks(Behind(c)) + post), Meet(c, crossed))
    decreases c, 1
  {
    hide Find, Upper, Toks, Wf, Agrees, After, KwsOk, FromToks, Idle;
    if c.qual.NoQual? {
      assert Behind(c) == Behind(c.up);
      SearchAgrees(md, c.up, true, crossed, post);
    } else {
      hide Tks, Nested;
      RightQualified(md, c, crossed, post);
    }
  }

  lemma {:induction false} RightQualified(md: Mode, c: Ctx, crossed: Option<JoinKind>, post: seq<Elem>)
    requires md.inOn && c.InRight? && WfCtx(md, c.up, true) && After(post)
    requires (c.qual.On? && IsKeyword(c.qual.kw, "ON") && Wf(md, c.qual.e)) || (c.qual.Using? && IsKeyword(c.qual.kw, "USING"))
    ensures Agrees(Find(md, Searching(crossed), Tks(Behind(c)) + post), Meet(c, crossed))
  {
    hide Find, IsKeyword, Toks, Wf, Agrees, After, FromToks, WfCtx;
    if c.qual.On? {
      SplitBehind(c, post);
      OnMet(md, crossed, c.qual.kw, c.qual.e, c.up, post, Meet(c, crossed));
    } else {
      UsingAgrees(md, crossed, c.qual, Behind(c.up), post);
    }
  }

  lemma {:induction false} UsingAgrees(md: Mode, crossed: Option<JoinKind>, q: Qual, more: seq<Tok>, post: seq<Elem>)
    requires q.Using? && IsKeyword(q.kw, "USING")
    ensures Agrees(Find(md, Searching(crossed), Tks(QualToks(q) + more) + post), Nothing)
  {
    hide Find, IsKeyword, Agrees;
    var ts := [q.open] + q.names + [q.close] + more;
    assert QualToks(q) + more == [q.kw] + ts;
    TksConcat([q.kw], ts);
    assert Tks([q.kw]) == [Tk(q.kw)];
    var els := Tks(QualToks(q) + more) + post;
    assert els == [Tk(q.kw)] + (Tks(ts) + post);
    UsingEnds(md, crossed, q.kw, Tks(ts) + post);
    NothingAgrees(Find(md, Searching(crossed), els));
  }

  lemma {:induction false} LeftAgrees(md: Mode, c: Ctx, isJoin: bool, crossed: Option<JoinKind>, post: seq<Elem>)
    requires md.inOn && WfCtx(md, c, isJoin) && After(post) && c.InLeft?
    ensures Agrees(Find(md, Searching(crossed), Tks(Behind(c)) + post), Meet(c, crossed))
    decreases c, 1
  {
    hide Find, Upper, Toks, Wf, After, KwsOk, FromToks, Idle, Concluded, FirstScanned;
    var kws, r, q, up := c.kws, c.r, c.qual, c.up;
    var rest := FromToks(r) + QualToks(q) + Behind(up);
    var els := Tks(Behind(c)) + post;
    assert Behind(c) == kws + rest;
    TksConcat(kws, rest);
    assert els == Tks(kws) + (Tks(rest) + post);
    if c.natural {
      NaturalEnds(md, crossed, c.kind, kws, Tks(rest) + post);
    } else if crossed.Some? {
      NextCrossing(md, crossed.value, c.kind, false, kws, Tks(rest) + post);
    } else {
      FirstCrossing(md, c.kind, kws);
      FindConcat(md, Searching(None), Tks(kws), Tks(rest) + post);
      if r.Join? {
        NestedSecond(md, CrossedKind(c.kind), r, QualToks(q) + Behind(up), post);
        assert rest == FromToks(r) + (QualToks(q) + Behind(up));
      } else {
        AfterPrimary(md, c, post);
      }
    }
  }

  /** The right operand is itself a join: its keywords come before any ON. */
  lemma {:induction false} NestedSecond(md: Mode, k: JoinKind, r: From, more: seq<Tok>, post: seq<Elem>)
    requires WfFrom(md, r) && r.Join?
    ensures var s := Find(md, Searching(Some(k)), Tks(FromToks(r) + more) + post); s.inOn ==> s.second
    decreases r
  {
    hide Find, Upper, KwsOk, Idle, Wf;
    var l, kws := r.l, r.kws;
    var rest := FromToks(r.r) + QualToks(r.qual) + more;
    if l.Join? {
      NestedSecond(md, k, l, kws + rest, post);
      assert FromToks(r) + more == FromToks(l) + (kws + rest);
    } else {
      PrimaryIdle(md, l);
      IdleFind(md, Searching(Some(k)), FromToks(l));
      assert FromToks(r) + more == FromToks(l) + (kws + rest);
      TksConcat(FromToks(l), kws + rest);
      TksConcat(kws, rest);
      FindConcat(md, Searching(Some(k)), Tks(FromToks(l)), Tks(kws) + Tks(rest) + post);
      assert Tks(FromToks(l)) + (Tks(kws) + Tks(rest)) + post == Tks(FromToks(l)) + (Tks(kws) + Tks(rest) + post);
      NextCrossing(md, k, r.kind, r.natural, kws, Tks(rest) + post);
      assert Tks(kws) + Tks(rest) + post == Tks(kws) + (Tks(rest) + post);
    }
  }

  /** Past a plain right operand the crossed join's own qualifier comes next. */
  lemma {:induction false} AfterPrimary(md: Mode, c: Ctx, post: seq<Elem>)
    requires md.inOn && c.InLeft? && !c.natural && !c.r.Join? && WfCtx(md, c, true) && After(post)
    ensures
      Agrees(Find(md, Searching(Some(CrossedKind(c.kind))), Tks(FromToks(c.r) + QualToks(c.qual) + Behind(c.up)) + post), Meet(c, None))
    decreases c, 0
  {
    hide Find, IsKeyword, Toks, Wf, After, KwsOk, FromToks, Idle, Agrees, Nested, Tks, Behind, Meet;
    var st := Searching(Some(CrossedKind(c.kind)));
    PassPrimary(md, st, c.r, QualToks(c.qual) + Behind(c.up), post);
    assert FromToks(c.r) + QualToks(c.qual) + Behind(c.up) == FromToks(c.r) + (QualToks(c.qual) + Behind(c.up));
    if c.qual.NoQual? {
      assert QualToks(c.qual) + Behind(c.up) == Behind(c.up);
      SearchAgrees(md, c.up, true, Some(Inner), post);
      CrossMeets(c);
    } else {
      OwnQualifier(md, c, post);
    }
  }

  lemma {:induction false} CrossMeets(c: Ctx)
    requires c.InLeft? && !c.natural && !c.r.Join? && c.qual.NoQual?
    ensures Meet(c, None) == Meet(c.up, Some(Inner))
  {
  }

  lemma {:induction false} PassPrimary(md: Mode, st: Search, r: From, us: seq<Tok>, post: seq<Elem>)
    requires WfFrom(md, r) && !r.Join? && !st.inOn && !st.done && st.depth == 0 && !st.prevDot
    ensures Find(md, st, Tks(FromToks(r) + us) + post) == Find(md, st, Tks(us) + post)
  {
    hide Find, FromToks, Idle, Tks, WfFrom;
    PrimaryIdle(md, r);
    IdleFind(md, st, FromToks(r));
    SkipPrimary(FromToks(r), us, post);
    FindConcat(md, st, Tks(FromToks(r)), Tks(us) + post);
  }

  lemma {:induction false} OwnQualifier(md: Mode, c: Ctx, post: seq<Elem>)
    requires md.inOn && c.InLeft? && !c.natural && !c.kind.Cross? && !c.r.Join? && WfCtx(md, c.up, true) && After(post)
    requires (c.qual.On? && IsKeyword(c.qual.kw, "ON") && Wf(md, c.qual.e)) || (c.qual.Using? && IsKeyword(c.qual.kw, "USING"))
    ensures Agrees(Find(md, Searching(Some(c.kind)), Tks(QualToks(c.qual) + Behind(c.up)) + post), Meet(c, None))
  {
    hide Find, IsKeyword, Toks, Wf, After, FromToks, Agrees, Tks, Behind, WfCtx;
    if c.qual.On? {
      SplitQual(c.qual.kw, c.qual.e, Behind(c.up), post);
      OnMet(md, Some(c.kind), c.qual.kw, c.qual.e, c.up, post, Meet(c, None));
    } else {
      UsingAgrees(md, Some(c.kind), c.qual, Behind(c.up), post);
    }
  }

  lemma SkipPrimary(ts: seq<Tok>, us: seq<Tok>, post: seq<Elem>)
    ensures Tks(ts + us) + post == Tks(ts) + (Tks(us) + post)
  {
    TksConcat(ts, us);
  }

  lemma {:induction false} SplitQual(kw: Tok, e: Expr, us: seq<Tok>, post: seq<Elem>)
    ensures Tks(QualToks(On(kw, e)) + us) + post == Tks([kw]) + (Tks(Toks(e)) + (Tks(us) + post))
  {
    hide Toks;
    assert QualToks(On(kw, e)) + us == [kw] + (Toks(e) + us);
    TksConcat([kw], Toks(e) + us);
    TksConcat(Toks(e), us);
  }
}
