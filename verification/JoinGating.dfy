/**
 Where `joinOn` lands in a join tree, and when scoping the ON it finds scopes the
 relation (internal/policy/splice.go).
 */
module JoinGating {
  import opened Core
  import opened SqlTokens
  import opened ClauseScanning
  import opened SqlGrammar
  import opened ClauseReading
  import opened ClauseTheorems
  import opened JoinScanning
  import opened JoinTrees

  // ---------------------------------------------------------------- spelling

  function FromToks(f: From): seq<Tok> {
    match f
    case Rel(_, toks) => toks
    case Sub(open, g, close) => [open] + FromToks(g) + [close]
    case Join(_, l, _, _, kws, r, q) => FromToks(l) + kws + FromToks(r) + QualToks(q)
  }

  function QualToks(q: Qual): seq<Tok> {
    match q
    case NoQual => []
    case On(kw, e) => [kw] + Toks(e)
    case Using(kw, open, names, close) => [kw] + ([open] + names + [close])
  }

  /** Tokens the search runs over: no keyword of its own at the outer depth. */
  predicate Idle(ts: seq<Tok>, depth: nat, dotted: bool)
    decreases |ts|
  {
    if ts == [] then depth == 0 && !dotted
    else
      var t := ts[0];
      var d := DepthAfter(depth, t);
      !(depth == 0 && (t.kind.RParen? || Cuts(t))) &&
      !(d == 0 && !dotted && t.kind.Ident? && (Word(t) == "ON" || EndsSearch(Word(t)) || Word(t) in JOINS)) &&
      Idle(ts[1..], d, IsDot(t))
  }

  function Words(ts: seq<Tok>): seq<string> { seq(|ts|, i requires 0 <= i < |ts| => Word(ts[i])) }

  /** The keyword forms of a join, NATURAL aside. */
  predicate Form(kind: JoinKind, ws: seq<string>) {
    match kind
    case Inner => ws in [["JOIN"], ["INNER", "JOIN"], ["STRAIGHT_JOIN"]]
    case Left => ws in [["LEFT", "JOIN"], ["LEFT", "OUTER", "JOIN"]]
    case Right => ws in [["RIGHT", "JOIN"], ["RIGHT", "OUTER", "JOIN"]]
    case Full => ws in [["FULL", "JOIN"], ["FULL", "OUTER", "JOIN"]]
    case Cross => ws == ["CROSS", "JOIN"]
  }

  predicate KwsOk(kind: JoinKind, natural: bool, kws: seq<Tok>) {
    (forall t <- kws :: t.kind.Ident?) && kws != [] &&
    if natural then IsKeyword(kws[0], "NATURAL") && !kind.Cross? && Form(kind, Words(kws[1..]))
    else Form(kind, Words(kws))
  }

  /** CROSS and NATURAL joins own no qualifier, and their right operand is a relation or a
      parenthesized join. */
  predicate WfJoin(md: Mode, kind: JoinKind, natural: bool, kws: seq<Tok>, r: From, q: Qual) {
    KwsOk(kind, natural, kws) &&
    if natural || kind.Cross? then q.NoQual? && !r.Join?
    else
      match q
      case NoQual => false
      case On(kw, e) => IsKeyword(kw, "ON") && Wf(md, e)
      case Using(kw, open, names, close) => IsKeyword(kw, "USING") && open.kind.LParen? && Nested(names, 0) && close.kind.RParen?
  }

  predicate WfFrom(md: Mode, f: From) {
    match f
    case Rel(_, toks) => toks != [] && Idle(toks, 0, false)
    case Sub(open, g, close) => open.kind.LParen? && WfFrom(md, g) && close.kind.RParen?
    case Join(_, l, kind, natural, kws, r, q) => WfFrom(md, l) && WfFrom(md, r) && WfJoin(md, kind, natural, kws, r, q)
  }

  // ---------------------------------------------------------------- where the reference is

  /** A join tree with a hole for the reference. */
  datatype Ctx =
    | Top
    | InParen(open: Tok, close: Tok, up: Ctx)
    | InLeft(id: nat, kind: JoinKind, natural: bool, kws: seq<Tok>, r: From, qual: Qual, up: Ctx)
    | InRight(id: nat, l: From, kind: JoinKind, natural: bool, kws: seq<Tok>, qual: Qual, up: Ctx)

  function Plug(c: Ctx, f: From): From
    decreases c
  {
    match c
    case Top => f
    case InParen(open, close, up) => Plug(up, Sub(open, f, close))
    case InLeft(id, kind, natural, kws, r, q, up) => Plug(up, Join(id, f, kind, natural, kws, r, q))
    case InRight(id, l, kind, natural, kws, q, up) => Plug(up, Join(id, l, kind, natural, kws, f, q))
  }

  function Behind(c: Ctx): seq<Tok> {
    match c
    case Top => []
    case InParen(_, close, up) => [close] + Behind(up)
    case InLeft(_, _, _, kws, r, q, up) => kws + FromToks(r) + QualToks(q) + Behind(up)
    case InRight(_, _, _, _, _, q, up) => QualToks(q) + Behind(up)
  }

  function Ahead(c: Ctx): seq<Tok> {
    match c
    case Top => []
    case InParen(open, _, up) => Ahead(up) + [open]
    case InLeft(_, _, _, _, _, _, up) => Ahead(up)
    case InRight(_, l, _, _, kws, _, up) => Ahead(up) + FromToks(l) + kws
  }

  /** The statement's tokens around and at the reference. */
  lemma {:induction false} PlugSpells(c: Ctx, f: From)
    ensures FromToks(Plug(c, f)) == Ahead(c) + FromToks(f) + Behind(c)
    decreases c
  {
    match c
    case Top =>
    case InParen(open, close, up) =>
      PlugSpells(up, Sub(open, f, close));
      Around3(Ahead(up), [open], FromToks(f), [close], Behind(up));
    case InLeft(id, kind, natural, kws, r, q, up) =>
      PlugSpells(up, Join(id, f, kind, natural, kws, r, q));
      After4(Ahead(up), FromToks(f), kws, FromToks(r), QualToks(q), Behind(up));
    case InRight(id, l, kind, natural, kws, q, up) =>
      PlugSpells(up, Join(id, l, kind, natural, kws, f, q));
      Mid4(Ahead(up), FromToks(l), kws, FromToks(f), QualToks(q), Behind(up));
  }

  lemma Around3(a: seq<Tok>, b: seq<Tok>, x: seq<Tok>, c: seq<Tok>, d: seq<Tok>)
    ensures a + (b + x + c) + d == (a + b) + x + (c + d)
  {
  }

  lemma After4(a: seq<Tok>, x: seq<Tok>, b: seq<Tok>, c: seq<Tok>, d: seq<Tok>, e: seq<Tok>)
    ensures a + (x + b + c + d) + e == a + x + (b + c + d + e)
  {
  }

  lemma Mid4(a: seq<Tok>, b: seq<Tok>, c: seq<Tok>, x: seq<Tok>, d: seq<Tok>, e: seq<Tok>)
    ensures a + (b + c + x + d) + e == (a + b + c) + x + (d + e)
  {
  }

  predicate WfCtx(md: Mode, c: Ctx, operandIsJoin: bool) {
    match c
    case Top => true
    case InParen(open, close, up) => open.kind.LParen? && close.kind.RParen? && WfCtx(md, up, false)
    case InLeft(_, kind, natural, kws, r, q, up) => WfFrom(md, r) && WfJoin(md, kind, natural, kws, r, q) && WfCtx(md, up, true)
    case InRight(_, l, kind, natural, kws, q, up) =>
      WfFrom(md, l) && KwsOk(kind, natural, kws) && WfCtx(md, up, true) &&
      if natural || kind.Cross? then q.NoQual? && !operandIsJoin
      else (q.On? && IsKeyword(q.kw, "ON") && Wf(md, q.e)) ||
           (q.Using? && IsKeyword(q.kw, "USING") && q.open.kind.LParen? && Nested(q.names, 0) && q.close.kind.RParen?)
  }

  /** A context around a well-formed item is a well-formed item. */
  lemma {:induction false} PlugWf(md: Mode, c: Ctx, f: From)
    requires WfFrom(md, f) && WfCtx(md, c, f.Join?)
    ensures WfFrom(md, Plug(c, f))
    decreases c
  {
    hide Wf, KwsOk, Idle, Nested, IsKeyword;
    match c
    case Top =>
    case InParen(open, close, up) => PlugWf(md, up, Sub(open, f, close));
    case InLeft(id, kind, natural, kws, r, q, up) => PlugWf(md, up, Join(id, f, kind, natural, kws, r, q));
    case InRight(id, l, kind, natural, kws, q, up) => PlugWf(md, up, Join(id, l, kind, natural, kws, f, q));
  }

  // ---------------------------------------------------------------- which ON comes first

  /** The ON a search from the hole meets first: `right` when the hole is inside the right
      operand of its join; `crossed` is the join keyword met on the way. */
  datatype First = Nothing | Second | FirstOn(id: nat, kind: JoinKind, right: bool, e: Expr, up: Ctx, crossed: Option<JoinKind>)

  function CrossedKind(kind: JoinKind): JoinKind { if kind.Cross? then Inner else kind }

  function Meet(c: Ctx, crossed: Option<JoinKind>): First {
    match c
    case Top => Nothing
    case InParen(_, _, _) => Nothing
    case InRight(id, _, kind, _, _, q, up) =>
      (match q
       case On(_, e) => FirstOn(id, kind, true, e, up, crossed)
       case Using(_, _, _, _) => Nothing
       case NoQual => Meet(up, crossed))
    case InLeft(id, kind, natural, _, r, q, up) =>
      if natural then Nothing
      else if crossed.Some? || r.Join? then Second
      else
        match q
        case On(_, e) => FirstOn(id, kind, false, e, up, Some(kind))
        case Using(_, _, _, _) => Nothing
        case NoQual => Meet(up, Some(Inner))
  }

  /** The word an expression begins with, if it begins with a name. */
  function LeadWord(e: Expr): string {
    match e
    case OrOp(l, _, _) => LeadWord(l)
    case XorOp(l, _, _) => LeadWord(l)
    case AndOp(l, _, _) => LeadWord(l)
    case NotOp(_, _) => ""
    case Paren(_, _, _) => ""
    case Opaque(ps) => if ps.Cons? && ps.head.Name? then Word(ps.head.first) else ""
  }

  /** Where the scan from the first ON comes to its end. Neither a second ON nor a USING
      stops it, so what is appended goes behind the last qualifier of the run: into that
      join's ON (`Lands`), or behind something that is no condition (`Garbled`): the columns
      of a USING, or an ON whose condition begins with a name spelled like a keyword that
      ends the scan. A name END makes it unreadable. */
  datatype Landing = Unread | Garbled(end: nat) | Lands(id: nat, kind: JoinKind, right: bool, e: Expr, up: Ctx)

  function LandingFrom(cur: Landing, up: Ctx): Landing
    decreases up
  {
    if !up.InRight? then cur
    else
      match up.qual
      case NoQual => cur
      case On(kw, e) =>
        if LeadsPositional(e) then if LeadWord(e) == "END" then Unread else Garbled(EndOf(kw))
        else LandingFrom(Lands(up.id, up.kind, true, e, up.up), up.up)
      case Using(_, _, _, close) => LandingFrom(Garbled(EndOf(close)), up.up)
  }

  function LandingOf(f: First): Landing
    requires f.FirstOn?
  {
    LandingFrom(Lands(f.id, f.kind, f.right, f.e, f.up), f.up)
  }

  /** Where the last token before the appended text ends. */
  function LandEnd(l: Landing): int {
    match l
    case Unread => -1
    case Garbled(end) => end
    case Lands(_, _, _, e, _) => if Toks(e) != [] then LastEnd(Toks(e)) else -1
  }

  /** Appending a predicate to the ON it lands in leaves rows of the reference unscoped
      exactly when that join preserves its right operand and the reference is inside it. */
  predicate Leaks(l: Landing)
    requires l.Lands?
  {
    l.right && KeepsRight(l.kind)
  }

  // ---------------------------------------------------------------- rows

  lemma {:induction false} GatesUp(w: World, c: Ctx, f: From, d: nat, p: int -> bool)
    requires d in Rels(f) && AllScoped(w, f, d, p)
    ensures AllScoped(w, Plug(c, f), d, p)
    decreases c
  {
    hide AllScoped;
    match c
    case Top =>
    case InParen(open, close, up) =>
      SubScoped(w, open, f, close, d, p);
      GatesUp(w, up, Sub(open, f, close), d, p);
    case InLeft(id, kind, natural, kws, r, q, up) =>
      JoinKeepsScope(w, Join(id, f, kind, natural, kws, r, q), d, p);
      GatesUp(w, up, Join(id, f, kind, natural, kws, r, q), d, p);
    case InRight(id, l, kind, natural, kws, q, up) =>
      JoinKeepsScope(w, Join(id, l, kind, natural, kws, f, q), d, p);
      GatesUp(w, up, Join(id, l, kind, natural, kws, f, q), d, p);
  }

  lemma SubScoped(w: World, open: Tok, f: From, close: Tok, d: nat, p: int -> bool)
    requires AllScoped(w, f, d, p)
    ensures AllScoped(w, Sub(open, f, close), d, p)
  {
  }

  /** The landing so far is the join `f`, which an appended predicate on `d` can scope as
      far as its left operand is concerned. */
  predicate Seated(cur: Landing, f: From, d: nat) {
    cur.Lands? ==>
      f.Join? && !f.kind.Cross? && cur.id == f.id && cur.kind == f.kind &&
      if cur.right then d in Rels(f.r) else d in Rels(f.l) && !KeepsLeft(f.kind)
  }

  /** The rest of the run, from a join that contains the hole. */
  lemma {:induction false} LandingScopes(w: World, cur: Landing, f: From, up: Ctx, d: nat, p: int -> bool)
    requires Seated(cur, f, d) && d in Rels(f) && Distinct(Plug(up, f)) && WfUp(up)
    requires LandingFrom(cur, up).Lands? && !Leaks(LandingFrom(cur, up))
    ensures AllScoped(Conjoin(w, LandingFrom(cur, up).id, d, p), Plug(up, f), d, p)
    decreases up
  {
    hide AllScoped;
    PlugDistinct(up, f);
    if up.InRight? && !up.qual.NoQual? {
      var g := Join(up.id, up.l, up.kind, up.natural, up.kws, f, up.qual);
      if up.qual.On? {
        LandingScopes(w, Lands(up.id, up.kind, true, up.qual.e, up.up), g, up.up, d, p);
      } else {
        LandingScopes(w, Garbled(EndOf(up.qual.close)), g, up.up, d, p);
      }
    } else {
      OwnJoinScopes(w, f, d, p);
      GatesUp(Conjoin(w, f.id, d, p), up, f, d, p);
    }
  }

  /** Joins with an ON are not CROSS joins. */
  predicate WfUp(c: Ctx) {
    match c
    case Top => true
    case InParen(_, _, up) => WfUp(up)
    case InLeft(_, kind, _, _, _, q, up) => (q.On? ==> !kind.Cross?) && WfUp(up)
    case InRight(_, _, kind, _, _, q, up) => (q.On? ==> !kind.Cross?) && WfUp(up)
  }

  lemma {:induction false} WfCtxUp(md: Mode, c: Ctx, b: bool)
    requires WfCtx(md, c, b)
    ensures WfUp(c)
  {
    match c
    case Top =>
    case InParen(_, _, up) => WfCtxUp(md, up, false);
    case InLeft(_, _, _, _, _, _, up) => WfCtxUp(md, up, true);
    case InRight(_, _, _, _, _, _, up) => WfCtxUp(md, up, true);
  }

  lemma {:induction false} PlugDistinct(c: Ctx, f: From)
    requires Distinct(Plug(c, f))
    ensures Distinct(f)
    decreases c
  {
    match c
    case Top =>
    case InParen(open, close, up) => PlugDistinct(up, Sub(open, f, close));
    case InLeft(id, kind, natural, kws, r, q, up) => PlugDistinct(up, Join(id, f, kind, natural, kws, r, q));
    case InRight(id, l, kind, natural, kws, q, up) => PlugDistinct(up, Join(id, l, kind, natural, kws, f, q));
  }
}
