/**
 What is verified is byte for byte what is composed: the composer over the lowered
 fragment table agrees with the renderer on every shape, and its bind plan names the
 renderer's parameters in the renderer's order.
 */
module Conformance {
  import opened Core
  import opened Masks
  import opened Pieces
  import opened FilterTree
  import opened ShapeKeys
  import opened Composing
  import opened Lexing
  import opened Templates
  import opened Rendering
  import opened Lowering

  // ---------------------------------------------------------------- names and binds

  /** Parameters of the predicates, in the order of the maximal tree's arguments. */
  function PredNames(preds: seq<Predicate>): seq<string> {
    if preds == [] then [] else preds[0].params + PredNames(preds[1..])
  }

  function TreeNames(items: seq<Item>): seq<string> {
    if items == [] then []
    else (if items[0].TreeItem? then PredNames(items[0].preds) else []) + TreeNames(items[1..])
  }

  predicate Distinct(s: seq<string>) { forall i, j :: 0 <= i < j < |s| ==> s[i] != s[j] }

  /** The names one template binds: the struct parameters and the tree parameters. */
  datatype Vocabulary = Vocabulary(style: Style, order: seq<string>, tree: seq<string>)

  /** Bind-plan entry `b` stands for the parameter the renderer calls `name`. */
  predicate Stands(v: Vocabulary, name: string, b: Bind) {
    (if b.fromTree then 0 <= b.idx < |v.tree| && v.tree[b.idx] == name
     else name in IndexMap(v.order) && b.idx == IndexMap(v.order)[name]) &&
    (v.style.Dollar? ==> b.elem == 0 && (b.fromTree <==> name in v.tree))
  }

  function Same(v: Vocabulary): (string, Bind) -> bool { (name, b) => Stands(v, name, b) }

  lemma {:induction false} IndexMapSound(names: seq<string>, name: string)
    requires |names| <= MAX_TREE_ARGS
    ensures name in IndexMap(names) <==> name in names
    ensures name in IndexMap(names) ==> 0 <= IndexMap(names)[name] < |names| && names[IndexMap(names)[name]] == name
  {
    if names != [] {
      var front := names[..|names| - 1];
      IndexMapSound(front, name);
      assert names == front + [names[|names| - 1]];
    }
  }

  /** Under dollar style no source is split or merged, provided no tree parameter is
      shared between predicates. */
  lemma OneSourcePerName(v: Vocabulary)
    requires v.style.Dollar? && Distinct(v.tree) && |v.order| <= MAX_TREE_ARGS
    ensures OneToOne(Same(v))
  {
    forall s, s', t, t' | Same(v)(s, t) && Same(v)(s', t') ensures s == s' <==> t == t' {
      IndexMapSound(v.order, s);
      IndexMapSound(v.order, s');
    }
  }

  // ---------------------------------------------------------------- aligned pieces

  ghost predicate Matches(v: Vocabulary, r: Result<seq<Located>, RenderError>, qs: seq<Piece<Bind>>) {
    r.Ok? ==> Aligned(PiecesOf(r.value), qs, Same(v))
  }

  lemma MatchesThen(v: Vocabulary, a: Result<seq<Located>, RenderError>, b: Result<seq<Located>, RenderError>,
                    qs: seq<Piece<Bind>>, rs: seq<Piece<Bind>>)
    requires Matches(v, a, qs) && Matches(v, b, rs)
    ensures Matches(v, Then(a, b), qs + rs)
  {
    if a.Ok? && b.Ok? {
      assert PiecesOf(a.value + b.value) == PiecesOf(a.value) + PiecesOf(b.value);
      AlignedConcat(PiecesOf(a.value), PiecesOf(b.value), qs, rs, Same(v));
    }
  }

  lemma MatchesText(v: Vocabulary, text: string, off: nat)
    ensures Matches(v, Ok(Synth(text, off)), [Lit(text)])
    ensures Matches(v, Ok([]), [])
  {
  }

  /** How the names of one text bind: `index` gives the position, `base` and `fromTree`
      the argument space. */
  datatype Binding = Binding(index: map<string, int>, fromTree: bool, base: nat)

  ghost predicate BindingOk(v: Vocabulary, bd: Binding, names: seq<string>) {
    (forall n <- bd.index :: 0 <= bd.index[n] < MAX_TREE_ARGS) &&
    forall n <- names :: n in bd.index && Stands(v, n, Bind(bd.fromTree, bd.base + bd.index[n], 0))
  }

  /** A body as the renderer reads it and as the lowered table splits it. */
  lemma {:induction false} TextMatches(v: Vocabulary, next: Lexer, b: Body, synth: bool, bd: Binding, pos: nat, run: nat, c: Case, k: nat)
    requires WellBehaved(next) && run <= pos <= |b.text|
    requires c.text == b.text && |c.spans| == |c.idx| && k <= |c.spans|
    requires (c.spans[k..], c.idx[k..]) == SpansFrom(next, b.text, bd.index, pos)
    requires SpansOk(c, k, run)
    requires Names(next, b.text, pos).Some? ==> BindingOk(v, bd, Names(next, b.text, pos).value)
    ensures Matches(v, TextFrom(next, b, synth, pos, run), PiecesFrom(c, bd.fromTree, bd.base, k, run))
    decreases |b.text| - pos
  {
    hide Matches, Stands, IndexMap;
    assert StepOk(b.text, pos, next(b.text, pos));
    var t := next(b.text, pos);
    if t.Eof? {
      EndMatches(v, next, b, synth, bd, pos, run, c, k);
    } else if t.Token? && !t.kind.ParamRef? {
      TextMatches(v, next, b, synth, bd, t.end, run, c, k);
    } else if t.Token? && Names(next, b.text, pos).Some? {
      var name := b.text[t.start + 1..t.end];
      assert Names(next, b.text, pos).value[0] == name && Names(next, b.text, pos).value[1..] == Names(next, b.text, t.end).value;
      assert name in Names(next, b.text, pos).value;
      assert c.spans[k..][0] == c.spans[k] && c.spans[k..][1..] == c.spans[k + 1..];
      assert c.idx[k..][0] == c.idx[k] && c.idx[k..][1..] == c.idx[k + 1..];
      TextMatches(v, next, b, synth, bd, t.end, t.end, c, k + 1);
      ParamMatches(v, next, b, synth, bd, pos, run, c, k);
    } else {
      NamesOrFail(next, b, synth, pos, run);
      FailedMatches(v, TextFrom(next, b, synth, pos, run), PiecesFrom(c, bd.fromTree, bd.base, k, run));
    }
  }

  lemma FailedMatches(v: Vocabulary, r: Result<seq<Located>, RenderError>, qs: seq<Piece<Bind>>)
    requires r.Err?
    ensures Matches(v, r, qs)
  {
  }

  /** One parameter token: the run before it, its placeholder, and the rest. */
  lemma {:induction false} ParamMatches(v: Vocabulary, next: Lexer, b: Body, synth: bool, bd: Binding, pos: nat, run: nat, c: Case, k: nat)
    requires WellBehaved(next) && run <= pos <= |b.text|
    requires c.text == b.text && |c.spans| == |c.idx| && k < |c.spans| && SpansOk(c, k, run)
    requires next(b.text, pos).Token? && next(b.text, pos).kind.ParamRef? && StepOk(b.text, pos, next(b.text, pos))
    requires c.spans[k] == Span(next(b.text, pos).start, next(b.text, pos).end)
    requires
      var t := next(b.text, pos);
      Stands(v, b.text[t.start + 1..t.end], Bind(bd.fromTree, bd.base + c.idx[k], 0)) &&
      Matches(v, TextFrom(next, b, synth, t.end, t.end), PiecesFrom(c, bd.fromTree, bd.base, k + 1, t.end))
    ensures Matches(v, TextFrom(next, b, synth, pos, run), PiecesFrom(c, bd.fromTree, bd.base, k, run))
  {
    hide Stands;
    var t := next(b.text, pos);
    var name, bind := b.text[t.start + 1..t.end], Bind(bd.fromTree, bd.base + c.idx[k], 0);
    var head := [Run_(b, synth, run, t.start), Located(Ph(name), if synth then b.off else b.off + t.start, true)];
    PairMatches(v, head, b.text[run..t.start], name, bind);
    MatchesThen(v, Ok(head), TextFrom(next, b, synth, t.end, t.end),
                [Lit(b.text[run..t.start]), Ph(bind)], PiecesFrom(c, bd.fromTree, bd.base, k + 1, t.end));
  }

  lemma PairMatches(v: Vocabulary, head: seq<Located>, text: string, name: string, b: Bind)
    requires |head| == 2 && head[0].piece == Lit(text) && head[1].piece == Ph(name) && Stands(v, name, b)
    ensures Matches(v, Ok(head), [Lit(text), Ph(b)])
  {
    hide Stands;
  }

  lemma {:induction false} EndMatches(v: Vocabulary, next: Lexer, b: Body, synth: bool, bd: Binding, pos: nat, run: nat, c: Case, k: nat)
    requires WellBehaved(next) && run <= pos == |b.text| && next(b.text, pos).Eof?
    requires c.text == b.text && |c.spans| == |c.idx| && k <= |c.spans|
    requires (c.spans[k..], c.idx[k..]) == SpansFrom(next, b.text, bd.index, pos)
    requires SpansOk(c, k, run)
    ensures Matches(v, TextFrom(next, b, synth, pos, run), PiecesFrom(c, bd.fromTree, bd.base, k, run))
  {
    assert k == |c.spans|;
    assert b.text[run..|b.text|] == c.text[run..];
  }

  /** The renderer and the name list fail on the same texts. */
  lemma {:induction false} NamesOrFail(next: Lexer, b: Body, synth: bool, pos: nat, run: nat)
    requires WellBehaved(next) && run <= pos <= |b.text|
    ensures TextFrom(next, b, synth, pos, run).Ok? <==> Names(next, b.text, pos).Some?
    decreases |b.text| - pos
  {
    assert StepOk(b.text, pos, next(b.text, pos));
    var t := next(b.text, pos);
    if t.Token? {
      NamesOrFail(next, b, synth, t.end, if t.kind.ParamRef? then t.end else run);
    }
  }

  /** Lowered spans are in order and in range. */
  lemma {:induction false} LoweredSpans(next: Lexer, text: string, index: map<string, int>, pos: nat, last: nat, c: Case, k: nat)
    requires WellBehaved(next) && last <= pos <= |text|
    requires c.text == text && |c.spans| == |c.idx| && k <= |c.spans|
    requires (c.spans[k..], c.idx[k..]) == SpansFrom(next, text, index, pos)
    requires forall n <- index :: 0 <= index[n] < MAX_TREE_ARGS
    ensures SpansOk(c, k, last) && forall i <- c.idx[k..] :: 0 <= i < MAX_TREE_ARGS
    decreases |text| - pos
  {
    assert StepOk(text, pos, next(text, pos));
    var t := next(text, pos);
    if t.Token? {
      var name := text[t.start + 1..t.end];
      if t.kind.ParamRef? && name in index {
        assert c.spans[k..][0] == c.spans[k] && c.spans[k..][1..] == c.spans[k + 1..];
        assert c.idx[k..][0] == c.idx[k] && c.idx[k..][1..] == c.idx[k + 1..];
        LoweredSpans(next, text, index, t.end, t.end, c, k + 1);
      } else {
        LoweredSpans(next, text, index, t.end, last, c, k);
      }
    }
  }

  lemma LoweredCaseOk(next: Lexer, text: string, index: map<string, int>)
    requires WellBehaved(next) && forall n <- index :: 0 <= index[n] < MAX_TREE_ARGS
    ensures CaseOk(LowerText(next, text, index))
  {
    var c := LowerText(next, text, index);
    assert c.spans[0..] == c.spans && c.idx[0..] == c.idx;
    LoweredSpans(next, text, index, 0, 0, c, 0);
  }

  lemma BodyMatches(v: Vocabulary, next: Lexer, b: Body, synth: bool, bd: Binding)
    requires WellBehaved(next) && forall n <- bd.index :: 0 <= bd.index[n] < MAX_TREE_ARGS
    requires Names(next, b.text, 0).Some? ==> BindingOk(v, bd, Names(next, b.text, 0).value)
    ensures CaseOk(LowerText(next, b.text, bd.index))
    ensures Matches(v, BodyPieces(next, b, synth), CasePieces(LowerText(next, b.text, bd.index), bd.fromTree, bd.base))
  {
    var c := LowerText(next, b.text, bd.index);
    LoweredCaseOk(next, b.text, bd.index);
    assert c.spans[0..] == c.spans && c.idx[0..] == c.idx;
    TextMatches(v, next, b, synth, bd, 0, 0, c, 0);
  }

  // ---------------------------------------------------------------- side conditions

  /** The names of a body rendered outside predicates: struct parameters, and under
      dollar style no tree parameter (SQLETCH112). */
  ghost predicate BodyKnown(v: Vocabulary, next: Lexer, b: Body)
    requires WellBehaved(next)
  {
    Names(next, b.text, 0).Some? ==> forall n <- Names(next, b.text, 0).value :: NameKnown(v, n)
  }

  predicate NameKnown(v: Vocabulary, n: string) { n in IndexMap(v.order) && (v.style.Dollar? ==> n !in v.tree) }

  ghost predicate PredKnown(next: Lexer, pr: Predicate)
    requires WellBehaved(next)
  {
    |pr.params| <= MAX_TREE_ARGS &&
    (Names(next, pr.body.text, 0).Some? ==> forall n <- Names(next, pr.body.text, 0).value :: n in pr.params)
  }

  ghost predicate ItemKnown(v: Vocabulary, next: Lexer, atoms: seq<Atom>, it: Item)
    requires WellBehaved(next)
  {
    match it
    case Skeleton(body, _) => BodyKnown(v, next, body)
    case IfPresent(guards, _, body, _) => BodyKnown(v, next, body) && forall g <- guards :: BitOf(atoms, g).Some?
    case ChooseItem(cases, deflt, _) => (forall b <- cases :: BodyKnown(v, next, b)) && (deflt.Some? ==> BodyKnown(v, next, deflt.value))
    case OrderItem(keys, deflt, _) => (forall b <- keys :: BodyKnown(v, next, b)) && (deflt.Some? ==> BodyKnown(v, next, deflt.value))
    case InExpr(param, _) => NameKnown(v, param)
    case TreeItem(preds, _) => v.tree == PredNames(preds) && forall pr <- preds :: PredKnown(next, pr)
  }

  function VocabularyOf(p: Profile, q: Template): Vocabulary { Vocabulary(p.style, q.paramOrder, TreeNames(q.items)) }

  /** What the scanner and the lexical rules guarantee of a template. */
  ghost predicate TemplateOk(p: Profile, q: Template)
    requires WellBehaved(p.next)
  {
    |q.paramOrder| <= MAX_TREE_ARGS && |q.atoms| <= 64 &&
    (p.style.Dollar? ==> Distinct(TreeNames(q.items))) &&
    (p.style.Question? ==> p.inEmpty != "") &&
    (forall i, j :: 0 <= i < j < |q.items| ==> !(q.items[i].TreeItem? && q.items[j].TreeItem?)) &&
    forall it <- q.items :: ItemKnown(VocabularyOf(p, q), p.next, q.atoms, it)
  }

  /** `And` over one leaf per predicate, in order, each with its parameters' count. */
  predicate IsMaximal<V>(t: Tree<V>, preds: seq<Predicate>) {
    t.Some? && t.value.And? && AreLeaves(t.value.kids, preds, 0)
  }

  predicate AreLeaves<V>(ks: seq<Node<V>>, preds: seq<Predicate>, j: nat)
    requires j <= |preds|
  {
    |ks| == |preds| - j &&
    forall i :: 0 <= i < |ks| ==> ks[i].Leaf? && ks[i].pred == j + i && |ks[i].args| == |preds[j + i].params|
  }

  predicate GuardsSelected(q: Template, a: Active, key: ShapeKey) {
    match a
    case Mask(bits) => GuardWord(key) == bits
    case Everything => AllBits(GuardWord(key), |q.atoms|)
  }

  /** Key and tree select the shape the renderer was asked for. */
  ghost predicate Selects<V>(p: Profile, q: Template, sh: Shape, key: ShapeKey, tree: Tree<V>, caps: Caps)
    requires WellBehaved(p.next)
  {
    GuardsSelected(q, sh.active, key) &&
    (forall n: Counts :: OrdinalAt(sh, n) == Ordinal(key, Seen(n.choose, n.order, n.lists))) &&
    (forall n: Counts :: OrderAt(sh, n) == Selected(key, Seen(n.choose, n.order, n.lists))) &&
    (p.style.Question? ==> forall n: Counts :: ListArity(key, Seen(n.choose, n.order, n.lists)) == (if ListEmpty(sh, n) then 0 else 1)) &&
    forall i :: 0 <= i < |q.items| ==> ItemSelects(p, sh, q.items[i], tree, caps)
  }

  /** Ordinals stop at the default body; a filter tree is empty or maximal. */
  ghost predicate ItemSelects<V>(p: Profile, sh: Shape, it: Item, tree: Tree<V>, caps: Caps)
    requires WellBehaved(p.next)
  {
    match it
    case ChooseItem(cases, deflt, _) => deflt.Some? ==> forall n: Counts :: OrdinalAt(sh, n) <= |cases|
    case TreeItem(preds, _) =>
      if sh.trees != [] && sh.trees[0] == 0 then tree.None? || (tree.value.True? && Validate(tree, LowerPreds(p.next, preds), caps).None?)
      else IsMaximal(tree, preds) && Validate(tree, LowerPreds(p.next, preds), caps).None?
    case _ => true
  }

  // ---------------------------------------------------------------- lists of bodies

  lemma {:induction false} IndexBounds(names: seq<string>)
    requires |names| <= MAX_TREE_ARGS
    ensures forall n <- IndexMap(names) :: 0 <= IndexMap(names)[n] < MAX_TREE_ARGS
  {
    forall n | n in IndexMap(names) ensures 0 <= IndexMap(names)[n] < MAX_TREE_ARGS {
      IndexMapSound(names, n);
    }
  }

  lemma PlainMatches(v: Vocabulary, next: Lexer, b: Body, synth: bool)
    requires WellBehaved(next) && |v.order| <= MAX_TREE_ARGS && BodyKnown(v, next, b)
    ensures CaseOk(LowerText(next, b.text, IndexMap(v.order)))
    ensures Matches(v, BodyPieces(next, b, synth), Plain(LowerText(next, b.text, IndexMap(v.order))))
  {
    IndexBounds(v.order);
    BodyMatches(v, next, b, synth, Binding(IndexMap(v.order), false, 0));
  }

  lemma CasesOk(v: Vocabulary, next: Lexer, bodies: seq<Body>)
    requires WellBehaved(next) && |v.order| <= MAX_TREE_ARGS
    ensures forall c <- LowerBodies(next, bodies, IndexMap(v.order)) :: CaseOk(c)
  {
    IndexBounds(v.order);
    forall b ensures CaseOk(LowerText(next, b, IndexMap(v.order))) {
      LoweredCaseOk(next, b, IndexMap(v.order));
    }
  }

  lemma {:induction false} KeysMatch(v: Vocabulary, next: Lexer, keys: seq<Body>, off: nat, first: bool)
    requires WellBehaved(next) && |v.order| <= MAX_TREE_ARGS && forall b <- keys :: BodyKnown(v, next, b)
    ensures forall c <- LowerBodies(next, keys, IndexMap(v.order)) :: CaseOk(c)
    ensures Matches(v, KeyList(next, keys, off, first), AllKeys(LowerBodies(next, keys, IndexMap(v.order)), first))
    decreases |keys|
  {
    hide Matches, BodyKnown, BodyPieces, CasePieces, LowerText, IndexMap;
    CasesOk(v, next, keys);
    MatchesText(v, ", ", off);
    if keys != [] {
      CasesOk(v, next, keys[1..]);
      PlainMatches(v, next, keys[0], false);
      KeysMatch(v, next, keys[1..], off, false);
      var cs := LowerBodies(next, keys, IndexMap(v.order));
      assert cs[1..] == LowerBodies(next, keys[1..], IndexMap(v.order));
      var sep: seq<Piece<Bind>> := if first then [] else [Lit(", ")];
      MatchesThen(v, Ok(if first then [] else Synth(", ", off)), BodyPieces(next, keys[0], false), sep, Plain(cs[0]));
      MatchesThen(v, Then(Ok(if first then [] else Synth(", ", off)), BodyPieces(next, keys[0], false)), KeyList(next, keys[1..], off, false),
                  sep + Plain(cs[0]), AllKeys(cs[1..], false));
    }
  }

  lemma {:induction false} PickedMatch(v: Vocabulary, next: Lexer, keys: seq<Body>, picked: seq<nat>, off: nat, first: bool)
    requires WellBehaved(next) && |v.order| <= MAX_TREE_ARGS && forall b <- keys :: BodyKnown(v, next, b)
    ensures forall c <- LowerBodies(next, keys, IndexMap(v.order)) :: CaseOk(c)
    ensures
      var r, c := PickedList(next, keys, picked, off, first), PickedKeys(LowerBodies(next, keys, IndexMap(v.order)), picked, first);
      r.Ok? ==> c.Ok? && Matches(v, r, c.value)
    decreases |picked|
  {
    hide Matches, BodyKnown, BodyPieces, CasePieces, LowerText, IndexMap;
    CasesOk(v, next, keys);
    MatchesText(v, ", ", off);
    MatchesText(v, " DESC", off);
    if picked != [] && picked[0] / 2 < |keys| {
      var b := keys[picked[0] / 2];
      PlainMatches(v, next, b, false);
      PickedMatch(v, next, keys, picked[1..], off, false);
      var cs := LowerBodies(next, keys, IndexMap(v.order));
      var sep: seq<Piece<Bind>>, desc: seq<Piece<Bind>> := if first then [] else [Lit(", ")], if picked[0] % 2 == 1 then [Lit(" DESC")] else [];
      var rsep, rdesc := Ok(if first then [] else Synth(", ", off)), Ok(if picked[0] % 2 == 1 then Synth(" DESC", off) else []);
      var c := Plain(cs[picked[0] / 2]);
      MatchesThen(v, rsep, BodyPieces(next, b, false), sep, c);
      MatchesThen(v, Then(rsep, BodyPieces(next, b, false)), rdesc, sep + c, desc);
      var rest := PickedList(next, keys, picked[1..], off, false);
      if rest.Ok? {
        MatchesThen(v, Then(Then(rsep, BodyPieces(next, b, false)), rdesc), rest, sep + c + desc, PickedKeys(cs, picked[1..], false).value);
      }
    }
  }

  // ---------------------------------------------------------------- the maximal tree

  lemma PredCaseMatches(v: Vocabulary, next: Lexer, pr: Predicate, base: nat)
    requires WellBehaved(next) && PredKnown(next, pr)
    requires base + |pr.params| <= |v.tree| && v.tree[base..base + |pr.params|] == pr.params
    ensures CaseOk(LowerText(next, pr.body.text, IndexMap(pr.params)))
    ensures Matches(v, BodyPieces(next, pr.body, false), CasePieces(LowerText(next, pr.body.text, IndexMap(pr.params)), true, base))
  {
    IndexBounds(pr.params);
    var bd := Binding(IndexMap(pr.params), true, base);
    if Names(next, pr.body.text, 0).Some? {
      forall n | n in Names(next, pr.body.text, 0).value
        ensures n in bd.index && Stands(v, n, Bind(true, base + bd.index[n], 0))
      {
        IndexMapSound(pr.params, n);
        assert v.tree[base + bd.index[n]] == v.tree[base..base + |pr.params|][bd.index[n]];
      }
    }
    BodyMatches(v, next, pr.body, false, bd);
  }

  lemma PredCasesOk(next: Lexer, preds: seq<Predicate>)
    requires WellBehaved(next) && forall pr <- preds :: PredKnown(next, pr)
    ensures forall c <- LowerPreds(next, preds) :: CaseOk(c)
  {
    forall i | 0 <= i < |preds| ensures CaseOk(LowerPreds(next, preds)[i]) {
      assert preds[i] in preds;
      IndexBounds(preds[i].params);
      LoweredCaseOk(next, preds[i].body.text, IndexMap(preds[i].params));
    }
  }

  lemma NextSlice(v: Vocabulary, preds: seq<Predicate>, j: nat, base: nat)
    requires j < |preds| && base <= |v.tree| && v.tree[base..] == PredNames(preds[j..])
    ensures base + |preds[j].params| <= |v.tree| && v.tree[base..base + |preds[j].params|] == preds[j].params
    ensures v.tree[base + |preds[j].params|..] == PredNames(preds[j + 1..])
  {
    assert preds[j..][1..] == preds[j + 1..];
    assert PredNames(preds[j..]) == preds[j].params + PredNames(preds[j + 1..]);
    var n := |preds[j].params|;
    assert v.tree[base..base + n] == v.tree[base..][..n] && v.tree[base + n..] == v.tree[base..][n..];
  }

  lemma {:induction false} PredsMatch<V>(v: Vocabulary, next: Lexer, preds: seq<Predicate>, ks: seq<Node<V>>, j: nat, base: nat, off: nat, first: bool)
    requires WellBehaved(next) && forall pr <- preds :: PredKnown(next, pr)
    requires j <= |preds| && AreLeaves(ks, preds, j)
    requires base <= |v.tree| && v.tree[base..] == PredNames(preds[j..])
    requires ValidateKids(ks, LowerPreds(next, preds)).None?
    ensures forall c <- LowerPreds(next, preds) :: CaseOk(c)
    ensures Matches(v, PredList(next, preds[j..], off, first), KidPieces(ks, LowerPreds(next, preds), base, " AND ", first))
    decreases |ks|
  {
    hide Matches, PredKnown, BodyPieces, CasePieces, LowerText, PredNames, IndexMap;
    PredCasesOk(next, preds);
    MatchesText(v, " AND ", off);
    MatchesText(v, "(", off);
    MatchesText(v, ")", off);
    if ks != [] {
      var cs, pr := LowerPreds(next, preds), preds[j];
      assert preds[j..][0] == pr && preds[j..][1..] == preds[j + 1..];
      NextSlice(v, preds, j, base);
      PredCaseMatches(v, next, pr, base);
      PredsMatch(v, next, preds, ks[1..], j + 1, base + |pr.params|, off, false);
      OnePred(v, off, first, BodyPieces(next, pr.body, false), CasePieces(cs[j], true, base));
      var sep: seq<Piece<Bind>> := if first then [] else [Lit(" AND ")];
      var one := Then(Ok((if first then [] else Synth(" AND ", off)) + Synth("(", off)), Then(BodyPieces(next, pr.body, false), Ok(Synth(")", off))));
      MatchesThen(v, one, PredList(next, preds[j + 1..], off, false),
                  sep + TreePieces(ks[0], cs, base), KidPieces(ks[1..], cs, base + |pr.params|, " AND ", false));
    }
  }

  lemma OnePred(v: Vocabulary, off: nat, first: bool, body: Result<seq<Located>, RenderError>, c: seq<Piece<Bind>>)
    requires Matches(v, body, c)
    ensures
      var one := Then(Ok((if first then [] else Synth(" AND ", off)) + Synth("(", off)), Then(body, Ok(Synth(")", off))));
      Matches(v, one, (if first then [] else [Lit(" AND ")]) + ([Lit("(")] + c + [Lit(")")]))
  {
    hide Matches;
    MatchesText(v, " AND ", off);
    MatchesText(v, "(", off);
    MatchesText(v, ")", off);
    var sep: seq<Piece<Bind>> := if first then [] else [Lit(" AND ")];
    var rsep: Result<seq<Located>, RenderError> := Ok(if first then [] else Synth(" AND ", off));
    MatchesThen(v, rsep, Ok(Synth("(", off)), sep, [Lit("(")]);
    MatchesThen(v, body, Ok(Synth(")", off)), c, [Lit(")")]);
    MatchesThen(v, Then(rsep, Ok(Synth("(", off))), Then(body, Ok(Synth(")", off))), sep + [Lit("(")], c + [Lit(")")]);
    assert sep + [Lit("(")] + (c + [Lit(")")]) == sep + ([Lit("(")] + c + [Lit(")")]);
  }

  // ---------------------------------------------------------------- guards

  lemma {:induction false} BitInRange(atoms: seq<Atom>, g: Atom)
    ensures BitOf(atoms, g).Some? ==> BitOf(atoms, g).value < |atoms|
  {
    if atoms != [] && BitOf(atoms, g).Some? && atoms[|atoms| - 1] != g {
      BitInRange(atoms[..|atoms| - 1], g);
    }
  }

  /** Testing the whole mask is testing every atom of the guard set. */
  lemma {:induction false} MaskTestsAll(atoms: seq<Atom>, guards: seq<Atom>, g: bv64)
    requires |atoms| <= 64 && forall a <- guards :: BitOf(atoms, a).Some?
    ensures Covers(g, GuardMask(atoms, guards)) <==> forall a <- guards :: AtomOn(atoms, g, a)
  {
    hide Covers, WithBit, HasBit;
    if guards == [] {
      CoversNothing(g);
    } else {
      var front, last := guards[..|guards| - 1], guards[|guards| - 1];
      assert guards == front + [last];
      MaskTestsAll(atoms, front, g);
      BitInRange(atoms, last);
      CoversWithBit(g, GuardMask(atoms, front), BitOf(atoms, last).value);
    }
  }

  lemma {:induction false} GuardsAgree(p: Profile, q: Template, a: Active, key: ShapeKey, guards: seq<Atom>)
    requires |q.atoms| <= 64 && forall g <- guards :: BitOf(q.atoms, g).Some?
    requires GuardsSelected(q, a, key)
    ensures GuardsOn(q.atoms, a, guards) <==> Composing.Active(key, GuardMask(q.atoms, guards))
  {
    hide GuardMask, HasBit, Covers, AllBits, GuardWord;
    if a.Everything? {
      AllBitsCover(q.atoms, guards, GuardWord(key));
    }
    MaskTestsAll(q.atoms, guards, GuardWord(key));
  }

  lemma {:induction false} AllBitsCover(atoms: seq<Atom>, guards: seq<Atom>, bits: bv64)
    requires AllBits(bits, |atoms|) && forall g <- guards :: BitOf(atoms, g).Some?
    ensures forall g <- guards :: AtomOn(atoms, bits, g)
  {
    hide HasBit;
    forall g | g in guards ensures AtomOn(atoms, bits, g) {
      BitInRange(atoms, g);
    }
  }

  // ---------------------------------------------------------------- item by item

  lemma MatchesTwo(v: Vocabulary, a: string, b: string, off: nat)
    ensures Matches(v, Ok(Synth(a, off) + Synth(b, off)), [Lit(a), Lit(b)])
  {
  }

  lemma GuardedMatches(v: Vocabulary, next: Lexer, sep: Sep, body: Body, off: nat)
    requires WellBehaved(next) && |v.order| <= MAX_TREE_ARGS && BodyKnown(v, next, body)
    ensures CaseOk(LowerText(next, body.text, IndexMap(v.order)))
    ensures Matches(v, GuardedItem(next, sep, body, off), GuardedPieces(LowerText(next, body.text, IndexMap(v.order)), sep, true))
  {
    hide Matches, BodyPieces, CasePieces, LowerText, BodyKnown, IndexMap;
    PlainMatches(v, next, body, false);
    MatchesText(v, "\n", off);
    MatchesText(v, "AND (", off);
    MatchesText(v, ", ", off);
    MatchesText(v, ")", off);
    var c := Plain(LowerText(next, body.text, IndexMap(v.order)));
    var open := match sep case SepNone => [] case SepAnd => Synth("AND (", off) case SepComma => Synth(", ", off);
    var close: Result<seq<Located>, RenderError> := Ok(if sep.SepAnd? then Synth(")", off) else []);
    MatchesThen(v, Ok(Synth("\n", off)), Ok(open), [Lit("\n")], GuardOpen(sep));
    MatchesThen(v, Ok(Synth("\n", off) + open), BodyPieces(next, body, false), [Lit("\n")] + GuardOpen(sep), c);
    MatchesThen(v, Then(Ok(Synth("\n", off) + open), BodyPieces(next, body, false)), close,
                [Lit("\n")] + GuardOpen(sep) + c, if sep.SepAnd? then [Lit(")")] else []);
  }

  lemma ChosenMatches(v: Vocabulary, next: Lexer, cases: seq<Body>, deflt: Option<Body>, off: nat, ord: nat)
    requires WellBehaved(next) && |v.order| <= MAX_TREE_ARGS
    requires (forall b <- cases :: BodyKnown(v, next, b)) && (deflt.Some? ==> BodyKnown(v, next, deflt.value) && ord <= |cases|)
    ensures
      var cs := LowerBodies(next, cases + (if deflt.Some? then [deflt.value] else []), IndexMap(v.order));
      (forall c <- cs :: CaseOk(c)) &&
      Matches(v, ChosenItem(next, CaseBody(cases, deflt, ord), off), [Lit("\n")] + (if ord < |cs| then Plain(cs[ord]) else []))
  {
    hide Matches, BodyPieces, CasePieces, LowerText, BodyKnown, IndexMap;
    var all := cases + (if deflt.Some? then [deflt.value] else []);
    CasesOk(v, next, all);
    MatchesText(v, "\n", off);
    if ord < |all| {
      PlainMatches(v, next, all[ord], false);
      MatchesThen(v, Ok(Synth("\n", off)), BodyPieces(next, all[ord], false), [Lit("\n")], Plain(LowerText(next, all[ord].text, IndexMap(v.order))));
    } else {
      MatchesThen(v, Ok(Synth("\n", off)), Ok([]), [Lit("\n")], []);
    }
  }

  lemma OrderedMatches(v: Vocabulary, next: Lexer, keys: seq<Body>, deflt: Option<Body>, off: nat, sel: Option<seq<nat>>)
    requires WellBehaved(next) && |v.order| <= MAX_TREE_ARGS
    requires (forall b <- keys :: BodyKnown(v, next, b)) && (deflt.Some? ==> BodyKnown(v, next, deflt.value))
    ensures
      var cs := LowerBodies(next, keys, IndexMap(v.order));
      var d := if deflt.Some? && deflt.value.text != "" then Some(LowerText(next, deflt.value.text, IndexMap(v.order))) else None;
      var r := OrderedItem(next, keys, deflt, off, sel);
      FragOk(OrderBy(cs, d)) && (r.Ok? ==> OrderPieces(cs, d, sel).Ok? && Matches(v, r, OrderPieces(cs, d, sel).value))
  {
    hide Matches, BodyPieces, CasePieces, BodyKnown, IndexMap, KeyList, PickedList, AllKeys, PickedKeys;
    var cs := LowerBodies(next, keys, IndexMap(v.order));
    CasesOk(v, next, keys);
    MatchesText(v, "\n", off);
    MatchesTwo(v, "\n", "ORDER BY ", off);
    var head: Result<seq<Located>, RenderError> := Ok(Synth("\n", off) + Synth("ORDER BY ", off));
    if deflt.Some? {
      PlainMatches(v, next, deflt.value, false);
    }
    if sel.None? {
      KeysMatch(v, next, keys, off, true);
      MatchesThen(v, head, KeyList(next, keys, off, true), [Lit("\n"), Lit("ORDER BY ")], AllKeys(cs, true));
    } else if sel.value == [] {
      if deflt.Some? && deflt.value.text != "" {
        MatchesThen(v, Ok(Synth("\n", off)), BodyPieces(next, deflt.value, false), [Lit("\n")], Plain(LowerText(next, deflt.value.text, IndexMap(v.order))));
      } else {
        MatchesThen(v, Ok(Synth("\n", off)), Ok([]), [Lit("\n")], []);
      }
    } else {
      PickedMatch(v, next, keys, sel.value, off, true);
      var rest := PickedList(next, keys, sel.value, off, true);
      if rest.Ok? {
        MatchesThen(v, head, rest, [Lit("\n"), Lit("ORDER BY ")], PickedKeys(cs, sel.value, true).value);
      }
    }
  }

  lemma AnyMatches(v: Vocabulary, p: Profile, param: string, off: nat)
    requires p.style.Dollar? && v.style.Dollar? && NameKnown(v, param)
    ensures Matches(v, Ok(ListItem(p, param, off, false)), [Lit("= ANY("), Ph(Bind(false, Lookup(IndexMap(v.order), param), 0)), Lit(")")])
    ensures ListItem(p, param, off, true) == ListItem(p, param, off, false)
  {
  }

  lemma ListMatches(v: Vocabulary, p: Profile, param: string, off: nat, empty: bool)
    requires p.style.Question? && v.style.Question? && NameKnown(v, param) && p.inEmpty != ""
    ensures
      var r := ListPieces(Lookup(IndexMap(v.order), param), p.inEmpty, if empty then 0 else 1);
      r.Ok? && Matches(v, Ok(ListItem(p, param, off, empty)), r.value)
  {
    var i := Lookup(IndexMap(v.order), param);
    assert ElemPieces(i, 1, 1) == [Ph(Bind(false, i, 1))] by {
      assert ElemPieces(i, 2, 1) == [];
    }
  }

  lemma {:induction false} TreeMatches<V>(v: Vocabulary, next: Lexer, preds: seq<Predicate>, off: nat, tree: Tree<V>, caps: Caps)
    requires WellBehaved(next) && v.tree == PredNames(preds) && forall pr <- preds :: PredKnown(next, pr)
    requires IsMaximal(tree, preds) && Validate(tree, LowerPreds(next, preds), caps).None?
    ensures forall c <- LowerPreds(next, preds) :: CaseOk(c)
    ensures Matches(v, TreeItemPieces(next, preds, off, false), TreePieces(tree.value, LowerPreds(next, preds), 0))
  {
    hide Matches, PredKnown, PredList, KidPieces, LowerText;
    assert preds[0..] == preds && v.tree[0..] == v.tree;
    PredsMatch(v, next, preds, tree.value.kids, 0, 0, off, true);
    MatchesText(v, "(", off);
    MatchesText(v, ")", off);
    var kids := KidPieces(tree.value.kids, LowerPreds(next, preds), 0, " AND ", true);
    MatchesThen(v, Ok(Synth("(", off)), PredList(next, preds, off, true), [Lit("(")], kids);
    MatchesThen(v, Then(Ok(Synth("(", off)), PredList(next, preds, off, true)), Ok(Synth(")", off)), [Lit("(")] + kids, [Lit(")")]);
  }

  /** The composer's counters at the same point of the template. */
  ghost predicate InStep(p: Profile, n: Counts, seen: Seen) {
    seen.choose == n.choose && seen.order == n.order && (p.style.Question? ==> seen.lists == n.lists)
  }

  /** The lowered item composes to the pieces the renderer prints. */
  ghost predicate ItemAgrees<V>(p: Profile, q: Template, sh: Shape, key: ShapeKey, tree: Tree<V>, caps: Caps, it: Item, n: Counts, seen: Seen)
    requires WellBehaved(p.next)
  {
    var f := LowerItem(p, q, IndexMap(q.paramOrder), it);
    FragOk(f) && (ItemPieces(p, q, sh, it, n).Ok? ==>
      FragPieces(f, key, tree, caps, seen).Ok? &&
      Matches(VocabularyOf(p, q), ItemPieces(p, q, sh, it, n), FragPieces(f, key, tree, caps, seen).value))
  }

  lemma SkeletonAgrees<V>(p: Profile, q: Template, sh: Shape, key: ShapeKey, tree: Tree<V>, caps: Caps, it: Item, n: Counts, seen: Seen)
    requires WellBehaved(p.next) && TemplateOk(p, q) && it in q.items && it.Skeleton?
    ensures ItemAgrees(p, q, sh, key, tree, caps, it, n, seen)
  {
    hide Matches, BodyPieces, CasePieces, BodyKnown, IndexMap, LowerText;
    assert ItemKnown(VocabularyOf(p, q), p.next, q.atoms, it);
    PlainMatches(VocabularyOf(p, q), p.next, it.body, it.synth);
  }

  lemma IfPresentAgrees<V>(p: Profile, q: Template, sh: Shape, key: ShapeKey, tree: Tree<V>, caps: Caps, it: Item, n: Counts, seen: Seen)
    requires WellBehaved(p.next) && TemplateOk(p, q) && it in q.items && it.IfPresent?
    requires GuardsSelected(q, sh.active, key)
    ensures ItemAgrees(p, q, sh, key, tree, caps, it, n, seen)
  {
    hide Matches, BodyPieces, CasePieces, BodyKnown, IndexMap, LowerText, GuardedItem, GuardedPieces, GuardMask, BitOf, GuardsSelected;
    var v := VocabularyOf(p, q);
    assert ItemKnown(v, p.next, q.atoms, it);
    GuardsAgree(p, q, sh.active, key, it.guards);
    hide GuardsOn, Composing.Active;
    GuardedMatches(v, p.next, it.sep, it.body, it.off);
    InactiveEmpty(LowerText(p.next, it.body.text, IndexMap(q.paramOrder)), it.sep);
    MatchesText(v, "", 0);
  }

  lemma ChooseAgrees<V>(p: Profile, q: Template, sh: Shape, key: ShapeKey, tree: Tree<V>, caps: Caps, it: Item, n: Counts, seen: Seen)
    requires WellBehaved(p.next) && TemplateOk(p, q) && it in q.items && it.ChooseItem?
    requires OrdinalAt(sh, n) == Ordinal(key, seen) && (it.deflt.Some? ==> OrdinalAt(sh, n) <= |it.cases|)
    ensures ItemAgrees(p, q, sh, key, tree, caps, it, n, seen)
  {
    hide Matches, CasePieces, BodyKnown, IndexMap, LowerText, LowerBodies, ChosenItem, OrdinalAt, Ordinal;
    var v := VocabularyOf(p, q);
    assert ItemKnown(v, p.next, q.atoms, it);
    ChosenMatches(v, p.next, it.cases, it.deflt, it.off, OrdinalAt(sh, n));
  }

  lemma OrderAgrees<V>(p: Profile, q: Template, sh: Shape, key: ShapeKey, tree: Tree<V>, caps: Caps, it: Item, n: Counts, seen: Seen)
    requires WellBehaved(p.next) && TemplateOk(p, q) && it in q.items && it.OrderItem?
    requires OrderAt(sh, n) == Selected(key, seen)
    ensures ItemAgrees(p, q, sh, key, tree, caps, it, n, seen)
  {
    hide Matches, CasePieces, BodyKnown, IndexMap, LowerText, LowerBodies, OrderedItem, OrderPieces, OrderAt, Selected;
    var v := VocabularyOf(p, q);
    assert ItemKnown(v, p.next, q.atoms, it);
    OrderedMatches(v, p.next, it.keys, it.deflt, it.off, OrderAt(sh, n));
  }

  lemma InAgrees<V>(p: Profile, q: Template, sh: Shape, key: ShapeKey, tree: Tree<V>, caps: Caps, it: Item, n: Counts, seen: Seen)
    requires WellBehaved(p.next) && TemplateOk(p, q) && it in q.items && it.InExpr?
    requires p.style.Question? ==> ListArity(key, seen) == if ListEmpty(sh, n) then 0 else 1
    ensures ItemAgrees(p, q, sh, key, tree, caps, it, n, seen)
  {
    hide Matches, IndexMap, ListItem, ListPieces, ListArity, ListEmpty;
    var v := VocabularyOf(p, q);
    assert ItemKnown(v, p.next, q.atoms, it);
    IndexMapSound(q.paramOrder, it.param);
    if p.style.Question? {
      ListMatches(v, p, it.param, it.off, ListEmpty(sh, n));
    } else {
      AnyMatches(v, p, it.param, it.off);
    }
  }

  lemma TreeAgrees<V>(p: Profile, q: Template, sh: Shape, key: ShapeKey, tree: Tree<V>, caps: Caps, it: Item, n: Counts, seen: Seen)
    requires WellBehaved(p.next) && TemplateOk(p, q) && it in q.items && it.TreeItem? && n.trees == 0
    requires ItemSelects(p, sh, it, tree, caps)
    ensures ItemAgrees(p, q, sh, key, tree, caps, it, n, seen)
  {
    hide Matches, PredKnown, LowerPreds, TreeItemPieces, TreePieces, Validate;
    var v := VocabularyOf(p, q);
    assert ItemKnown(v, p.next, q.atoms, it);
    PredCasesOk(p.next, it.preds);
    if TreeEmpty(sh, n) {
      EmptyTreeMatches(v, p.next, it.preds, it.off, tree, caps);
    } else {
      TreeMatches(v, p.next, it.preds, it.off, tree, caps);
    }
  }

  lemma ItemMatches<V>(p: Profile, q: Template, sh: Shape, key: ShapeKey, tree: Tree<V>, caps: Caps, it: Item, n: Counts, seen: Seen)
    requires WellBehaved(p.next) && TemplateOk(p, q) && Selects(p, q, sh, key, tree, caps)
    requires it in q.items && InStep(p, n, seen) && (it.TreeItem? ==> n.trees == 0)
    ensures ItemAgrees(p, q, sh, key, tree, caps, it, n, seen)
  {
    hide TemplateOk, ItemAgrees, GuardsSelected;
    assert ItemSelects(p, sh, it, tree, caps);
    var at := Seen(n.choose, n.order, n.lists);
    match it {
      case Skeleton(_, _) => SkeletonAgrees(p, q, sh, key, tree, caps, it, n, seen);
      case IfPresent(_, _, _, _) => IfPresentAgrees(p, q, sh, key, tree, caps, it, n, seen);
      case ChooseItem(_, _, _) =>
        assert OrdinalAt(sh, n) == Ordinal(key, at) == Ordinal(key, seen);
        ChooseAgrees(p, q, sh, key, tree, caps, it, n, seen);
      case OrderItem(_, _, _) =>
        assert OrderAt(sh, n) == Selected(key, at) == Selected(key, seen);
        OrderAgrees(p, q, sh, key, tree, caps, it, n, seen);
      case InExpr(_, _) =>
        assert p.style.Question? ==> ListArity(key, at) == ListArity(key, seen);
        InAgrees(p, q, sh, key, tree, caps, it, n, seen);
      case TreeItem(_, _) => TreeAgrees(p, q, sh, key, tree, caps, it, n, seen);
    }
  }

  lemma InactiveEmpty(c: Case, sep: Sep)
    requires CaseOk(c)
    ensures GuardedPieces(c, sep, false) == []
  {
  }

  lemma EmptyTreeMatches<V>(v: Vocabulary, next: Lexer, preds: seq<Predicate>, off: nat, tree: Tree<V>, caps: Caps)
    requires WellBehaved(next) && FragOk(TreeFrag(LowerPreds(next, preds)))
    requires tree.None? || (tree.value.True? && Validate(tree, LowerPreds(next, preds), caps).None?)
    ensures
      var r := FragPieces(TreeFrag(LowerPreds(next, preds)), ShapeKey(0, [], [], [], []), tree, caps, Seen(0, 0, 0));
      r == Ok([Lit("TRUE")]) && Matches(v, TreeItemPieces(next, preds, off, true), r.value)
  {
    MatchesText(v, "TRUE", off);
  }

  // ---------------------------------------------------------------- the whole statement

  /** From the i-th item on, the lowered table composes to the pieces the renderer prints. */
  ghost predicate SuffixAgrees<V>(p: Profile, q: Template, sh: Shape, key: ShapeKey, tree: Tree<V>, caps: Caps, i: nat, n: Counts, seen: Seen)
    requires WellBehaved(p.next) && i <= |q.items|
  {
    var fs, r := Lower(p, q, q.items)[i..], RenderPieces(p, q, sh, q.items[i..], n);
    (forall f <- fs :: FragOk(f)) && (r.Ok? ==>
      ComposePieces(fs, key, tree, caps, seen).Ok? && Matches(VocabularyOf(p, q), r, ComposePieces(fs, key, tree, caps, seen).value))
  }

  lemma NothingAgrees<V>(p: Profile, q: Template, sh: Shape, key: ShapeKey, tree: Tree<V>, caps: Caps, n: Counts, seen: Seen)
    requires WellBehaved(p.next)
    ensures SuffixAgrees(p, q, sh, key, tree, caps, |q.items|, n, seen)
  {
    hide Matches, LowerItem, ItemPieces, FragPieces, FragOk, IndexMap;
    MatchesText(VocabularyOf(p, q), "", 0);
  }

  /** One item and an agreeing rest agree. */
  lemma SuffixGrows<V>(p: Profile, q: Template, sh: Shape, key: ShapeKey, tree: Tree<V>, caps: Caps, i: nat, n: Counts, seen: Seen)
    requires WellBehaved(p.next) && i < |q.items| && ItemAgrees(p, q, sh, key, tree, caps, q.items[i], n, seen)
    requires SuffixAgrees(p, q, sh, key, tree, caps, i + 1, Counted(q.items[i], n), Advance(Lower(p, q, q.items)[i], seen))
    ensures SuffixAgrees(p, q, sh, key, tree, caps, i, n, seen)
  {
    hide Matches, LowerItem, ItemPieces, FragPieces, FragOk, IndexMap, Counted, Advance, VocabularyOf;
    var fs, it := Lower(p, q, q.items), q.items[i];
    assert fs[i..] == [fs[i]] + fs[i + 1..] && q.items[i..] == [it] + q.items[i + 1..];
    assert fs[i] == LowerItem(p, q, IndexMap(q.paramOrder), it);
    var r, rest := ItemPieces(p, q, sh, it, n), RenderPieces(p, q, sh, q.items[i + 1..], Counted(it, n));
    if r.Ok? && rest.Ok? {
      MatchesThen(VocabularyOf(p, q), r, rest, FragPieces(fs[i], key, tree, caps, seen).value,
                  ComposePieces(fs[i + 1..], key, tree, caps, Advance(fs[i], seen)).value);
    }
  }

  lemma StayInStep(p: Profile, q: Template, i: nat, n: Counts, seen: Seen)
    requires WellBehaved(p.next) && i < |q.items| && InStep(p, n, seen)
    ensures InStep(p, Counted(q.items[i], n), Advance(Lower(p, q, q.items)[i], seen))
    ensures !q.items[i].TreeItem? ==> Counted(q.items[i], n).trees == n.trees
  {
    hide LowerText, LowerBodies, LowerPreds, IndexMap, GuardMask, Lookup;
  }

  lemma {:induction false} AllMatch<V>(p: Profile, q: Template, sh: Shape, key: ShapeKey, tree: Tree<V>, caps: Caps, i: nat, n: Counts, seen: Seen)
    requires WellBehaved(p.next) && TemplateOk(p, q) && Selects(p, q, sh, key, tree, caps)
    requires i <= |q.items| && InStep(p, n, seen)
    requires (forall j :: 0 <= j < i ==> !q.items[j].TreeItem?) ==> n.trees == 0
    ensures SuffixAgrees(p, q, sh, key, tree, caps, i, n, seen)
    decreases |q.items| - i
  {
    hide *;
    if i == |q.items| {
      NothingAgrees(p, q, sh, key, tree, caps, n, seen);
    } else {
      var it := q.items[i];
      OneTree(p, q, i);
      ItemMatches(p, q, sh, key, tree, caps, it, n, seen);
      StayInStep(p, q, i, n, seen);
      AllMatch(p, q, sh, key, tree, caps, i + 1, Counted(it, n), Advance(Lower(p, q, q.items)[i], seen));
      SuffixGrows(p, q, sh, key, tree, caps, i, n, seen);
    }
  }

  lemma OneTree(p: Profile, q: Template, i: nat)
    requires WellBehaved(p.next) && TemplateOk(p, q) && i < |q.items|
    ensures q.items[i].TreeItem? ==> forall j :: 0 <= j < i ==> !q.items[j].TreeItem?
  {
    hide ItemKnown;
  }

  lemma {:induction false} PrintedText(style: Style, st: Rendering.Printed, ls: seq<Located>)
    ensures PrintAll(style, st, ls).out == Run(style, st.out, PiecesOf(ls))
    decreases |ls|
  {
    if ls != [] {
      PrintedText(style, Print(style, st, ls[0]), ls[1..]);
      assert PiecesOf(ls)[1..] == PiecesOf(ls[1..]);
    }
  }

  /** Conformance. Whatever shape the renderer prints, composing the lowered table under
      the key and tree of that shape prints the same bytes, and entry by entry the bind
      plan stands for the renderer's parameter sequence. */
  lemma Conformance<V>(p: Profile, q: Template, sh: Shape, key: ShapeKey, tree: Tree<V>, caps: Caps)
    requires WellBehaved(p.next) && TemplateOk(p, q) && Selects(p, q, sh, key, tree, caps)
    requires Render(p, q, sh).Ok?
    ensures TableOk(Lower(p, q, q.items))
    ensures
      var c, r := Compose(p.style, Lower(p, q, q.items), key, tree, caps), Render(p, q, sh).value.out;
      c.Ok? && c.value.text == r.text && Paired(r.binds, c.value.binds, Same(VocabularyOf(p, q)))
  {
    hide *;
    AllMatch(p, q, sh, key, tree, caps, 0, Counts(0, 0, 0, 0), Seen(0, 0, 0)) by {
      FirstInStep(p);
    }
    LoweredTable(p, q, sh, key, tree, caps);
    WholeAgrees(p, q, sh, key, tree, caps);
  }

  lemma FirstInStep(p: Profile)
    ensures InStep(p, Counts(0, 0, 0, 0), Seen(0, 0, 0))
  {
  }

  lemma LoweredTable<V>(p: Profile, q: Template, sh: Shape, key: ShapeKey, tree: Tree<V>, caps: Caps)
    requires WellBehaved(p.next) && TemplateOk(p, q)
    requires SuffixAgrees(p, q, sh, key, tree, caps, 0, Counts(0, 0, 0, 0), Seen(0, 0, 0))
    ensures TableOk(Lower(p, q, q.items))
  {
    hide Matches, ItemKnown, FragOk, RenderPieces, ComposePieces, LowerText, LowerBodies, LowerPreds, IndexMap, GuardMask, Lookup;
    var fs := Lower(p, q, q.items);
    assert fs[0..] == fs;
  }

  lemma WholeAgrees<V>(p: Profile, q: Template, sh: Shape, key: ShapeKey, tree: Tree<V>, caps: Caps)
    requires WellBehaved(p.next) && TemplateOk(p, q) && TableOk(Lower(p, q, q.items)) && Render(p, q, sh).Ok?
    requires SuffixAgrees(p, q, sh, key, tree, caps, 0, Counts(0, 0, 0, 0), Seen(0, 0, 0))
    ensures
      var c, r := Compose(p.style, Lower(p, q, q.items), key, tree, caps), Render(p, q, sh).value.out;
      c.Ok? && c.value.text == r.text && Paired(r.binds, c.value.binds, Same(VocabularyOf(p, q)))
  {
    hide Matches, ItemKnown, RenderPieces, ComposePieces, FragOk, Paired, Run, PrintAll, LowerItem;
    var fs := Lower(p, q, q.items);
    assert fs[0..] == fs && q.items[0..] == q.items;
    var ls := RenderPieces(p, q, sh, q.items, Counts(0, 0, 0, 0));
    var ps := ComposePieces(fs, key, tree, caps, Seen(0, 0, 0));
    FinalStep(p, VocabularyOf(p, q), ls.value, ps.value);
  }

  lemma {:induction false} FinalStep(p: Profile, v: Vocabulary, ls: seq<Located>, ps: seq<Piece<Bind>>)
    requires v.style == p.style && |v.order| <= MAX_TREE_ARGS && (v.style.Dollar? ==> Distinct(v.tree))
    requires Matches(v, Ok(ls), ps)
    ensures
      var c, r := Run(p.style, Nothing(), ps), PrintAll(p.style, START, ls).out;
      c.text == r.text && Paired(r.binds, c.binds, Same(v))
  {
    PrintedText(p.style, START, ls);
    if v.style.Dollar? {
      OneSourcePerName(v);
    }
    hide Stands;
    RenamingKeepsText(p.style, START.out, Nothing(), PiecesOf(ls), ps, Same(v));
  }

  // ---------------------------------------------------------------- the lone predicate

  /** The tree the runtime builds for "all predicates" is the maximal tree exactly from
      two predicates on. */
  lemma CombineIsMaximal<V>(preds: seq<Predicate>, leaves: seq<Node<V>>)
    requires AreLeaves(leaves, preds, 0)
    ensures IsMaximal(Combine(true, seq(|leaves|, i requires 0 <= i < |leaves| => Some(leaves[i]))), preds) <==> |preds| >= 2
  {
    var ts := seq(|leaves|, i requires 0 <= i < |leaves| => Some(leaves[i]));
    SuppliedAll(leaves, ts);
  }

  lemma {:induction false} SuppliedAll<V>(leaves: seq<Node<V>>, ts: seq<Tree<V>>)
    requires |leaves| == |ts| && forall i :: 0 <= i < |ts| ==> ts[i] == Some(leaves[i])
    ensures Supplied(ts) == leaves
    decreases |ts|
  {
    if ts != [] {
      SuppliedAll(leaves[1..], ts[1..]);
    }
  }

  /** A lone predicate is the case that does not conform: the renderer's outer pair of
      parentheses has no counterpart, so the composed text is always two bytes short. */
  lemma {:induction false} LonePredicateDiffers<V>(v: Vocabulary, next: Lexer, style: Style, pr: Predicate, off: nat, leaf: Node<V>)
    requires WellBehaved(next) && PredKnown(next, pr) && v.tree == pr.params && v.style == style
    requires |v.order| <= MAX_TREE_ARGS && (style.Dollar? ==> Distinct(v.tree))
    requires leaf.Leaf? && leaf.pred == 0 && ValidateNode(leaf, LowerPreds(next, [pr])).None?
    requires Combine(true, [Some(leaf)]).Some? && TreeItemPieces(next, [pr], off, false).Ok?
    ensures Combine(true, [Some(leaf)]).value == leaf
    ensures forall c <- LowerPreds(next, [pr]) :: CaseOk(c)
    ensures
      |Run(style, Nothing(), PiecesOf(TreeItemPieces(next, [pr], off, false).value)).text| ==
      |Run(style, Nothing(), TreePieces(leaf, LowerPreds(next, [pr]), 0)).text| + 2
  {
    hide PredKnown, LowerText, CasePieces, BodyPieces, Matches;
    PredCasesOk(next, [pr]);
    assert Supplied([Some(leaf)]) == [leaf] + Supplied([]);
    assert v.tree[0..|pr.params|] == pr.params;
    PredCaseMatches(v, next, pr, 0);
    var c := CasePieces(LowerText(next, pr.body.text, IndexMap(pr.params)), true, 0);
    var body := BodyPieces(next, pr.body, false);
    OnePred(v, off, true, body, c);
    var one := Then(Ok(Synth("(", off)), Then(body, Ok(Synth(")", off))));
    assert [] + Synth("(", off) == Synth("(", off);
    assert PredList(next, [pr], off, true) == Then(one, Ok([]));
    assert [] + ([Lit("(")] + c + [Lit(")")]) == TreePieces(leaf, LowerPreds(next, [pr]), 0);
    LoneLengths(v, style, off, one.value, TreePieces(leaf, LowerPreds(next, [pr]), 0));
    assert one.value + [] == one.value;
  }

  lemma {:induction false} LoneLengths(v: Vocabulary, style: Style, off: nat, ls: seq<Located>, ps: seq<Piece<Bind>>)
    requires v.style == style && |v.order| <= MAX_TREE_ARGS && (style.Dollar? ==> Distinct(v.tree))
    requires Matches(v, Ok(ls), ps)
    ensures |Run(style, Nothing(), PiecesOf(Synth("(", off) + ls + Synth(")", off))).text| == |Run(style, Nothing(), ps).text| + 2
  {
    MatchesText(v, "(", off);
    MatchesText(v, ")", off);
    MatchesThen(v, Ok(Synth("(", off)), Ok(ls), [Lit("(")], ps);
    MatchesThen(v, Ok(Synth("(", off) + ls), Ok(Synth(")", off)), [Lit("(")] + ps, [Lit(")")]);
    if style.Dollar? {
      OneSourcePerName(v);
    }
    hide Stands;
    RenamingKeepsText(style, START.out, Nothing(), PiecesOf(Synth("(", off) + ls + Synth(")", off)), [Lit("(")] + ps + [Lit(")")], Same(v));
    Around(style, Nothing<Bind>(), "(", ps);
    assert "" + "(" == "(";
    TextShift(style, "(", ps);
  }

  /** What was printed before does not change how long the rest is. */
  lemma {:induction false} TextShift(style: Style, before: string, ps: seq<Piece<Bind>>)
    ensures |Run(style, Emitted(before, []), ps).text| == |before| + |Run(style, Nothing(), ps).text|
  {
    ShiftFrom(style, before, Nothing(), ps);
    assert before + "" == before;
  }

  lemma {:induction false} ShiftFrom(style: Style, before: string, st: Emitted<Bind>, ps: seq<Piece<Bind>>)
    ensures Run(style, Emitted(before + st.text, st.binds), ps).text == before + Run(style, st, ps).text
    decreases |ps|
  {
    if ps != [] {
      var st' := Step(style, st, ps[0]);
      var more := st'.text[|st.text|..];
      assert st'.text == st.text + more;
      assert Step(style, Emitted(before + st.text, st.binds), ps[0]) == Emitted(before + st'.text, st'.binds);
      ShiftFrom(style, before, st', ps[1..]);
    }
  }
}
