/**
 What the bind plan of a filter tree means: every placeholder of a leaf resolves to
 that leaf's own argument, and the statement depends on a tree only through the
 structure its encoding records.
 */
module TreeBinds {
  import opened Core
  import opened Pieces
  import opened FilterTree
  import opened ShapeKeys
  import opened Composing

  // ---------------------------------------------------------------- ResolveArgs

  /** An entry that `ResolveArgs` can index. */
  predicate InRange(b: Bind, vals: nat, treeArgs: nat) {
    0 <= b.idx < (if b.fromTree then treeArgs else vals)
  }

  function Resolved<V>(b: Bind, vals: seq<V>, treeArgs: seq<V>, elem: (V, int) -> V): V
    requires InRange(b, |vals|, |treeArgs|)
  {
    var v := if b.fromTree then treeArgs[b.idx] else vals[b.idx];
    if b.elem > 0 then elem(v, b.elem - 1) else v
  }

  method ResolveArgs<V>(binds: seq<Bind>, vals: seq<V>, treeArgs: seq<V>, elem: (V, int) -> V) returns (out: seq<V>)
    requires forall b <- binds :: InRange(b, |vals|, |treeArgs|)
    ensures |out| == |binds| && forall i :: 0 <= i < |binds| ==> out[i] == Resolved(binds[i], vals, treeArgs, elem)
  {
    out := [];
    for i := 0 to |binds|
      invariant |out| == i && forall j :: 0 <= j < i ==> out[j] == Resolved(binds[j], vals, treeArgs, elem)
    {
      var b := binds[i];
      assert b in binds;
      var src := if b.fromTree then treeArgs else vals;
      var v := src[b.idx];
      if b.elem > 0 {
        v := elem(v, b.elem - 1);
      }
      out := out + [v];
    }
  }

  // ---------------------------------------------------------------- a leaf's own arguments

  /** The tree printed with values in place of placeholders: no indices, no bases,
      each leaf reads its own argument list. */
  function ValuesFrom<V>(c: Case, args: seq<V>, k: nat, last: nat): seq<Piece<V>>
    requires |c.spans| == |c.idx| && k <= |c.spans| && SpansOk(c, k, last)
    requires forall i <- c.idx :: 0 <= i < |args|
    decreases |c.spans| - k
  {
    if k == |c.spans| then [Lit(c.text[last..])]
    else
      assert c.idx[k] in c.idx;
      [Lit(c.text[last..c.spans[k].start]), Ph(args[c.idx[k]])] + ValuesFrom(c, args, k + 1, c.spans[k].end)
  }

  lemma {:induction false} LeafIndices<V>(n: Node<V>, preds: seq<Case>)
    requires n.Leaf? && ValidateNode(n, preds).None? && forall c <- preds :: CaseOk(c)
    ensures CaseOk(preds[n.pred]) && forall i <- preds[n.pred].idx :: 0 <= i < |n.args|
  {
    ArityBounds(preds[n.pred].idx, |n.args|);
    assert preds[n.pred] in preds;
  }

  function ValuePieces<V>(n: Node<V>, preds: seq<Case>): seq<Piece<V>>
    requires ValidateNode(n, preds).None? && forall c <- preds :: CaseOk(c)
    decreases n, 1
  {
    match n
    case True => [Lit("TRUE")]
    case Leaf(pred, args) =>
      LeafIndices(n, preds);
      [Lit("(")] + ValuesFrom(preds[pred], args, 0, 0) + [Lit(")")]
    case And(kids) => [Lit("(")] + KidValues(kids, preds, " AND ", true) + [Lit(")")]
    case Or(kids) => [Lit("(")] + KidValues(kids, preds, " OR ", true) + [Lit(")")]
  }

  function KidValues<V>(ks: seq<Node<V>>, preds: seq<Case>, sep: string, first: bool): seq<Piece<V>>
    requires ValidateKids(ks, preds).None? && forall c <- preds :: CaseOk(c)
    decreases ks, 0
  {
    if ks == [] then []
    else (if first then [] else [Lit(sep)]) + ValuePieces(ks[0], preds) + KidValues(ks[1..], preds, sep, false)
  }

  /** `b` is a tree bind that `all` resolves to `v`. */
  ghost predicate Yields<V>(all: seq<V>, b: Bind, v: V) {
    b.fromTree && b.elem == 0 && 0 <= b.idx < |all| && all[b.idx] == v
  }

  ghost predicate Agree<V(!new)>(ps: seq<Piece<Bind>>, vs: seq<Piece<V>>, all: seq<V>) {
    Aligned(ps, vs, (b, v) => Yields(all, b, v))
  }

  lemma AgreeConcat<V(!new)>(ps: seq<Piece<Bind>>, qs: seq<Piece<Bind>>, vs: seq<Piece<V>>, ws: seq<Piece<V>>, all: seq<V>)
    requires Agree(ps, vs, all) && Agree(qs, ws, all)
    ensures Agree(ps + qs, vs + ws, all)
  {
  }

  lemma {:induction false} CaseBinds<V(!new)>(c: Case, base: nat, k: nat, last: nat, args: seq<V>, all: seq<V>)
    requires |c.spans| == |c.idx| && k <= |c.spans| && SpansOk(c, k, last)
    requires forall i <- c.idx :: 0 <= i < |args|
    requires base + |args| <= |all| && all[base..base + |args|] == args
    ensures Agree(PiecesFrom(c, true, base, k, last), ValuesFrom(c, args, k, last), all)
    decreases |c.spans| - k
  {
    if k < |c.spans| {
      var i := c.idx[k];
      assert i in c.idx && args[i] == all[base..base + |args|][i];
      CaseBinds(c, base, k + 1, c.spans[k].end, args, all);
      var lit: string := c.text[last..c.spans[k].start];
      AgreeConcat([Lit(lit), Ph(Bind(true, base + i, 0))], PiecesFrom(c, true, base, k + 1, c.spans[k].end),
                  [Lit(lit), Ph(args[i])], ValuesFrom(c, args, k + 1, c.spans[k].end), all);
    }
  }

  lemma AgreeWrapped<V(!new)>(ps: seq<Piece<Bind>>, vs: seq<Piece<V>>, all: seq<V>)
    requires Agree(ps, vs, all)
    ensures Agree([Lit("(")] + ps + [Lit(")")], [Lit("(")] + vs + [Lit(")")], all)
  {
    var open: seq<Piece<V>>, close: seq<Piece<V>> := [Lit("(")], [Lit(")")];
    AgreeConcat([Lit("(")], ps, open, vs, all);
    AgreeConcat([Lit("(")] + ps, [Lit(")")], open + vs, close, all);
  }

  /** Every placeholder of every leaf indexes the flattened arguments inside that
      leaf's own slice, at the argument its predicate names. */
  lemma {:induction false} TreeBindsOwn<V(!new)>(n: Node<V>, preds: seq<Case>, base: nat, all: seq<V>)
    requires ValidateNode(n, preds).None? && forall c <- preds :: CaseOk(c)
    requires base + |Args(n)| <= |all| && all[base..base + |Args(n)|] == Args(n)
    ensures Agree(TreePieces(n, preds, base), ValuePieces(n, preds), all)
    decreases n, 1
  {
    hide Agree;
    match n {
      case True =>
        AgreeText(all, "TRUE");
      case Leaf(pred, args) =>
        LeafIndices(n, preds);
        CaseBinds(preds[pred], base, 0, 0, args, all);
        AgreeWrapped(CasePieces(preds[pred], true, base), ValuesFrom(preds[pred], args, 0, 0), all);
      case And(kids) =>
        KidBindsOwn(kids, preds, base, " AND ", true, all);
        AgreeWrapped(KidPieces(kids, preds, base, " AND ", true), KidValues(kids, preds, " AND ", true), all);
      case Or(kids) =>
        KidBindsOwn(kids, preds, base, " OR ", true, all);
        AgreeWrapped(KidPieces(kids, preds, base, " OR ", true), KidValues(kids, preds, " OR ", true), all);
    }
  }

  lemma AgreeText<V(!new)>(all: seq<V>, text: string)
    ensures Agree([Lit(text)], [Lit(text)], all) && Agree([], [], all)
  {
  }

  lemma {:induction false} SplitArgs<V>(ks: seq<Node<V>>, base: nat, all: seq<V>)
    requires ks != []
    requires base + |ArgsOf(ks)| <= |all| && all[base..base + |ArgsOf(ks)|] == ArgsOf(ks)
    ensures |ArgsOf(ks)| == |Args(ks[0])| + |ArgsOf(ks[1..])|
    ensures all[base..base + |Args(ks[0])|] == Args(ks[0])
    ensures var next := base + |Args(ks[0])|; all[next..next + |ArgsOf(ks[1..])|] == ArgsOf(ks[1..])
  {
    var mine, next := Args(ks[0]), base + |Args(ks[0])|;
    var slice := all[base..base + |ArgsOf(ks)|];
    assert ArgsOf(ks)[..|mine|] == mine && ArgsOf(ks)[|mine|..] == ArgsOf(ks[1..]);
    assert slice[..|mine|] == all[base..next];
    assert slice[|mine|..] == all[next..next + |ArgsOf(ks[1..])|];
  }

  lemma {:induction false} KidBindsOwn<V(!new)>(ks: seq<Node<V>>, preds: seq<Case>, base: nat, sep: string, first: bool, all: seq<V>)
    requires ValidateKids(ks, preds).None? && forall c <- preds :: CaseOk(c)
    requires base + |ArgsOf(ks)| <= |all| && all[base..base + |ArgsOf(ks)|] == ArgsOf(ks)
    ensures Agree(KidPieces(ks, preds, base, sep, first), KidValues(ks, preds, sep, first), all)
    decreases ks, 0
  {
    hide Agree;
    AgreeText(all, sep);
    if ks != [] {
      SplitArgs(ks, base, all);
      var next := base + |Args(ks[0])|;
      hide ArgsOf, Args;
      TreeBindsOwn(ks[0], preds, base, all);
      KidBindsOwn(ks[1..], preds, next, sep, false, all);
      var s: seq<Piece<Bind>> := if first then [] else [Lit(sep)];
      var s': seq<Piece<V>> := if first then [] else [Lit(sep)];
      AgreeConcat(s, TreePieces(ks[0], preds, base), s', ValuePieces(ks[0], preds), all);
      AgreeConcat(s + TreePieces(ks[0], preds, base), KidPieces(ks[1..], preds, next, sep, false),
                  s' + ValuePieces(ks[0], preds), KidValues(ks[1..], preds, sep, false), all);
    }
  }

  // ---------------------------------------------------------------- in a whole statement

  lemma {:induction false} SourcesConcat<S>(ps: seq<Piece<S>>, qs: seq<Piece<S>>)
    ensures Sources(ps + qs) == Sources(ps) + Sources(qs)
  {
    if ps == [] {
      assert ps + qs == qs;
    } else {
      assert (ps + qs)[1..] == ps[1..] + qs;
      SourcesConcat(ps[1..], qs);
    }
  }

  lemma {:induction false} AgreeSources<V(!new)>(ps: seq<Piece<Bind>>, vs: seq<Piece<V>>, all: seq<V>)
    requires Agree(ps, vs, all)
    ensures |Sources(ps)| == |Sources(vs)|
    ensures forall i :: 0 <= i < |Sources(ps)| ==> Yields(all, Sources(ps)[i], Sources(vs)[i])
  {
    if ps != [] {
      assert AlignedAt(ps[0], vs[0], (b, v) => Yields(all, b, v));
      AgreeSources(ps[1..], vs[1..], all);
    }
  }

  /** The k-th placeholder of a validated tree, wherever the tree stands in its
      statement and in either style, carries a number whose bind-plan entry resolves
      to the argument its own leaf supplies there. */
  lemma {:induction false} TreePlaceholdersResolve<V(!new)>(
      style: Style, pre: seq<Piece<Bind>>, n: Node<V>, preds: seq<Case>, post: seq<Piece<Bind>>,
      vals: seq<V>, elem: (V, int) -> V, k: nat)
    requires ValidateNode(n, preds).None? && forall c <- preds :: CaseOk(c)
    requires k < |Sources(ValuePieces(n, preds))|
    ensures
      var ps := pre + TreePieces(n, preds, 0) + post;
      var plan, numbers := Run(style, Nothing(), ps).binds, Numbers(style, [], ps);
      var at := |Sources(pre)| + k;
      at < |numbers| && 1 <= numbers[at] <= |plan| &&
      var b := plan[numbers[at] - 1];
      InRange(b, |vals|, |TreeArgs(Some(n))|) && Resolved(b, vals, TreeArgs(Some(n)), elem) == Sources(ValuePieces(n, preds))[k]
  {
    var tree := TreePieces(n, preds, 0);
    var ps := pre + tree + post;
    assert Args(n)[0..0 + |Args(n)|] == Args(n);
    TreeBindsOwn(n, preds, 0, Args(n));
    AgreeSources(tree, ValuePieces(n, preds), Args(n));
    SourcesConcat(pre, tree);
    SourcesConcat(pre + tree, post);
    NumbersResolve(style, Nothing(), ps);
    assert Sources(ps)[|Sources(pre)| + k] == Sources(tree)[k];
    assert Yields(Args(n), Sources(tree)[k], Sources(ValuePieces(n, preds))[k]);
  }

  // ---------------------------------------------------------------- structure is enough

  lemma {:induction false} ShapeDecidesPieces<V, W>(a: Node<V>, b: Node<W>, preds: seq<Case>, base: nat)
    requires SameShape(a, b) && forall c <- preds :: CaseOk(c)
    requires ValidateNode(a, preds).None? && ValidateNode(b, preds).None?
    ensures |Args(a)| == |Args(b)| && TreePieces(a, preds, base) == TreePieces(b, preds, base)
    decreases a, 1
  {
    match a {
      case And(kids) => ShapesDecidePieces(kids, b.kids, preds, base, " AND ", true);
      case Or(kids) => ShapesDecidePieces(kids, b.kids, preds, base, " OR ", true);
      case True =>
      case Leaf(_, _) =>
    }
  }

  lemma {:induction false} ShapesDecidePieces<V, W>(ks: seq<Node<V>>, ls: seq<Node<W>>, preds: seq<Case>, base: nat, sep: string, first: bool)
    requires SameShapes(ks, ls) && forall c <- preds :: CaseOk(c)
    requires ValidateKids(ks, preds).None? && ValidateKids(ls, preds).None?
    ensures |ArgsOf(ks)| == |ArgsOf(ls)| && KidPieces(ks, preds, base, sep, first) == KidPieces(ls, preds, base, sep, first)
    decreases ks, 0
  {
    if ks != [] {
      hide TreePieces, ValidateNode, SameShape, Args;
      ShapeDecidesPieces(ks[0], ls[0], preds, base);
      ShapesDecidePieces(ks[1..], ls[1..], preds, base + |Args(ks[0])|, sep, false);
    }
  }

  /** The vocabulary a tree is validated against: the first filter tree's, if any. */
  function TreeCases(frags: seq<Frag>): seq<Case> {
    if frags == [] then []
    else if frags[0].TreeFrag? then frags[0].preds
    else TreeCases(frags[1..])
  }

  predicate Accepted<V>(t: Tree<V>, frags: seq<Frag>, caps: Caps) {
    t.None? || Validate(t, TreeCases(frags), caps).None?
  }

  lemma {:induction false} ComposeByShape<V, W>(
      frags: seq<Frag>, key: ShapeKey, t: Tree<V>, u: Tree<W>, caps: Caps, caps': Caps, seen: Seen)
    requires TableOk(frags)
    requires forall f <- frags :: f.TreeFrag? ==> TreePiecesOf(t, f.preds, caps) == TreePiecesOf(u, f.preds, caps')
    ensures ComposePieces(frags, key, t, caps, seen) == ComposePieces(frags, key, u, caps', seen)
    decreases |frags|
  {
    if frags != [] {
      hide Compose, Validate, ListPieces, OrderPieces;
      assert FragPieces(frags[0], key, t, caps, seen) == FragPieces(frags[0], key, u, caps', seen);
      assert forall f <- frags[1..] :: f in frags;
      ComposeByShape(frags[1..], key, t, u, caps, caps', Advance(frags[0], seen));
    }
  }

  function TreePiecesOf<V>(t: Tree<V>, preds: seq<Case>, caps: Caps): Result<seq<Piece<Bind>>, ComposeError>
    requires forall c <- preds :: CaseOk(c)
  {
    FragPieces(TreeFrag(preds), ShapeKey(0, [], [], [], []), t, caps, Seen(0, 0, 0))
  }

  lemma {:induction false} OnlyTree(frags: seq<Frag>, i: nat)
    requires TableOk(frags) && i < |frags| && frags[i].TreeFrag?
    ensures TreeCases(frags) == frags[i].preds
  {
    if i > 0 {
      assert frags[1..][i - 1] == frags[i];
      OnlyTree(frags[1..], i - 1);
    }
  }

  /** Two accepted trees with the same encoding compose the same statement and the
      same bind plan under every key, so one cache entry may serve both. */
  lemma EqualEncodingEqualStatement<V, W>(
      style: Style, frags: seq<Frag>, key: ShapeKey, t: Tree<V>, u: Tree<W>, caps: Caps, caps': Caps)
    requires TableOk(frags)
    requires Accepted(t, frags, caps) && Accepted(u, frags, caps')
    requires Encode(t) == Encode(u)
    ensures Compose(style, frags, key, t, caps) == Compose(style, frags, key, u, caps')
  {
    forall f | f in frags && f.TreeFrag?
      ensures TreePiecesOf(t, f.preds, caps) == TreePiecesOf(u, f.preds, caps')
    {
      var i :| 0 <= i < |frags| && frags[i] == f;
      OnlyTree(frags, i);
      SameTreePieces(t, u, f.preds, caps, caps');
    }
    ComposeByShape(frags, key, t, u, caps, caps', Seen(0, 0, 0));
  }

  lemma SameTreePieces<V, W>(t: Tree<V>, u: Tree<W>, preds: seq<Case>, caps: Caps, caps': Caps)
    requires forall c <- preds :: CaseOk(c)
    requires t.None? || Validate(t, preds, caps).None?
    requires u.None? || Validate(u, preds, caps').None?
    requires Encode(t) == Encode(u)
    ensures TreePiecesOf(t, preds, caps) == TreePiecesOf(u, preds, caps')
  {
    if t.Some? {
      NodeHead(t.value, "");
    }
    if u.Some? {
      NodeHead(u.value, "");
    }
    if t.Some? && u.Some? {
      EncodingDecidesShape(t.value, u.value);
      ShapeDecidesPieces(t.value, u.value, preds, 0);
    }
  }
}
