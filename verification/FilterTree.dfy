/**
 Runtime filter trees (runtime/tree.go): the constructors, the cap check that runs
 before anything else walks a tree, validation against a predicate vocabulary, the
 structural encoding used in cache keys and the flattened argument list.
 */
module FilterTree {
  import opened Core
  import opened Digits

  const MAX_TREE_ARGS := 32767

  /** A node as the constructors build it; `V` is the type of bound values. */
  datatype Node<V> =
    | Leaf(pred: int, args: seq<V>)
    | And(kids: seq<Node<V>>)
    | Or(kids: seq<Node<V>>)
    | True

  /** `Tree{}` is `None`: the caller did not decide. */
  type Tree<V> = Option<Node<V>>

  datatype Caps = Caps(maxNodes: int, maxDepth: int)

  datatype TreeError = TooLarge | UnknownPredicate | Arity

  /** A selectable body: SQL text, the spans of its `:name` tokens and, per span,
      the index its placeholder binds. */
  datatype Span = Span(start: nat, end: nat)

  datatype Case = Case(text: string, spans: seq<Span>, idx: seq<int>)

  // ---------------------------------------------------------------- constructors

  function Unscoped<V>(): Tree<V> { Some(True) }

  function Supplied<V>(ts: seq<Tree<V>>): seq<Node<V>> {
    if ts == [] then []
    else (if ts[0].Some? then [ts[0].value] else []) + Supplied(ts[1..])
  }

  function Combine<V>(isAnd: bool, ts: seq<Tree<V>>): Tree<V> {
    var kids := Supplied(ts);
    if |kids| == 0 then Unscoped()
    else if |kids| == 1 then Some(kids[0])
    else Some(if isAnd then And(kids) else Or(kids))
  }

  // ---------------------------------------------------------------- measures

  function Max(a: nat, b: nat): nat { if a < b then b else a }

  function Nodes<V>(n: Node<V>): (k: nat)
    ensures k >= 1
    decreases n, 1
  {
    if n.And? || n.Or? then 1 + NodesOf(n.kids) else 1
  }

  function NodesOf<V>(ks: seq<Node<V>>): nat
    decreases ks, 0
  {
    if ks == [] then 0 else Nodes(ks[0]) + NodesOf(ks[1..])
  }

  function Depth<V>(n: Node<V>): (k: nat)
    ensures k >= 1
    decreases n, 1
  {
    if n.And? || n.Or? then 1 + DepthOf(n.kids) else 1
  }

  function DepthOf<V>(ks: seq<Node<V>>): nat
    decreases ks, 0
  {
    if ks == [] then 0 else Max(Depth(ks[0]), DepthOf(ks[1..]))
  }

  /** `TreeArgs`: leaf arguments in preorder. */
  function Args<V>(n: Node<V>): seq<V>
    decreases n, 1
  {
    match n
    case Leaf(_, args) => args
    case True => []
    case And(kids) => ArgsOf(kids)
    case Or(kids) => ArgsOf(kids)
  }

  function ArgsOf<V>(ks: seq<Node<V>>): seq<V>
    decreases ks, 0
  {
    if ks == [] then [] else Args(ks[0]) + ArgsOf(ks[1..])
  }

  function TreeArgs<V>(t: Tree<V>): seq<V> {
    if t.None? then [] else Args(t.value)
  }

  // ---------------------------------------------------------------- caps

  /** The counters the cap walk shares between its frames. */
  class CapWalk<V> {
    const caps: Caps
    var nodes: nat
    var args: nat

    constructor (caps: Caps)
      ensures this.caps == caps && nodes == 0 && args == 0
    {
      this.caps := caps;
      nodes, args := 0, 0;
    }

    /** What is left of the budget after the walk has used `nodes` and `args`. */
    ghost predicate Room(moreNodes: nat, moreArgs: nat)
      reads this
    {
      nodes + moreNodes <= caps.maxNodes && args + moreArgs <= MAX_TREE_ARGS
    }

    /** The counters stop early, yet the verdict is that of the whole subtree. */
    method Visit(n: Node<V>, depth: nat) returns (ok: bool)
      requires args <= MAX_TREE_ARGS
      modifies this
      ensures ok <==> old(Room(Nodes(n), |Args(n)|)) && depth + Depth(n) <= caps.maxDepth + 1
      ensures ok ==> nodes == old(nodes) + Nodes(n) && args == old(args) + |Args(n)|
      decreases n, 1
    {
      nodes := nodes + 1;
      if nodes > caps.maxNodes || depth > caps.maxDepth {
        return false;
      }
      if n.Leaf? {
        args := args + |n.args|;
        if args > MAX_TREE_ARGS {
          return false;
        }
      }
      ok := true;
      if n.And? || n.Or? {
        ok := VisitKids(n.kids, depth + 1);
      }
    }

    method VisitKids(ks: seq<Node<V>>, depth: nat) returns (ok: bool)
      requires args <= MAX_TREE_ARGS && nodes <= caps.maxNodes
      modifies this
      ensures ok <==> old(Room(NodesOf(ks), |ArgsOf(ks)|)) && (ks == [] || depth + DepthOf(ks) <= caps.maxDepth + 1)
      ensures ok ==> nodes == old(nodes) + NodesOf(ks) && args == old(args) + |ArgsOf(ks)|
      decreases ks, 0
    {
      if ks == [] {
        return true;
      }
      ok := Visit(ks[0], depth);
      if ok {
        ok := VisitKids(ks[1..], depth);
      }
    }
  }

  function CheckCaps<V>(t: Tree<V>, caps: Caps): Option<TreeError> {
    if t.None? || (Nodes(t.value) <= caps.maxNodes && Depth(t.value) <= caps.maxDepth && |Args(t.value)| <= MAX_TREE_ARGS)
    then None else Some(TooLarge)
  }

  method CheckCapsWalk<V>(t: Tree<V>, caps: Caps) returns (err: Option<TreeError>)
    ensures err == CheckCaps(t, caps)
  {
    if t.None? {
      return None;
    }
    var w := new CapWalk<V>(caps);
    var ok := w.Visit(t.value, 1);
    err := if ok then None else Some(TooLarge);
  }

  // ---------------------------------------------------------------- validation

  function ArityOf(idx: seq<int>): nat {
    if idx == [] then 0 else if idx[0] + 1 > ArityOf(idx[1..]) then idx[0] + 1 else ArityOf(idx[1..])
  }

  method LeafArity(c: Case) returns (want: nat)
    ensures want == ArityOf(c.idx)
  {
    want := 0;
    for k := 0 to |c.idx|
      invariant Max(want, ArityOf(c.idx[k..])) == ArityOf(c.idx)
    {
      assert c.idx[k..][1..] == c.idx[k + 1..];
      if c.idx[k] + 1 > want {
        want := c.idx[k] + 1;
      }
    }
  }

  /** Arity is the least length that admits every index. */
  lemma {:induction false} ArityBounds(idx: seq<int>, n: nat)
    ensures ArityOf(idx) <= n <==> forall k :: 0 <= k < |idx| ==> idx[k] < n
  {
    if idx != [] {
      ArityBounds(idx[1..], n);
      assert forall k :: 1 <= k < |idx| ==> idx[k] == idx[1..][k - 1];
      assert (forall k :: 0 <= k < |idx| ==> idx[k] < n) <==> idx[0] < n && forall k :: 0 <= k < |idx[1..]| ==> idx[1..][k] < n;
    }
  }

  function ValidateNode<V>(n: Node<V>, preds: seq<Case>): Option<TreeError>
    decreases n, 1
  {
    if n.Leaf? then
      if n.pred < 0 || n.pred >= |preds| then Some(UnknownPredicate)
      else if |n.args| != ArityOf(preds[n.pred].idx) then Some(TreeError.Arity)
      else None
    else if n.And? || n.Or? then ValidateKids(n.kids, preds)
    else None
  }

  function ValidateKids<V>(ks: seq<Node<V>>, preds: seq<Case>): Option<TreeError>
    decreases ks, 0
  {
    if ks == [] then None
    else if ValidateNode(ks[0], preds).Some? then ValidateNode(ks[0], preds)
    else ValidateKids(ks[1..], preds)
  }

  function Validate<V>(t: Tree<V>, preds: seq<Case>, caps: Caps): Option<TreeError> {
    if CheckCaps(t, caps).Some? then CheckCaps(t, caps)
    else if t.None? then None
    else ValidateNode(t.value, preds)
  }

  // ---------------------------------------------------------------- encoding

  function Encode<V>(t: Tree<V>): string {
    if t.None? then "T" else EncodeNode(t.value)
  }

  function EncodeNode<V>(n: Node<V>): (s: string)
    decreases n, 1
  {
    match n
    case True => "T"
    case Leaf(pred, _) => "p" + Int(pred)
    case And(kids) => "&(" + EncodeKids(kids) + ")"
    case Or(kids) => "|(" + EncodeKids(kids) + ")"
  }

  function EncodeKids<V>(ks: seq<Node<V>>): string
    decreases ks, 0
  {
    if ks == [] then ""
    else if |ks| == 1 then EncodeNode(ks[0])
    else EncodeNode(ks[0]) + "," + EncodeKids(ks[1..])
  }

  /** Equal up to the values at the leaves. */
  predicate SameShape<V, W>(a: Node<V>, b: Node<W>)
    decreases a, 1
  {
    match a
    case True => b.True?
    case Leaf(pred, _) => b.Leaf? && b.pred == pred
    case And(kids) => b.And? && SameShapes(kids, b.kids)
    case Or(kids) => b.Or? && SameShapes(kids, b.kids)
  }

  predicate SameShapes<V, W>(ks: seq<Node<V>>, ls: seq<Node<W>>)
    decreases ks, 0
  {
    if ks == [] || ls == [] then ks == [] && ls == []
    else SameShape(ks[0], ls[0]) && SameShapes(ks[1..], ls[1..])
  }

  lemma {:induction false} ShapeDecidesEncoding<V, W>(a: Node<V>, b: Node<W>)
    requires SameShape(a, b)
    ensures EncodeNode(a) == EncodeNode(b)
    decreases a, 1
  {
    if a.And? || a.Or? {
      ShapesDecideEncoding(a.kids, b.kids);
    }
  }

  lemma {:induction false} ShapesDecideEncoding<V, W>(ks: seq<Node<V>>, ls: seq<Node<W>>)
    requires SameShapes(ks, ls)
    ensures |ks| == |ls| && EncodeKids(ks) == EncodeKids(ls)
    decreases ks, 0
  {
    if ks != [] {
      ShapeDecidesEncoding(ks[0], ls[0]);
      ShapesDecideEncoding(ks[1..], ls[1..]);
    }
  }

  lemma {:induction false} NodeHead<V>(n: Node<V>, r: string)
    ensures EncodeNode(n) != "" && (EncodeNode(n) + r)[0] == EncodeNode(n)[0]
    ensures n.True? <==> EncodeNode(n)[0] == 'T'
    ensures n.Leaf? <==> EncodeNode(n)[0] == 'p'
    ensures n.And? <==> EncodeNode(n)[0] == '&'
    ensures n.Or? <==> EncodeNode(n)[0] == '|'
  {
  }

  /** An encoding is read back whatever follows, as long as that is no digit: the
      shape of the tree, and where it ends, can be told from the text alone. */
  lemma {:induction false} NodeReads<V, W>(a: Node<V>, r: string, b: Node<W>, s: string)
    requires EncodeNode(a) + r == EncodeNode(b) + s && Stops(10, r) && Stops(10, s)
    ensures SameShape(a, b) && r == s
    decreases a, 1
  {
    hide EncodeNode, Stops;
    NodeHead(a, r);
    NodeHead(b, s);
    match a {
      case True =>
        UnwrapTrue(a, r, b, s);
      case Leaf(pred, _) =>
        UnwrapLeaf(a, r, b, s);
        IntReads(pred, r, b.pred, s);
      case And(kids) =>
        UnwrapOp(a, r, b, s);
        KidsRead(kids, r, b.kids, s);
      case Or(kids) =>
        UnwrapOp(a, r, b, s);
        KidsRead(kids, r, b.kids, s);
    }
  }

  lemma {:induction false} UnwrapTrue<V, W>(a: Node<V>, r: string, b: Node<W>, s: string)
    requires a.True? && b.True? && EncodeNode(a) + r == EncodeNode(b) + s
    ensures r == s
  {
    Cancel("T", r, s);
  }

  lemma {:induction false} UnwrapLeaf<V, W>(a: Node<V>, r: string, b: Node<W>, s: string)
    requires a.Leaf? && b.Leaf? && EncodeNode(a) + r == EncodeNode(b) + s
    ensures Int(a.pred) + r == Int(b.pred) + s
  {
    hide Int;
    assert EncodeNode(a) + r == "p" + (Int(a.pred) + r) && EncodeNode(b) + s == "p" + (Int(b.pred) + s);
    Cancel("p", Int(a.pred) + r, Int(b.pred) + s);
  }

  lemma {:induction false} UnwrapOp<V, W>(a: Node<V>, r: string, b: Node<W>, s: string)
    requires (a.And? && b.And?) || (a.Or? && b.Or?)
    requires EncodeNode(a) + r == EncodeNode(b) + s
    ensures EncodeKids(a.kids) + (")" + r) == EncodeKids(b.kids) + (")" + s)
  {
    hide EncodeKids;
    var op := if a.And? then "&(" else "|(";
    assert EncodeNode(a) + r == op + (EncodeKids(a.kids) + (")" + r));
    assert EncodeNode(b) + s == op + (EncodeKids(b.kids) + (")" + s));
    Cancel(op, EncodeKids(a.kids) + (")" + r), EncodeKids(b.kids) + (")" + s));
  }

  /** What follows the first of a list of kids, up to and including the `)`. */
  function Rest<V>(ks: seq<Node<V>>, r: string): string
    requires ks != []
  {
    if |ks| == 1 then ")" + r else "," + (EncodeKids(ks[1..]) + (")" + r))
  }

  lemma {:induction false} KidsHead<V>(ks: seq<Node<V>>, r: string)
    ensures ks == [] ==> EncodeKids(ks) + (")" + r) == ")" + r
    ensures ks != [] ==> EncodeKids(ks) + (")" + r) == EncodeNode(ks[0]) + Rest(ks, r) && Stops(10, Rest(ks, r))
    ensures ks == [] <==> (EncodeKids(ks) + (")" + r))[0] == ')'
  {
    hide EncodeNode, Stops;
    if |ks| > 1 {
      Regroup(EncodeNode(ks[0]), EncodeKids(ks[1..]), r);
    }
    if ks != [] {
      NodeHead(ks[0], Rest(ks, r));
      RestStops(ks, r);
    }
  }

  lemma Regroup(x: string, y: string, r: string)
    ensures (x + "," + y) + (")" + r) == x + ("," + (y + (")" + r)))
  {
  }

  lemma RestStops<V>(ks: seq<Node<V>>, r: string)
    requires ks != []
    ensures Stops(10, Rest(ks, r))
  {
  }

  lemma {:induction false} KidsRead<V, W>(ks: seq<Node<V>>, r: string, ls: seq<Node<W>>, s: string)
    requires EncodeKids(ks) + (")" + r) == EncodeKids(ls) + (")" + s)
    ensures SameShapes(ks, ls) && r == s
    decreases ks, 0
  {
    hide EncodeKids, EncodeNode, Stops;
    KidsHead(ks, r);
    KidsHead(ls, s);
    if ks == [] {
      Cancel(")", r, s);
    } else {
      NodeReads(ks[0], Rest(ks, r), ls[0], Rest(ls, s));
      assert Rest(ks, r)[0] == Rest(ls, s)[0];
      if |ks| == 1 {
        Cancel(")", r, s);
        assert SameShapes(ks[1..], ls[1..]);
      } else {
        Cancel(",", EncodeKids(ks[1..]) + (")" + r), EncodeKids(ls[1..]) + (")" + s));
        KidsRead(ks[1..], r, ls[1..], s);
      }
    }
  }

  /** Two supplied trees have the same encoding exactly when they have the same
      structure, values aside. */
  lemma {:induction false} EncodingDecidesShape<V, W>(a: Node<V>, b: Node<W>)
    ensures EncodeNode(a) == EncodeNode(b) <==> SameShape(a, b)
  {
    if EncodeNode(a) == EncodeNode(b) {
      NodeReads(a, "", b, "");
    }
    if SameShape(a, b) {
      ShapeDecidesEncoding(a, b);
    }
  }

  // ---------------------------------------------------------------- values aside

  /** The tree with every value forgotten: what a cache key may depend on. */
  function Strip<V>(n: Node<V>): Node<()>
    decreases n, 1
  {
    match n
    case True => True
    case Leaf(pred, _) => Leaf(pred, [])
    case And(kids) => And(StripKids(kids))
    case Or(kids) => Or(StripKids(kids))
  }

  function StripKids<V>(ks: seq<Node<V>>): seq<Node<()>>
    decreases ks, 0
  {
    if ks == [] then [] else [Strip(ks[0])] + StripKids(ks[1..])
  }

  lemma {:induction false} StripKeepsShape<V>(n: Node<V>)
    ensures SameShape(n, Strip(n))
    decreases n, 1
  {
    if n.And? || n.Or? {
      StripKidsKeepsShape(n.kids);
    }
  }

  lemma {:induction false} StripKidsKeepsShape<V>(ks: seq<Node<V>>)
    ensures SameShapes(ks, StripKids(ks))
    decreases ks, 0
  {
    if ks != [] {
      StripKeepsShape(ks[0]);
      StripKidsKeepsShape(ks[1..]);
      assert StripKids(ks)[1..] == StripKids(ks[1..]);
    }
  }

  /** A text that is the encoding of some tree. */
  ghost predicate IsEncoding(x: string) { exists n: Node<()> :: x == EncodeNode(n) }

  lemma EncodeIsEncoding<V>(t: Tree<V>)
    ensures IsEncoding(Encode(t))
  {
    if t.None? {
      assert Encode(t) == EncodeNode(Node<()>.True);
    } else {
      StripKeepsShape(t.value);
      ShapeDecidesEncoding(t.value, Strip(t.value));
    }
  }

  lemma EncodingReads(x: string, r: string, y: string, s: string)
    requires IsEncoding(x) && IsEncoding(y) && x + r == y + s && Stops(10, r) && Stops(10, s)
    ensures x == y && r == s
  {
    var m: Node<()> :| x == EncodeNode(m);
    var n: Node<()> :| y == EncodeNode(n);
    NodeReads(m, r, n, s);
    ShapeDecidesEncoding(m, n);
  }
}
