/**
 The runtime composer (runtime/runtime.go): fragment tables, the composition of one
 shape as a list of pieces, the emission loops proved to print exactly those pieces,
 and the resolution of a bind plan into driver arguments.
 */
module Composing {
  import opened Core
  import opened Masks
  import opened Pieces
  import opened FilterTree
  import opened ShapeKeys

  const MAX_IN_ARITY := 32767

  const IN_EMPTY_FALLBACK := "IN (SELECT NULL FROM DUAL WHERE FALSE)"

  /** One entry of a bind plan. `elem` is 0 for the whole value, k for element k-1. */
  datatype Bind = Bind(fromTree: bool, idx: int, elem: int)

  datatype Sep = SepNone | SepAnd | SepComma

  datatype Frag =
    | Skel(body: Case)
    | Guarded(body: Case, mask: bv64, sep: Sep)
    | Choose(cases: seq<Case>)
    | OrderBy(keys: seq<Case>, deflt: Option<Case>)
    | TreeFrag(preds: seq<Case>)
    | InAny(param: int)
    | InList(param: int, empty: string)

  datatype ComposeError =
    | KeyLimit
    | BadTree(why: TreeError)
    | OrderRange // an order element past the key list: an index panic in the source

  // ---------------------------------------------------------------- fragment tables

  /** Spans from the k-th on lie in order between `last` and the end of the text. */
  predicate SpansOk(c: Case, k: nat, last: nat)
    requires k <= |c.spans|
    decreases |c.spans| - k
  {
    if k == |c.spans| then last <= |c.text|
    else last <= c.spans[k].start <= c.spans[k].end <= |c.text| && SpansOk(c, k + 1, c.spans[k].end)
  }

  predicate CaseOk(c: Case) {
    |c.spans| == |c.idx| && SpansOk(c, 0, 0) && forall i <- c.idx :: 0 <= i < MAX_TREE_ARGS
  }

  predicate FragOk(f: Frag) {
    match f
    case Skel(body) => CaseOk(body)
    case Guarded(body, _, _) => CaseOk(body)
    case Choose(cases) => forall c <- cases :: CaseOk(c)
    case OrderBy(keys, deflt) => (forall c <- keys :: CaseOk(c)) && (deflt.Some? ==> CaseOk(deflt.value))
    case TreeFrag(preds) => forall c <- preds :: CaseOk(c)
    case InAny(param) => 0 <= param < MAX_TREE_ARGS
    case InList(param, _) => 0 <= param < MAX_TREE_ARGS
  }

  /** What code generation guarantees of a table, at most one filter tree included. */
  predicate TableOk(frags: seq<Frag>) {
    (forall f <- frags :: FragOk(f)) &&
    forall i, j :: 0 <= i < j < |frags| ==> !(frags[i].TreeFrag? && frags[j].TreeFrag?)
  }

  // ---------------------------------------------------------------- what is emitted

  function PiecesFrom(c: Case, fromTree: bool, base: nat, k: nat, last: nat): seq<Piece<Bind>>
    requires |c.spans| == |c.idx| && k <= |c.spans| && SpansOk(c, k, last)
    decreases |c.spans| - k
  {
    if k == |c.spans| then [Lit(c.text[last..])]
    else
      [Lit(c.text[last..c.spans[k].start]), Ph(Bind(fromTree, base + c.idx[k], 0))] +
      PiecesFrom(c, fromTree, base, k + 1, c.spans[k].end)
  }

  function CasePieces(c: Case, fromTree: bool, base: nat): seq<Piece<Bind>>
    requires CaseOk(c)
  {
    PiecesFrom(c, fromTree, base, 0, 0)
  }

  function Plain(c: Case): seq<Piece<Bind>>
    requires CaseOk(c)
  {
    CasePieces(c, false, 0)
  }

  /** A tree in preorder; each leaf owns the arguments from `base` on. */
  function TreePieces<V>(n: Node<V>, preds: seq<Case>, base: nat): seq<Piece<Bind>>
    requires ValidateNode(n, preds).None? && forall c <- preds :: CaseOk(c)
    decreases n, 1
  {
    match n
    case True => [Lit("TRUE")]
    case Leaf(pred, _) => [Lit("(")] + CasePieces(preds[pred], true, base) + [Lit(")")]
    case And(kids) => [Lit("(")] + KidPieces(kids, preds, base, " AND ", true) + [Lit(")")]
    case Or(kids) => [Lit("(")] + KidPieces(kids, preds, base, " OR ", true) + [Lit(")")]
  }

  function KidPieces<V>(ks: seq<Node<V>>, preds: seq<Case>, base: nat, sep: string, first: bool): seq<Piece<Bind>>
    requires ValidateKids(ks, preds).None? && forall c <- preds :: CaseOk(c)
    decreases ks, 0
  {
    if ks == [] then []
    else
      (if first then [] else [Lit(sep)]) + TreePieces(ks[0], preds, base) +
      KidPieces(ks[1..], preds, base + |Args(ks[0])|, sep, false)
  }

  /** Positions already consumed of each positional key component. */
  datatype Seen = Seen(choose: nat, order: nat, lists: nat)

  function Advance(f: Frag, seen: Seen): Seen {
    match f
    case Choose(_) => seen.(choose := seen.choose + 1)
    case OrderBy(_, _) => seen.(order := seen.order + 1)
    case InList(_, _) => seen.(lists := seen.lists + 1)
    case _ => seen
  }

  function Selected(key: ShapeKey, seen: Seen): Option<seq<nat>> {
    if seen.order < |key.orders| then key.orders[seen.order] else None
  }

  function Ordinal(key: ShapeKey, seen: Seen): nat {
    if seen.choose < |key.choices| then key.choices[seen.choose] else 0
  }

  function ListArity(key: ShapeKey, seen: Seen): int {
    if seen.lists < |key.arities| then key.arities[seen.lists] else 1
  }

  function AllKeys(keys: seq<Case>, first: bool): seq<Piece<Bind>>
    requires forall c <- keys :: CaseOk(c)
  {
    if keys == [] then []
    else (if first then [] else [Lit(", ")]) + Plain(keys[0]) + AllKeys(keys[1..], false)
  }

  function PickedKeys(keys: seq<Case>, picked: seq<nat>, first: bool): (r: Result<seq<Piece<Bind>>, ComposeError>)
    requires forall c <- keys :: CaseOk(c)
    ensures r.Err? ==> r.error == OrderRange
  {
    if picked == [] then Ok([])
    else if picked[0] / 2 >= |keys| then Err(OrderRange)
    else
      match PickedKeys(keys, picked[1..], false)
      case Err(e) => Err(e)
      case Ok(rest) =>
        Ok((if first then [] else [Lit(", ")]) + Plain(keys[picked[0] / 2]) +
           (if picked[0] % 2 == 1 then [Lit(" DESC")] else []) + rest)
  }

  function OrderPieces(keys: seq<Case>, deflt: Option<Case>, sel: Option<seq<nat>>): Result<seq<Piece<Bind>>, ComposeError>
    requires FragOk(OrderBy(keys, deflt))
  {
    match sel
    case None => Ok([Lit("\n"), Lit("ORDER BY ")] + AllKeys(keys, true))
    case Some(picked) =>
      if picked == [] then
        Ok([Lit("\n")] + (if deflt.Some? && deflt.value.text != "" then Plain(deflt.value) else []))
      else
        match PickedKeys(keys, picked, true)
        case Err(e) => Err(e)
        case Ok(ps) => Ok([Lit("\n"), Lit("ORDER BY ")] + ps)
  }

  /** Elements e..n of an expanded list. */
  function ElemPieces(param: int, e: nat, n: nat): seq<Piece<Bind>>
    requires 1 <= e
    decreases n + 1 - e
  {
    if e > n then []
    else (if e > 1 then [Lit(", ")] else []) + [Ph(Bind(false, param, e))] + ElemPieces(param, e + 1, n)
  }

  function ListPieces(param: int, empty: string, n: int): Result<seq<Piece<Bind>>, ComposeError> {
    if n <= 0 then Ok([Lit(if empty != "" then empty else IN_EMPTY_FALLBACK)])
    else if n > MAX_IN_ARITY then Err(KeyLimit)
    else Ok([Lit("IN (")] + ElemPieces(param, 1, n) + [Lit(")")])
  }

  function GuardOpen(sep: Sep): seq<Piece<Bind>> {
    match sep
    case SepNone => []
    case SepAnd => [Lit("AND (")]
    case SepComma => [Lit(", ")]
  }

  function GuardedPieces(body: Case, sep: Sep, active: bool): seq<Piece<Bind>>
    requires CaseOk(body)
  {
    if !active then []
    else [Lit("\n")] + GuardOpen(sep) + Plain(body) + (if sep.SepAnd? then [Lit(")")] else [])
  }

  function GuardWord(key: ShapeKey): bv64 { key.guards as bv64 }

  /** Every bit of the fragment's mask is set in the key. */
  predicate Active(key: ShapeKey, mask: bv64) { Covers(GuardWord(key), mask) }

  function FragPieces<V>(f: Frag, key: ShapeKey, tree: Tree<V>, caps: Caps, seen: Seen): Result<seq<Piece<Bind>>, ComposeError>
    requires FragOk(f)
  {
    match f
    case Skel(body) => Ok(Plain(body))
    case Guarded(body, mask, sep) =>
      Ok(GuardedPieces(body, sep, Active(key, mask)))
    case Choose(cases) =>
      Ok([Lit("\n")] + (if Ordinal(key, seen) < |cases| then Plain(cases[Ordinal(key, seen)]) else []))
    case OrderBy(keys, deflt) => OrderPieces(keys, deflt, Selected(key, seen))
    case InAny(param) => Ok([Lit("= ANY("), Ph(Bind(false, param, 0)), Lit(")")])
    case InList(param, empty) => ListPieces(param, empty, ListArity(key, seen))
    case TreeFrag(preds) =>
      if tree.None? then Ok([Lit("TRUE")])
      else if Validate(tree, preds, caps).Some? then Err(BadTree(Validate(tree, preds, caps).value))
      else Ok(TreePieces(tree.value, preds, 0))
  }

  /** The pieces of one shape, or the first fragment's error. */
  function ComposePieces<V>(frags: seq<Frag>, key: ShapeKey, tree: Tree<V>, caps: Caps, seen: Seen): Result<seq<Piece<Bind>>, ComposeError>
    requires forall f <- frags :: FragOk(f)
  {
    if frags == [] then Ok([])
    else
      match FragPieces(frags[0], key, tree, caps, seen)
      case Err(e) => Err(e)
      case Ok(ps) =>
        match ComposePieces(frags[1..], key, tree, caps, Advance(frags[0], seen))
        case Err(e) => Err(e)
        case Ok(qs) => Ok(ps + qs)
  }

  function Printed(style: Style, st: Emitted<Bind>, r: Result<seq<Piece<Bind>>, ComposeError>): Result<Emitted<Bind>, ComposeError> {
    match r
    case Err(e) => Err(e)
    case Ok(ps) => Ok(Run(style, st, ps))
  }

  /** `ComposeTreeStyle` as a function: the reference every cache access is held to. */
  function Compose<V>(style: Style, frags: seq<Frag>, key: ShapeKey, tree: Tree<V>, caps: Caps): Result<Emitted<Bind>, ComposeError>
    requires TableOk(frags)
  {
    Printed(style, Nothing(), ComposePieces(frags, key, tree, caps, Seen(0, 0, 0)))
  }

  // ---------------------------------------------------------------- the emission loops

  /** Two's-complement truncation to int16. */
  function ToInt16(x: int): int { (x + 0x8000) % 0x1_0000 - 0x8000 }

  class Composer {
    const style: Style
    var b: string
    var binds: seq<Bind>
    var treeArgBase: int

    constructor (style: Style)
      ensures this.style == style && State() == Nothing() && treeArgBase == 0
    {
      this.style := style;
      b, binds, treeArgBase := "", [], 0;
    }

    ghost function State(): Emitted<Bind>
      reads this
    {
      Emitted(b, binds)
    }

    method Place(bd: Bind)
      modifies this
      ensures State() == Step(style, old(State()), Ph(bd)) && treeArgBase == old(treeArgBase)
    {
      if style.Question? {
        binds := binds + [bd];
        b := b + "?";
        return;
      }
      var n := 0;
      for i := 0 to |binds|
        invariant n == 0 && forall j :: 0 <= j < i ==> binds[j] != bd
      {
        if binds[i] == bd {
          n := i + 1;
          FindIsFirst(binds, bd, i);
          break;
        }
      }
      if n == 0 {
        binds := binds + [bd];
        n := |binds|;
      }
      b := b + "$";
      b := b + Digits.Dec(n);
      assert old(b) + "$" + Digits.Dec(n) == old(b) + ("$" + Digits.Dec(n));
    }

    method Write(t: string)
      modifies this
      ensures State() == Step(style, old(State()), Lit(t)) && treeArgBase == old(treeArgBase)
    {
      b := b + t;
    }

    method EmitFrom(c: Case, fromTree: bool, base: int)
      requires CaseOk(c) && 0 <= base && forall i <- c.idx :: base + i <= MAX_TREE_ARGS
      modifies this
      ensures State() == Run(style, old(State()), CasePieces(c, fromTree, base)) && treeArgBase == old(treeArgBase)
    {
      hide Run, Step, PiecesFrom;
      var last := 0;
      for i := 0 to |c.spans|
        invariant 0 <= last && SpansOk(c, i, last) && treeArgBase == old(treeArgBase)
        invariant Run(style, old(State()), CasePieces(c, fromTree, base)) == Run(style, State(), PiecesFrom(c, fromTree, base, i, last))
      {
        assert c.idx[i] in c.idx;
        SpanStep(style, State(), c, fromTree, base, i, last);
        Write(c.text[last..c.spans[i].start]);
        Place(Bind(fromTree, ToInt16(base + c.idx[i]), 0));
        last := c.spans[i].end;
      }
      LastSpan(style, State(), c, fromTree, base, last);
      Write(c.text[last..]);
    }

    /** A filter tree in preorder. The int16 additions of the source never wrap: the
        validated argument budget keeps base plus arity within range. */
    method EmitTree<V>(n: Node<V>, preds: seq<Case>)
      requires forall c <- preds :: CaseOk(c)
      requires ValidateNode(n, preds).None?
      requires 0 <= treeArgBase && treeArgBase + |Args(n)| <= MAX_TREE_ARGS
      modifies this
      ensures State() == Run(style, old(State()), TreePieces(n, preds, old(treeArgBase)))
      ensures treeArgBase == old(treeArgBase) + |Args(n)|
      decreases n, 1
    {
      hide Run, Step, CasePieces;
      match n {
        case True =>
          Single(style, State(), Lit("TRUE"));
          Write("TRUE");
        case Leaf(pred, args) =>
          Wrapped(style, State(), CasePieces(preds[pred], true, treeArgBase));
          ArityBounds(preds[pred].idx, |args|);
          assert forall i <- preds[pred].idx :: i < |args|;
          Write("(");
          EmitFrom(preds[pred], true, treeArgBase);
          Write(")");
          treeArgBase := ToInt16(treeArgBase + ToInt16(|args|));
        case And(kids) =>
          Wrapped(style, State(), KidPieces(kids, preds, treeArgBase, " AND ", true));
          Write("(");
          EmitKids(kids, preds, " AND ", true);
          Write(")");
        case Or(kids) =>
          Wrapped(style, State(), KidPieces(kids, preds, treeArgBase, " OR ", true));
          Write("(");
          EmitKids(kids, preds, " OR ", true);
          Write(")");
      }
    }

    method EmitKids<V>(ks: seq<Node<V>>, preds: seq<Case>, sep: string, first: bool)
      requires forall c <- preds :: CaseOk(c)
      requires ValidateKids(ks, preds).None?
      requires 0 <= treeArgBase && treeArgBase + |ArgsOf(ks)| <= MAX_TREE_ARGS
      modifies this
      ensures State() == Run(style, old(State()), KidPieces(ks, preds, old(treeArgBase), sep, first))
      ensures treeArgBase == old(treeArgBase) + |ArgsOf(ks)|
      decreases ks, 0
    {
      hide Run, Step;
      if ks == [] {
        Empty(style, State());
        return;
      }
      ghost var head := TreePieces(ks[0], preds, treeArgBase);
      ghost var rest := KidPieces(ks[1..], preds, treeArgBase + |Args(ks[0])|, sep, false);
      Separated(style, State(), sep, first, head, rest);
      if !first {
        Write(sep);
      }
      EmitTree(ks[0], preds);
      EmitKids(ks[1..], preds, sep, false);
    }

    method EmitAllKeys(keys: seq<Case>)
      requires forall c <- keys :: CaseOk(c)
      modifies this
      ensures State() == Run(style, old(State()), AllKeys(keys, true)) && treeArgBase == old(treeArgBase)
    {
      hide Run, Step, CasePieces;
      for i := 0 to |keys|
        invariant treeArgBase == old(treeArgBase)
        invariant Run(style, old(State()), AllKeys(keys, true)) == Run(style, State(), AllKeys(keys[i..], i == 0))
      {
        assert keys[i..][1..] == keys[i + 1..] && keys[i] in keys;
        Separated(style, State(), ", ", i == 0, Plain(keys[i]), AllKeys(keys[i + 1..], false));
        if i > 0 {
          Write(", ");
        }
        EmitFrom(keys[i], false, 0);
      }
      Empty(style, State());
    }

    method EmitPickedKeys(keys: seq<Case>, picked: seq<nat>) returns (ok: bool)
      requires forall c <- keys :: CaseOk(c)
      modifies this
      ensures ok <==> PickedKeys(keys, picked, true).Ok?
      ensures !ok ==> PickedKeys(keys, picked, true) == Err(OrderRange)
      ensures ok ==> State() == Run(style, old(State()), PickedKeys(keys, picked, true).value) && treeArgBase == old(treeArgBase)
    {
      hide Run, Step, CasePieces;
      for i := 0 to |picked|
        invariant treeArgBase == old(treeArgBase)
        invariant PickedKeys(keys, picked[i..], i == 0).Ok? == PickedKeys(keys, picked, true).Ok?
        invariant PickedKeys(keys, picked, true).Ok? ==>
          Run(style, old(State()), PickedKeys(keys, picked, true).value) == Run(style, State(), PickedKeys(keys, picked[i..], i == 0).value)
      {
        assert picked[i..][1..] == picked[i + 1..];
        var e := picked[i];
        if e / 2 >= |keys| {
          return false;
        }
        ghost var desc: seq<Piece<Bind>> := if e % 2 == 1 then [Lit(" DESC")] else [];
        ghost var next := PickedKeys(keys, picked[i + 1..], false);
        if next.Ok? {
          Separated(style, State(), ", ", i == 0, Plain(keys[e / 2]) + desc, next.value);
          assert (if i == 0 then [] else [Lit(", ")]) + (Plain(keys[e / 2]) + desc) + next.value == PickedKeys(keys, picked[i..], i == 0).value;
        }
        if i > 0 {
          Write(", ");
        }
        RunConcat(style, State(), Plain(keys[e / 2]), desc);
        EmitFrom(keys[e / 2], false, 0);
        if e % 2 == 1 {
          Single(style, State(), Lit(" DESC"));
          Write(" DESC");
        } else {
          Empty(style, State());
        }
      }
      if PickedKeys(keys, picked, true).Ok? {
        Empty(style, State());
      }
      ok := true;
    }

    method EmitOrder(keys: seq<Case>, deflt: Option<Case>, sel: Option<seq<nat>>) returns (ok: bool)
      requires FragOk(OrderBy(keys, deflt))
      modifies this
      ensures ok <==> OrderPieces(keys, deflt, sel).Ok?
      ensures !ok ==> OrderPieces(keys, deflt, sel) == Err(OrderRange)
      ensures ok ==> State() == Run(style, old(State()), OrderPieces(keys, deflt, sel).value) && treeArgBase == old(treeArgBase)
    {
      hide Run, Step, CasePieces, PickedKeys, AllKeys;
      ok := true;
      if sel.None? {
        Double(style, State(), Lit("\n"), Lit("ORDER BY "), AllKeys(keys, true));
        Write("\n");
        Write("ORDER BY ");
        EmitAllKeys(keys);
      } else if sel.value == [] {
        Cons(style, State(), Lit("\n"), OrderPieces(keys, deflt, sel).value[1..]);
        assert OrderPieces(keys, deflt, sel).value == [Lit("\n")] + OrderPieces(keys, deflt, sel).value[1..];
        Write("\n");
        if deflt.Some? && deflt.value.text != "" {
          EmitFrom(deflt.value, false, 0);
        } else {
          Empty(style, State());
        }
      } else {
        if PickedKeys(keys, sel.value, true).Ok? {
          Double(style, State(), Lit("\n"), Lit("ORDER BY "), PickedKeys(keys, sel.value, true).value);
        }
        Write("\n");
        Write("ORDER BY ");
        ok := EmitPickedKeys(keys, sel.value);
      }
    }

    method EmitList(param: int, empty: string, n: int) returns (ok: bool)
      requires 0 <= param < MAX_TREE_ARGS
      modifies this
      ensures ok <==> ListPieces(param, empty, n).Ok?
      ensures !ok ==> ListPieces(param, empty, n) == Err(KeyLimit)
      ensures ok ==> State() == Run(style, old(State()), ListPieces(param, empty, n).value) && treeArgBase == old(treeArgBase)
    {
      hide Run, Step;
      ok := true;
      if n <= 0 {
        Single(style, State(), Lit(if empty != "" then empty else IN_EMPTY_FALLBACK));
        Write(if empty != "" then empty else IN_EMPTY_FALLBACK);
        return;
      }
      if n > MAX_IN_ARITY {
        return false;
      }
      Around(style, State(), "IN (", ElemPieces(param, 1, n));
      Write("IN (");
      ghost var start := State();
      for e := 1 to n + 1
        invariant treeArgBase == old(treeArgBase)
        invariant Run(style, start, ElemPieces(param, 1, n)) == Run(style, State(), ElemPieces(param, e, n))
      {
        Separated(style, State(), ", ", e == 1, [Ph(Bind(false, param, e))], ElemPieces(param, e + 1, n));
        if e > 1 {
          Write(", ");
        }
        Single(style, State(), Ph(Bind(false, param, e)));
        Place(Bind(false, param, ToInt16(e)));
      }
      Empty(style, State());
      Write(")");
    }

    method EmitGuarded(body: Case, sep: Sep, active: bool)
      requires CaseOk(body)
      modifies this
      ensures treeArgBase == old(treeArgBase)
      ensures State() == Run(style, old(State()), GuardedPieces(body, sep, active))
    {
      hide Run, Step, CasePieces;
      if !active {
        Empty(style, State());
        return;
      }
      ghost var close: seq<Piece<Bind>> := if sep.SepAnd? then [Lit(")")] else [];
      ghost var st := State();
      RunConcat(style, st, [Lit("\n")] + GuardOpen(sep) + Plain(body), close);
      RunConcat(style, st, [Lit("\n")] + GuardOpen(sep), Plain(body));
      Cons(style, st, Lit("\n"), GuardOpen(sep));
      Write("\n");
      match sep {
        case SepAnd =>
          Single(style, State(), Lit("AND ("));
          Write("AND (");
        case SepComma =>
          Single(style, State(), Lit(", "));
          Write(", ");
        case SepNone =>
          Empty(style, State());
      }
      EmitFrom(body, false, 0);
      if sep.SepAnd? {
        Single(style, State(), Lit(")"));
        Write(")");
      } else {
        Empty(style, State());
      }
    }

    method EmitChoose(cases: seq<Case>, ord: nat)
      requires forall c <- cases :: CaseOk(c)
      modifies this
      ensures State() == Run(style, old(State()), [Lit("\n")] + (if ord < |cases| then Plain(cases[ord]) else []))
      ensures treeArgBase == old(treeArgBase)
    {
      hide Run, Step, CasePieces;
      Cons(style, State(), Lit("\n"), if ord < |cases| then Plain(cases[ord]) else []);
      Write("\n");
      if ord < |cases| {
        EmitFrom(cases[ord], false, 0);
      } else {
        Empty(style, State());
      }
    }

    method EmitAny(param: int)
      modifies this
      ensures State() == Run(style, old(State()), [Lit("= ANY("), Ph(Bind(false, param, 0)), Lit(")")])
      ensures treeArgBase == old(treeArgBase)
    {
      hide Run, Step;
      Around(style, State(), "= ANY(", [Ph(Bind(false, param, 0))]);
      assert [Lit("= ANY(")] + [Ph(Bind(false, param, 0))] + [Lit(")")] == [Lit("= ANY("), Ph(Bind(false, param, 0)), Lit(")")];
      Write("= ANY(");
      Single(style, State(), Ph(Bind(false, param, 0)));
      Place(Bind(false, param, 0));
      Write(")");
    }

    /** One turn of the composer's loop over the fragment table. */
    method EmitFrag<V>(f: Frag, key: ShapeKey, tree: Tree<V>, caps: Caps, seen: Seen) returns (err: Option<ComposeError>)
      requires FragOk(f)
      requires f.TreeFrag? ==> treeArgBase == 0
      modifies this
      ensures err.Some? <==> FragPieces(f, key, tree, caps, seen).Err?
      ensures err.Some? ==> FragPieces(f, key, tree, caps, seen) == Err(err.value)
      ensures err.None? ==> State() == Run(style, old(State()), FragPieces(f, key, tree, caps, seen).value)
      ensures !f.TreeFrag? && err.None? ==> treeArgBase == old(treeArgBase)
    {
      hide Run, Step, CasePieces, OrderPieces, ListPieces, TreePieces, GuardedPieces, Active, Ordinal, Selected, ListArity;
      err := None;
      match f {
        case Skel(body) =>
          EmitFrom(body, false, 0);
        case Guarded(body, mask, sep) =>
          EmitGuarded(body, sep, Active(key, mask));
        case Choose(cases) =>
          EmitChoose(cases, Ordinal(key, seen));
        case OrderBy(keys, deflt) =>
          var ok := EmitOrder(keys, deflt, Selected(key, seen));
          err := if ok then None else Some(OrderRange);
        case InAny(param) =>
          EmitAny(param);
        case InList(param, empty) =>
          var ok := EmitList(param, empty, ListArity(key, seen));
          err := if ok then None else Some(KeyLimit);
        case TreeFrag(preds) =>
          if tree.None? {
            Single(style, State(), Lit("TRUE"));
            Write("TRUE");
          } else if Validate(tree, preds, caps).Some? {
            err := Some(BadTree(Validate(tree, preds, caps).value));
          } else {
            EmitTree(tree.value, preds);
          }
      }
    }
  }

  /** `ComposeTreeStyle`. */
  method ComposeTreeStyle<V>(style: Style, frags: seq<Frag>, key: ShapeKey, tree: Tree<V>, caps: Caps)
      returns (r: Result<Emitted<Bind>, ComposeError>)
    requires TableOk(frags)
    ensures r == Compose(style, frags, key, tree, caps)
  {
    hide Run, FragPieces;
    var co := new Composer(style);
    var seen := Seen(0, 0, 0);
    assert frags[0..] == frags;
    for i := 0 to |frags|
      invariant (forall j :: 0 <= j < i ==> !frags[j].TreeFrag?) ==> co.treeArgBase == 0
      invariant Compose(style, frags, key, tree, caps) ==
        Printed(style, co.State(), ComposePieces(frags[i..], key, tree, caps, seen))
    {
      assert frags[i..][1..] == frags[i + 1..];
      ghost var now := FragPieces(frags[i], key, tree, caps, seen);
      ghost var rest := ComposePieces(frags[i + 1..], key, tree, caps, Advance(frags[i], seen));
      if now.Ok? && rest.Ok? {
        RunConcat(style, co.State(), now.value, rest.value);
      }
      var err := co.EmitFrag(frags[i], key, tree, caps, seen);
      if err.Some? {
        return Err(err.value);
      }
      seen := Advance(frags[i], seen);
    }
    Empty(style, co.State());
    r := Ok(Emitted(co.b, co.binds));
  }

  // ---------------------------------------------------------------- runs of few pieces

  lemma {:induction false} Empty<S>(style: Style, st: Emitted<S>)
    ensures Run(style, st, []) == st
  {
  }

  lemma {:induction false} Single<S>(style: Style, st: Emitted<S>, p: Piece<S>)
    ensures Run(style, st, [p]) == Step(style, st, p)
  {
    Cons(style, st, p, []);
    assert [p] + [] == [p];
  }

  lemma {:induction false} Double<S>(style: Style, st: Emitted<S>, p: Piece<S>, q: Piece<S>, ps: seq<Piece<S>>)
    ensures Run(style, st, [p, q] + ps) == Run(style, Step(style, Step(style, st, p), q), ps)
  {
    assert [p, q] + ps == [p] + ([q] + ps);
    Cons(style, st, p, [q] + ps);
    Cons(style, Step(style, st, p), q, ps);
  }

  lemma {:induction false} Around<S>(style: Style, st: Emitted<S>, open: string, ps: seq<Piece<S>>)
    ensures Run(style, st, [Lit(open)] + ps + [Lit(")")]) == Step(style, Run(style, Step(style, st, Lit(open)), ps), Lit(")"))
  {
    RunConcat(style, st, [Lit(open)] + ps, [Lit(")")]);
    Cons(style, st, Lit(open), ps);
    Single(style, Run(style, Step(style, st, Lit(open)), ps), Lit(")"));
  }

  lemma {:induction false} Wrapped<S>(style: Style, st: Emitted<S>, ps: seq<Piece<S>>)
    ensures Run(style, st, [Lit("(")] + ps + [Lit(")")]) == Step(style, Run(style, Step(style, st, Lit("(")), ps), Lit(")"))
  {
    Around(style, st, "(", ps);
  }

  /** A list element: the separator first, unless it is the first element. */
  lemma Separated<S>(style: Style, st: Emitted<S>, sep: string, first: bool, ps: seq<Piece<S>>, rest: seq<Piece<S>>)
    ensures Run(style, st, (if first then [] else [Lit(sep)]) + ps + rest) ==
      Run(style, Run(style, if first then st else Step(style, st, Lit(sep)), ps), rest)
  {
    var s: seq<Piece<S>> := if first then [] else [Lit(sep)];
    RunConcat(style, st, s + ps, rest);
    if first {
      assert s + ps == ps;
    } else {
      Cons(style, st, Lit(sep), ps);
    }
  }

  lemma SpanStep(style: Style, st: Emitted<Bind>, c: Case, fromTree: bool, base: nat, k: nat, last: nat)
    requires |c.spans| == |c.idx| && k < |c.spans| && SpansOk(c, k, last)
    ensures Run(style, st, PiecesFrom(c, fromTree, base, k, last)) ==
      Run(style, Step(style, Step(style, st, Lit(c.text[last..c.spans[k].start])), Ph(Bind(fromTree, base + c.idx[k], 0))),
          PiecesFrom(c, fromTree, base, k + 1, c.spans[k].end))
  {
    hide Step;
    var p, q, rest := Lit(c.text[last..c.spans[k].start]), Ph(Bind(fromTree, base + c.idx[k], 0)), PiecesFrom(c, fromTree, base, k + 1, c.spans[k].end);
    assert PiecesFrom(c, fromTree, base, k, last) == [p] + ([q] + rest);
    Cons(style, st, p, [q] + rest);
    Cons(style, Step(style, st, p), q, rest);
  }

  lemma {:induction false} LastSpan(style: Style, st: Emitted<Bind>, c: Case, fromTree: bool, base: nat, last: nat)
    requires |c.spans| == |c.idx| && SpansOk(c, |c.spans|, last)
    ensures Run(style, st, PiecesFrom(c, fromTree, base, |c.spans|, last)) == Step(style, st, Lit(c.text[last..]))
  {
    Cons(style, st, Lit(c.text[last..]), []);
    assert PiecesFrom(c, fromTree, base, |c.spans|, last) == [Lit(c.text[last..])] + [];
  }

  lemma {:induction false} FindIsFirst<S>(s: seq<S>, x: S, i: nat)
    requires i < |s| && s[i] == x && forall j :: 0 <= j < i ==> s[j] != x
    ensures Find(s, x) == i
  {
  }

  lemma {:induction false} Cons<S>(style: Style, st: Emitted<S>, p: Piece<S>, ps: seq<Piece<S>>)
    ensures Run(style, st, [p] + ps) == Run(style, Step(style, st, p), ps)
  {
    assert ([p] + ps)[1..] == ps;
  }
}
