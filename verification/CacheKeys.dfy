/**
 What a cache access asks for and the text it is looked up under
 (runtime/runtime.go). The lookup text is proved to identify the request up to the
 values at tree leaves, so one stored statement may answer every request that finds it.
 */
module CacheKeys {
  import opened Core
  import opened Digits
  import opened Pieces
  import opened FilterTree
  import opened ShapeKeys
  import opened Composing
  import opened TreeBinds

  /** Values bound at tree leaves; nothing is known of them. */
  type Value(==, !new)

  const DEFAULT_CAPS := Caps(32, 8)

  /** The entry points: `GetStyle`/`GetBindsStyle`, and `GetTreeStyle`, which writes the
      key's tree component itself. */
  datatype Call =
    | Get(style: Style, query: string, key: ShapeKey)
    | GetTree(style: Style, query: string, key: ShapeKey, tree: Tree<Value>, caps: Caps)

  /** One access as `entry` receives it. */
  datatype Request = Request(style: Style, query: string, key: ShapeKey, tree: Tree<Value>, caps: Caps)

  /** Generated code fixes one fragment table per query name. */
  type Tables = map<string, seq<Frag>>

  ghost predicate TablesOk(w: Tables) { forall q <- w :: TableOk(w[q]) }

  type Answer = Result<Emitted<Bind>, ComposeError>

  function RequestOf(call: Call): Request {
    match call
    case Get(style, query, key) => Request(style, query, key, None, DEFAULT_CAPS)
    case GetTree(style, query, key, tree, caps) => Request(style, query, key.(trees := [Encode(tree)]), tree, caps)
  }

  /** A generated call: a known query, and no tree encodings of the caller's own making. */
  predicate CallOk(w: Tables, call: Call) {
    call.query in w && (call.Get? ==> call.key.trees == [])
  }

  /** The rejection that precedes every lookup. */
  function Rejected(w: Tables, r: Request): Option<TreeError>
    requires r.query in w
  {
    if r.tree.None? then None else Validate(r.tree, TreeCases(w[r.query]), r.caps)
  }

  /** What composing the request directly gives. */
  function Composed(w: Tables, r: Request): Answer
    requires r.query in w && TableOk(w[r.query])
  {
    Compose(r.style, w[r.query], r.key, r.tree, r.caps)
  }

  /** The answer a call is owed, whatever the cache holds: an invalid tree is refused,
      anything else is composed from the caller's own style, query, key and tree. */
  function Owed(w: Tables, call: Call): Answer
    requires call.query in w && TableOk(w[call.query])
  {
    match call
    case Get(style, query, key) => Compose(style, w[query], key, Tree<Value>.None, DEFAULT_CAPS)
    case GetTree(style, query, key, tree, caps) =>
      var bad := if tree.None? then None else Validate(tree, TreeCases(w[query]), caps);
      if bad.Some? then Err(BadTree(bad.value)) else Compose(style, w[query], key, tree, caps)
  }

  /** A request past the entry checks. */
  ghost predicate Sound(w: Tables, r: Request) {
    r.query in w && TableOk(w[r.query]) && Rejected(w, r).None? &&
    (r.key.trees == [Encode(r.tree)] || (r.key.trees == [] && r.tree.None?))
  }

  lemma SoundCanonical(w: Tables, r: Request)
    requires Sound(w, r)
    ensures Canonical(r.key)
  {
    EncodeIsEncoding(r.tree);
  }

  /** Composition never reads the key's tree component. */
  lemma {:induction false} TreesUnread<V>(frags: seq<Frag>, key: ShapeKey, trees: seq<string>, t: Tree<V>, caps: Caps, seen: Seen)
    requires forall f <- frags :: FragOk(f)
    ensures ComposePieces(frags, key, t, caps, seen) == ComposePieces(frags, key.(trees := trees), t, caps, seen)
    decreases |frags|
  {
    if frags != [] {
      hide Validate, ListPieces, OrderPieces, TreePieces, CasePieces, GuardedPieces, FragOk;
      var f := frags[0];
      assert FragPieces(f, key, t, caps, seen) == FragPieces(f, key.(trees := trees), t, caps, seen);
      TreesUnread(frags[1..], key, trees, t, caps, Advance(f, seen));
    }
  }

  /** Composing the request that a call turns into is what the call is owed. */
  lemma OwedIsComposed(w: Tables, call: Call)
    requires TablesOk(w) && CallOk(w, call)
    requires call.GetTree? ==> CheckCaps(call.tree, call.caps).None?
    ensures
      var r := RequestOf(call);
      Owed(w, call) == if Rejected(w, r).Some? then Err(BadTree(Rejected(w, r).value)) else Composed(w, r)
    ensures Rejected(w, RequestOf(call)).None? ==> Sound(w, RequestOf(call))
  {
    hide Validate, FragOk;
    if call.GetTree? {
      TreesUnread(w[call.query], call.key, [Encode(call.tree)], call.tree, call.caps, Seen(0, 0, 0));
    }
  }

  /** The cap check in front of the encoding refuses nothing that validation would not. */
  lemma CapsAreValidated(w: Tables, call: Call)
    requires CallOk(w, call) && call.GetTree? && TableOk(w[call.query])
    requires CheckCaps(call.tree, call.caps).Some?
    ensures Owed(w, call) == Err(BadTree(CheckCaps(call.tree, call.caps).value))
  {
  }

  // ---------------------------------------------------------------- lookup text

  function StyleByte(s: Style): char { if s.Dollar? then '0' else '1' }

  function MapKey(style: Style, query: string, key: ShapeKey): string {
    [StyleByte(style), '|'] + (query + ("|" + String(key)))
  }

  function MapKeyOf(r: Request): string { MapKey(r.style, r.query, r.key) }

  /** The letter that only the head of a key encoding contains. */
  predicate Quiet(s: string) { 'g' !in s }

  lemma {:induction false} JoinedQuiet<T>(e: T -> string, sep: char, xs: seq<T>)
    requires sep != 'g' && forall x <- xs :: Quiet(e(x))
    ensures Quiet(Joined(e, sep, xs))
  {
    if |xs| > 1 {
      JoinedQuiet(e, sep, xs[1..]);
    }
  }

  lemma {:induction false} NumQuiet(base: Base, n: nat)
    ensures Quiet(Num(base, n))
  {
  }

  lemma IntQuiet(n: int)
    ensures Quiet(Int(n))
  {
    NumQuiet(10, if n < 0 then -n else n);
  }

  lemma OrderQuiet(o: Option<seq<nat>>)
    ensures Quiet(Order(o))
  {
    if o.Some? && o.value != [] {
      forall x | x in o.value ensures Quiet(OrderElem(x)) {
        NumQuiet(10, x / 2);
      }
      JoinedQuiet(OrderElem, ',', o.value);
    }
  }

  lemma {:induction false} NodeQuiet<V>(n: Node<V>)
    ensures Quiet(EncodeNode(n))
    decreases n, 1
  {
    match n
    case True =>
    case Leaf(pred, _) => IntQuiet(pred);
    case And(kids) => KidsQuiet(kids);
    case Or(kids) => KidsQuiet(kids);
  }

  lemma {:induction false} KidsQuiet<V>(ks: seq<Node<V>>)
    ensures Quiet(EncodeKids(ks))
    decreases ks, 0
  {
    hide EncodeNode;
    if ks != [] {
      NodeQuiet(ks[0]);
      KidsQuiet(ks[1..]);
    }
  }

  lemma EncodingQuiet(x: string)
    requires IsEncoding(x)
    ensures Quiet(x)
  {
    var n: Node<()> :| x == EncodeNode(n);
    NodeQuiet(n);
  }

  lemma TailQuiet(k: ShapeKey)
    requires Canonical(k)
    ensures Quiet(Num(16, k.guards) + ChoiceTail(k))
  {
    hide Joined, Num, IsEncoding;
    NumQuiet(16, k.guards);
    forall x | x in k.choices ensures Quiet(Dec(x)) { NumQuiet(10, x); }
    forall x | x in k.orders ensures Quiet(Order(x)) { OrderQuiet(x); }
    forall x | x in k.trees ensures Quiet(Text(x)) { EncodingQuiet(x); }
    forall x | x in k.arities ensures Quiet(Int(x)) { IntQuiet(x); }
    JoinedQuiet(Dec, ',', k.choices);
    JoinedQuiet(Order, '|', k.orders);
    JoinedQuiet(Text, '|', k.trees);
    JoinedQuiet(Int, ',', k.arities);
  }

  /** The longer of two beginnings would put a second head into a quiet text. */
  lemma NotShorter(p: string, x: string, q: string, y: string)
    requires Quiet(x) && p + ("|g=" + x) == q + ("|g=" + y)
    ensures |p| >= |q|
  {
    var u, v := p + ("|g=" + x), q + ("|g=" + y);
    assert v[|q| + 1] == 'g';
    assert forall i :: |p| + 2 <= i < |u| ==> u[i] == ("=" + x)[i - |p| - 2];
  }

  /** Two texts followed by the head of a key encoding end at the same place. */
  lemma HeadSplits(p: string, x: string, q: string, y: string)
    requires Quiet(x) && Quiet(y)
    requires p + ("|g=" + x) == q + ("|g=" + y)
    ensures p == q && x == y
  {
    var u, v := p + ("|g=" + x), q + ("|g=" + y);
    NotShorter(p, x, q, y);
    NotShorter(q, y, p, x);
    assert p == u[..|p|] && q == v[..|q|];
    Cancel(p, "|g=" + x, "|g=" + y);
    Cancel("|g=", x, y);
  }

  /** The lookup text identifies style, query name and key, for any query name. */
  lemma MapKeyInjective(s: Style, q: string, k: ShapeKey, s': Style, q': string, k': ShapeKey)
    requires Canonical(k) && Canonical(k')
    ensures MapKey(s, q, k) == MapKey(s', q', k') <==> s == s' && q == q' && k == k'
  {
    if MapKey(s, q, k) == MapKey(s', q', k') {
      hide String, Canonical;
      assert MapKey(s, q, k)[0] == StyleByte(s) && MapKey(s', q', k')[0] == StyleByte(s');
      Cancel([StyleByte(s), '|'], q + ("|" + String(k)), q' + ("|" + String(k')));
      hide MapKey;
      var x, x' := Num(16, k.guards) + ChoiceTail(k), Num(16, k'.guards) + ChoiceTail(k');
      QuietHead(k, x);
      QuietHead(k', x');
      HeadSplits(q, x, q', x');
      KeyCanonicity(k, k');
    }
  }

  lemma QuietHead(k: ShapeKey, x: string)
    requires Canonical(k) && x == Num(16, k.guards) + ChoiceTail(k)
    ensures "|" + String(k) == "|g=" + x && String(k) == "g=" + x && Quiet(x)
  {
    hide ChoiceTail, Num, Canonical, Quiet;
    TailQuiet(k);
  }

  /** Requests that find the same entry are owed the same statement and bind plan, even
      when their trees carry different values. */
  lemma SameTextSameAnswer(w: Tables, r: Request, r': Request)
    requires Sound(w, r) && Sound(w, r') && MapKeyOf(r) == MapKeyOf(r')
    ensures r.style == r'.style && r.query == r'.query && r.key == r'.key
    ensures Composed(w, r) == Composed(w, r')
  {
    hide TableOk, Compose, Encode, MapKey, Validate;
    SoundCanonical(w, r);
    SoundCanonical(w, r');
    MapKeyInjective(r.style, r.query, r.key, r'.style, r'.query, r'.key);
    if r.key.trees != [] {
      assert r.key.trees[0] == Encode(r.tree) && r'.key.trees[0] == Encode(r'.tree);
      EqualEncodingEqualStatement(r.style, w[r.query], r.key, r.tree, r'.tree, r.caps, r'.caps);
    } else {
      EqualEncodingEqualStatement(r.style, w[r.query], r.key, r.tree, r'.tree, r.caps, r'.caps);
    }
  }
}
