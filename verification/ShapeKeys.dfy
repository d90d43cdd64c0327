/**
 Shape keys (runtime/runtime.go): the canonical encoding that indexes every cache,
 the full comparison made on top of it, and the proof that the two agree.
 */
module ShapeKeys {
  import opened Core
  import opened Digits
  import opened FilterTree

  type uint64 = x: nat | x < 0x1_0000_0000_0000_0000

  /** `orders[i]` is `None` for the nil sequence (all keys), `Some([])` for
      default-or-omit. `trees` holds tree encodings. */
  datatype ShapeKey = ShapeKey(
    guards: uint64,
    choices: seq<nat>,
    orders: seq<Option<seq<nat>>>,
    trees: seq<string>,
    arities: seq<int>)

  /** Keys whose tree component was written by `Encode`. */
  ghost predicate Canonical(k: ShapeKey) { forall x <- k.trees :: IsEncoding(x) }

  // ---------------------------------------------------------------- encoding

  function Joined<T>(e: T -> string, sep: char, xs: seq<T>): string {
    if xs == [] then ""
    else if |xs| == 1 then e(xs[0])
    else e(xs[0]) + ([sep] + Joined(e, sep, xs[1..]))
  }

  function OrderElem(x: nat): string { Dec(x / 2) + (if x % 2 == 1 then "d" else "a") }

  function Order(o: Option<seq<nat>>): string {
    if o.None? then "*"
    else if o.value == [] then "-"
    else Joined(OrderElem, ',', o.value)
  }

  function Section(tag: char, present: bool, body: string): string {
    if present then [';', tag, '='] + body else ""
  }

  function ArityTail(k: ShapeKey): string { Section('n', k.arities != [], Joined(Int, ',', k.arities)) }

  function TreeTail(k: ShapeKey): string { Section('t', k.trees != [], Joined(Text, '|', k.trees)) + ArityTail(k) }

  function OrderTail(k: ShapeKey): string { Section('o', k.orders != [], Joined(Order, '|', k.orders)) + TreeTail(k) }

  function ChoiceTail(k: ShapeKey): string { Section('c', k.choices != [], Joined(Dec, ',', k.choices)) + OrderTail(k) }

  function String(k: ShapeKey): string { "g=" + (Num(16, k.guards) + ChoiceTail(k)) }

  function Text(x: string): string { x }

  /** Elements of `dom` are read back whatever follows, as long as `stop` holds of it. */
  ghost predicate Readable<T(!new)>(e: T -> string, dom: T -> bool, stop: string -> bool) {
    forall x, y, r, s :: ReadsAt(e, dom, stop, x, y, r, s)
  }

  ghost predicate ReadsAt<T>(e: T -> string, dom: T -> bool, stop: string -> bool, x: T, y: T, r: string, s: string) {
    dom(x) && dom(y) && stop(r) && stop(s) && e(x) + r == e(y) + s ==> x == y && r == s
  }

  function After<T>(e: T -> string, sep: char, xs: seq<T>, r: string): string
    requires xs != []
  {
    if |xs| == 1 then r else [sep] + (Joined(e, sep, xs[1..]) + r)
  }

  lemma {:induction false} JoinedHead<T>(e: T -> string, sep: char, xs: seq<T>, r: string)
    requires xs != []
    ensures Joined(e, sep, xs) + r == e(xs[0]) + After(e, sep, xs, r)
  {
    if |xs| > 1 {
      var x, y := e(xs[0]), Joined(e, sep, xs[1..]);
      assert (x + ([sep] + y)) + r == x + ([sep] + (y + r));
    }
  }

  /** Lists of readable elements are readable, whatever stops an element and is not
      itself the separator. */
  lemma {:induction false} ListReads<T(!new)>(
      e: T -> string, dom: T -> bool, stop: string -> bool, sep: char,
      xs: seq<T>, r: string, ys: seq<T>, s: string)
    requires Readable(e, dom, stop)
    requires forall t :: stop([sep] + t)
    requires forall x <- xs :: dom(x)
    requires forall y <- ys :: dom(y)
    requires xs != [] && ys != []
    requires stop(r) && (r == "" || r[0] != sep)
    requires stop(s) && (s == "" || s[0] != sep)
    requires Joined(e, sep, xs) + r == Joined(e, sep, ys) + s
    ensures xs == ys && r == s
    decreases |xs|
  {
    hide Joined;
    JoinedHead(e, sep, xs, r);
    JoinedHead(e, sep, ys, s);
    var t, u := After(e, sep, xs, r), After(e, sep, ys, s);
    assert ReadsAt(e, dom, stop, xs[0], ys[0], t, u);
    assert |xs| > 1 ==> t[0] == sep;
    assert |ys| > 1 ==> u[0] == sep;
    assert (|xs| == 1) == (|ys| == 1);
    if |xs| > 1 {
      Cancel([sep], Joined(e, sep, xs[1..]) + r, Joined(e, sep, ys[1..]) + s);
      ListReads(e, dom, stop, sep, xs[1..], r, ys[1..], s);
    }
    assert xs == [xs[0]] + xs[1..] && ys == [ys[0]] + ys[1..];
  }

  // ---------------------------------------------------------------- elements

  predicate NoDigit(r: string) { Stops(10, r) }

  predicate NoComma(r: string) { r == "" || r[0] != ',' }

  predicate Anything(r: string) { true }

  ghost predicate AllOf<T>(x: T) { true }

  lemma DecReadable()
    ensures Readable(Dec, AllOf, NoDigit)
  {
    forall x, y, r, s ensures ReadsAt(Dec, AllOf, NoDigit, x, y, r, s) {
      if NoDigit(r) && NoDigit(s) && Dec(x) + r == Dec(y) + s {
        DecReads(x, r, y, s);
      }
    }
  }

  lemma IntReadable()
    ensures Readable(Int, AllOf, NoDigit)
  {
    forall x, y, r, s ensures ReadsAt(Int, AllOf, NoDigit, x, y, r, s) {
      if NoDigit(r) && NoDigit(s) && Int(x) + r == Int(y) + s {
        IntReads(x, r, y, s);
      }
    }
  }

  lemma TextReadable()
    ensures Readable(Text, IsEncoding, NoDigit)
  {
    forall x, y, r, s ensures ReadsAt(Text, IsEncoding, NoDigit, x, y, r, s) {
      if IsEncoding(x) && IsEncoding(y) && NoDigit(r) && NoDigit(s) && x + r == y + s {
        EncodingReads(x, r, y, s);
      }
    }
  }

  lemma OrderElemReads(x: nat, r: string, y: nat, s: string)
    requires OrderElem(x) + r == OrderElem(y) + s
    ensures x == y && r == s
  {
    var c, d := if x % 2 == 1 then "d" else "a", if y % 2 == 1 then "d" else "a";
    assert OrderElem(x) + r == Dec(x / 2) + (c + r) && OrderElem(y) + s == Dec(y / 2) + (d + s);
    DecReads(x / 2, c + r, y / 2, d + s);
    assert (c + r)[0] == c[0] && (d + s)[0] == d[0];
    Cancel(c, r, s);
  }

  lemma OrderElemReadable()
    ensures Readable(OrderElem, AllOf, Anything)
  {
    forall x, y, r, s ensures ReadsAt(OrderElem, AllOf, Anything, x, y, r, s) {
      if OrderElem(x) + r == OrderElem(y) + s {
        OrderElemReads(x, r, y, s);
      }
    }
  }

  lemma OrderHead(o: Option<seq<nat>>, r: string)
    ensures Order(o) != "" && (Order(o) + r)[0] == Order(o)[0]
    ensures o.None? <==> Order(o)[0] == '*'
    ensures o == Some([]) <==> Order(o)[0] == '-'
  {
    if o.Some? && o.value != [] {
      JoinedHead(OrderElem, ',', o.value, "");
      var d := Dec(o.value[0] / 2);
      assert d[0] in d;
      assert Order(o) + "" == Order(o);
    }
  }

  lemma OrderReads(o: Option<seq<nat>>, r: string, p: Option<seq<nat>>, s: string)
    requires Order(o) + r == Order(p) + s && NoComma(r) && NoComma(s)
    ensures o == p && r == s
  {
    OrderHead(o, r);
    OrderHead(p, s);
    if o.None? {
      Cancel("*", r, s);
    } else if o.value == [] {
      Cancel("-", r, s);
    } else {
      OrderElemReadable();
      ListReads(OrderElem, AllOf, Anything, ',', o.value, r, p.value, s);
    }
  }

  lemma OrderReadable()
    ensures Readable(Order, AllOf, NoComma)
  {
    forall x, y, r, s ensures ReadsAt(Order, AllOf, NoComma, x, y, r, s) {
      if NoComma(r) && NoComma(s) && Order(x) + r == Order(y) + s {
        OrderReads(x, r, y, s);
      }
    }
  }

  // ---------------------------------------------------------------- sections

  /** Nothing, or a section whose tag is one of `tags`. */
  ghost predicate Tagged(t: string, tags: set<char>) {
    t == "" || (|t| >= 2 && t[0] == ';' && t[1] in tags)
  }

  /** One optional section in front of differently tagged ones: presence and
      everything from the body on can be told from the text. */
  lemma SectionReads(tag: char, p: bool, body: string, t: string, q: bool, body': string, u: string, tags: set<char>)
    requires Tagged(t, tags) && Tagged(u, tags) && tag !in tags
    requires Section(tag, p, body) + t == Section(tag, q, body') + u
    ensures p == q && (p ==> body + t == body' + u) && (!p ==> t == u)
    ensures Tagged(Section(tag, p, body) + t, tags + {tag})
  {
    var head := [';', tag, '='];
    assert p ==> Section(tag, p, body) + t == head + (body + t);
    assert q ==> Section(tag, q, body') + u == head + (body' + u);
    assert !p ==> Section(tag, p, body) + t == t;
    assert !q ==> Section(tag, q, body') + u == u;
    assert p == q;
    if p {
      Cancel(head, body + t, body' + u);
    }
  }

  lemma TailsTagged(k: ShapeKey)
    ensures Tagged(ArityTail(k), {'n'}) && Tagged(TreeTail(k), {'n', 't'})
    ensures Tagged(OrderTail(k), {'n', 't', 'o'}) && Tagged(ChoiceTail(k), {'n', 't', 'o', 'c'})
  {
    hide Joined;
    var a, t, o, c := ArityTail(k), TreeTail(k), OrderTail(k), ChoiceTail(k);
    assert k.trees == [] ==> t == a;
    assert k.orders == [] ==> o == t;
    assert k.choices == [] ==> c == o;
  }

  lemma AritiesRead(k: ShapeKey, l: ShapeKey)
    requires ArityTail(k) == ArityTail(l)
    ensures k.arities == l.arities
  {
    hide Joined;
    var b, b' := Joined(Int, ',', k.arities), Joined(Int, ',', l.arities);
    assert Section('n', k.arities != [], b) + "" == ArityTail(k);
    assert Section('n', l.arities != [], b') + "" == ArityTail(l);
    SectionReads('n', k.arities != [], b, "", l.arities != [], b', "", {});
    if k.arities != [] {
      IntReadable();
      ListReads(Int, AllOf, NoDigit, ',', k.arities, "", l.arities, "");
    }
  }

  lemma TreesRead(k: ShapeKey, l: ShapeKey)
    requires Canonical(k) && Canonical(l) && TreeTail(k) == TreeTail(l)
    ensures k.trees == l.trees && k.arities == l.arities
  {
    hide Joined;
    TailsTagged(k);
    TailsTagged(l);
    SectionReads('t', k.trees != [], Joined(Text, '|', k.trees), ArityTail(k),
                 l.trees != [], Joined(Text, '|', l.trees), ArityTail(l), {'n'});
    if k.trees != [] {
      TextReadable();
      ListReads(Text, IsEncoding, NoDigit, '|', k.trees, ArityTail(k), l.trees, ArityTail(l));
    }
    AritiesRead(k, l);
  }

  lemma OrdersRead(k: ShapeKey, l: ShapeKey)
    requires Canonical(k) && Canonical(l) && OrderTail(k) == OrderTail(l)
    ensures k.orders == l.orders && k.trees == l.trees && k.arities == l.arities
  {
    hide Joined, TreeTail;
    TailsTagged(k);
    TailsTagged(l);
    SectionReads('o', k.orders != [], Joined(Order, '|', k.orders), TreeTail(k),
                 l.orders != [], Joined(Order, '|', l.orders), TreeTail(l), {'n', 't'});
    if k.orders != [] {
      OrderReadable();
      ListReads(Order, AllOf, NoComma, '|', k.orders, TreeTail(k), l.orders, TreeTail(l));
    }
    TreesRead(k, l);
  }

  lemma ChoicesRead(k: ShapeKey, l: ShapeKey)
    requires Canonical(k) && Canonical(l) && ChoiceTail(k) == ChoiceTail(l)
    ensures k.(guards := 0) == l.(guards := 0)
  {
    hide Joined, OrderTail;
    TailsTagged(k);
    TailsTagged(l);
    SectionReads('c', k.choices != [], Joined(Dec, ',', k.choices), OrderTail(k),
                 l.choices != [], Joined(Dec, ',', l.choices), OrderTail(l), {'n', 't', 'o'});
    if k.choices != [] {
      DecReadable();
      ListReads(Dec, AllOf, NoDigit, ',', k.choices, OrderTail(k), l.choices, OrderTail(l));
    }
    OrdersRead(k, l);
  }

  /** The encoding is an identity, not just an index: canonical keys with the same
      text are the same key, `nil` and empty order sequences included. */
  lemma KeyCanonicity(k: ShapeKey, l: ShapeKey)
    requires Canonical(k) && Canonical(l)
    ensures String(k) == String(l) <==> k == l
  {
    hide ChoiceTail;
    if String(k) == String(l) {
      Cancel("g=", Num(16, k.guards) + ChoiceTail(k), Num(16, l.guards) + ChoiceTail(l));
      TailsTagged(k);
      TailsTagged(l);
      NumReads(16, k.guards, ChoiceTail(k), l.guards, ChoiceTail(l));
      ChoicesRead(k, l);
    }
  }

  // ---------------------------------------------------------------- the loops

  lemma {:induction false} JoinedSnoc<T>(e: T -> string, sep: char, xs: seq<T>, x: T)
    ensures Joined(e, sep, xs + [x]) == if xs == [] then e(x) else Joined(e, sep, xs) + ([sep] + e(x))
  {
    if xs != [] {
      assert (xs + [x])[1..] == xs[1..] + [x];
      JoinedSnoc(e, sep, xs[1..], x);
      if |xs| > 1 {
        var h, t, l := e(xs[0]), Joined(e, sep, xs[1..]), [sep] + e(x);
        assert h + ([sep] + (t + l)) == (h + ([sep] + t)) + l;
      }
    }
  }

  /** Every list of the key is written by the same loop: separator before all but
      the first element. */
  method AppendJoined<T>(dst: string, e: T -> string, sep: char, xs: seq<T>) returns (out: string)
    ensures out == dst + Joined(e, sep, xs)
  {
    out := dst;
    for i := 0 to |xs|
      invariant out == dst + Joined(e, sep, xs[..i])
    {
      assert xs[..i + 1] == xs[..i] + [xs[i]];
      JoinedSnoc(e, sep, xs[..i], xs[i]);
      ghost var before := Joined(e, sep, xs[..i]);
      if i > 0 {
        out := out + [sep];
      }
      out := out + e(xs[i]);
      assert i > 0 ==> (dst + before) + [sep] + e(xs[i]) == dst + (before + ([sep] + e(xs[i])));
    }
    assert xs[..|xs|] == xs;
  }

  /** One optional list of the key: nothing at all when it is empty. */
  method AppendSection<T>(dst: string, tag: char, e: T -> string, sep: char, xs: seq<T>, ghost tail: string, ghost whole: string)
      returns (out: string)
    requires dst + (Section(tag, xs != [], Joined(e, sep, xs)) + tail) == whole
    ensures out + tail == whole
  {
    hide Joined;
    out := dst;
    if |xs| > 0 {
      out := out + [';', tag, '='];
      out := AppendJoined(out, e, sep, xs);
    }
    assert out == dst + Section(tag, xs != [], Joined(e, sep, xs));
  }

  /** `ShapeKey.appendTo` over an empty buffer is `String`; over any buffer it only
      appends. */
  method AppendTo(k: ShapeKey, dst: string) returns (out: string)
    ensures out == dst + String(k)
  {
    hide Joined;
    out := dst + "g=" + Num(16, k.guards);
    ghost var whole := dst + String(k);
    assert out + ChoiceTail(k) == whole by {
      hide ChoiceTail, Num;
    }
    out := AppendSection(out, 'c', Dec, ',', k.choices, OrderTail(k), whole);
    out := AppendSection(out, 'o', Order, '|', k.orders, TreeTail(k), whole);
    out := AppendSection(out, 't', Text, '|', k.trees, ArityTail(k), whole);
    assert ArityTail(k) == Section('n', k.arities != [], Joined(Int, ',', k.arities)) + "";
    out := AppendSection(out, 'n', Int, ',', k.arities, "", whole);
    assert out + "" == out;
  }

  method SameList<T(==)>(a: seq<T>, b: seq<T>) returns (same: bool)
    ensures same <==> a == b
  {
    if |a| != |b| {
      return false;
    }
    for i := 0 to |a|
      invariant a[..i] == b[..i]
    {
      if a[i] != b[i] {
        return false;
      }
      assert a[..i + 1] == a[..i] + [a[i]] && b[..i + 1] == b[..i] + [b[i]];
    }
    assert a[..|a|] == a && b[..|b|] == b;
    return true;
  }

  /** `keysEqual` compares component by component; an order sequence is compared for
      nil-ness and then element by element. */
  method KeysEqual(a: ShapeKey, b: ShapeKey) returns (same: bool)
    ensures same <==> a == b
  {
    var choices := SameList(a.choices, b.choices);
    if a.guards != b.guards || !choices || |a.orders| != |b.orders| || |a.trees| != |b.trees| || |a.arities| != |b.arities| {
      return false;
    }
    for i := 0 to |a.orders|
      invariant a.orders[..i] == b.orders[..i]
    {
      var inner := true;
      if a.orders[i].Some? && b.orders[i].Some? {
        inner := SameList(a.orders[i].value, b.orders[i].value);
      }
      if a.orders[i].None? != b.orders[i].None? || !inner {
        return false;
      }
      assert a.orders[..i + 1] == a.orders[..i] + [a.orders[i]] && b.orders[..i + 1] == b.orders[..i] + [b.orders[i]];
    }
    assert a.orders[..|a.orders|] == a.orders && b.orders[..|b.orders|] == b.orders;
    var trees := SameList(a.trees, b.trees);
    var arities := SameList(a.arities, b.arities);
    return trees && arities;
  }
}
