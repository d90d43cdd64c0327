/**
 `splice` (internal/policy/splice.go): insertions become synthesized items between the
 pieces of the skeleton items they fall into.
 */
module Splicing {

  /** A skeleton item covers template bytes `start..end`; synthesized text covers none and
      is anchored where it was inserted. */
  datatype Item =
    | Skeleton(text: string, start: int, end: int, synth: bool)
    | Construct(id: nat)

  datatype Insertion = Insertion(off: int, prio: int, seqNo: int, text: string)

  // ---------------------------------------------------------------- order

  predicate Less(a: Insertion, b: Insertion) {
    a.off < b.off || (a.off == b.off && (a.prio < b.prio || (a.prio == b.prio && a.seqNo < b.seqNo)))
  }

  predicate InOrder(ins: seq<Insertion>) { forall i, j :: 0 <= i < j < |ins| ==> !Less(ins[j], ins[i]) }

  /** A stable insertion: behind everything that does not come later. */
  function Place(x: Insertion, s: seq<Insertion>): (r: seq<Insertion>)
    ensures multiset(r) == multiset(s) + multiset{x}
  {
    if s == [] then [x]
    else if Less(x, s[0]) then [x] + s
    else
      assert s == [s[0]] + s[1..];
      [s[0]] + Place(x, s[1..])
  }

  /** The order in which `splice` applies its insertions. */
  function Sorted(ins: seq<Insertion>): (r: seq<Insertion>)
    ensures multiset(r) == multiset(ins)
  {
    if ins == [] then []
    else
      var n := |ins| - 1;
      assert ins == ins[..n] + [ins[n]];
      Place(ins[n], Sorted(ins[..n]))
  }

  lemma {:induction false} PlaceMembers(x: Insertion, s: seq<Insertion>)
    ensures forall y :: y in Place(x, s) <==> y == x || y in s
  {
    if s != [] {
      hide Less;
      assert s == [s[0]] + s[1..];
      PlaceMembers(x, s[1..]);
    }
  }

  lemma FrontOrdered(a: Insertion, s: seq<Insertion>)
    requires InOrder(s) && forall y :: y in s ==> !Less(y, a)
    ensures InOrder([a] + s)
  {
    hide Less;
    var r := [a] + s;
    forall i, j | 0 <= i < j < |r| ensures !Less(r[j], r[i]) {
      assert r[j] in s;
    }
  }

  lemma {:induction false} PlaceOrdered(x: Insertion, s: seq<Insertion>)
    requires InOrder(s)
    ensures InOrder(Place(x, s))
  {
    if s != [] {
      assert forall y :: y in s ==> !Less(y, s[0]) by {
        assert !Less(s[0], s[0]);
      }
      if Less(x, s[0]) {
        assert forall y :: y in s ==> !Less(y, x);
        FrontOrdered(x, s);
      } else {
        PlaceOrdered(x, s[1..]);
        PlaceMembers(x, s[1..]);
        FrontOrdered(s[0], Place(x, s[1..]));
      }
    } else {
      assert InOrder([x]);
    }
  }

  lemma {:induction false} SortedOrdered(ins: seq<Insertion>)
    ensures InOrder(Sorted(ins))
  {
    if ins != [] {
      SortedOrdered(ins[..|ins| - 1]);
      PlaceOrdered(ins[|ins| - 1], Sorted(ins[..|ins| - 1]));
    }
  }

  // ---------------------------------------------------------------- targets

  predicate Inside(it: Item, off: int) { it.Skeleton? && it.start <= off < it.end }

  predicate EndsAt(it: Item, off: int) { it.Skeleton? && off == it.end }

  /** The item an offset is interior to, else the last item it ends, else nothing. */
  predicate IsTarget(items: seq<Item>, off: int, k: int) {
    if k < 0 then forall i :: 0 <= i < |items| ==> !Inside(items[i], off) && !EndsAt(items[i], off)
    else
      k < |items| &&
      ((Inside(items[k], off) && forall i :: 0 <= i < k ==> !Inside(items[i], off)) ||
       (EndsAt(items[k], off) && (forall i :: 0 <= i < |items| ==> !Inside(items[i], off)) && forall i :: k < i < |items| ==> !EndsAt(items[i], off)))
  }

  function FirstInside(items: seq<Item>, off: int, i: nat): (k: int)
    requires i <= |items|
    ensures k == -1 || (i <= k < |items| && Inside(items[k], off))
    ensures forall j :: i <= j < (if k < 0 then |items| else k) ==> !Inside(items[j], off)
    decreases |items| - i
  {
    if i == |items| then -1 else if Inside(items[i], off) then i else FirstInside(items, off, i + 1)
  }

  function LastEndsAt(items: seq<Item>, off: int, n: nat): (k: int)
    requires n <= |items|
    ensures k == -1 || (0 <= k < n && EndsAt(items[k], off))
    ensures forall j :: k < j < n ==> !EndsAt(items[j], off)
  {
    if n == 0 then -1 else if EndsAt(items[n - 1], off) then n - 1 else LastEndsAt(items, off, n - 1)
  }

  function Target(items: seq<Item>, off: int): (k: int)
    ensures IsTarget(items, off, k) && -1 <= k < |items|
  {
    var k := FirstInside(items, off, 0);
    if k >= 0 then k else LastEndsAt(items, off, |items|)
  }

  method FindTarget(items: seq<Item>, off: int) returns (target: int)
    ensures target == Target(items, off)
  {
    target := -1;
    var i := 0;
    while i < |items|
      invariant 0 <= i <= |items| && target == -1
      invariant FirstInside(items, off, 0) == FirstInside(items, off, i)
    {
      if Inside(items[i], off) {
        target := i;
        break;
      }
      i := i + 1;
    }
    if target < 0 {
      for j := 0 to |items|
        invariant target == LastEndsAt(items, off, j)
      {
        if EndsAt(items[j], off) {
          target := j;
        }
      }
    }
  }

  // ---------------------------------------------------------------- rebuilding

  function Synth(off: int, text: string): Item { Skeleton(text, off, off, true) }

  predicate Whole(it: Item) { it.Skeleton? ==> !it.synth && it.start <= it.end && |it.text| == it.end - it.start }

  /** Offsets that fall into the item, from `prev` on. */
  predicate Fall(it: Item, ins: seq<Insertion>, prev: int) {
    it.Skeleton? && it.start <= prev <= it.end &&
    (forall i :: 0 <= i < |ins| ==> prev <= ins[i].off <= it.end) && InOrder(ins)
  }

  /** The item cut at every insertion, the synthesized texts in between. */
  function Cut(it: Item, ins: seq<Insertion>, prev: int): seq<Item>
    requires Whole(it) && Fall(it, ins, prev)
    decreases |ins|
  {
    if ins == [] then
      if prev < it.end then [Skeleton(it.text[prev - it.start..], prev, it.end, false)] else []
    else
      var off := ins[0].off;
      FallOn(it, ins, prev);
      (if off > prev then [Skeleton(it.text[prev - it.start..off - it.start], prev, off, false)] else []) +
      [Synth(off, ins[0].text)] + Cut(it, ins[1..], off)
  }

  lemma FallOn(it: Item, ins: seq<Insertion>, prev: int)
    requires Fall(it, ins, prev) && ins != []
    ensures Fall(it, ins[1..], ins[0].off)
  {
    forall i | 0 <= i < |ins[1..]| ensures ins[0].off <= ins[1..][i].off {
      assert !Less(ins[i + 1], ins[0]);
    }
  }

  /** The insertions that go into item `k`. */
  function Own(items: seq<Item>, ins: seq<Insertion>, k: int): (r: seq<Insertion>)
    ensures forall x :: x in r <==> x in ins && Target(items, x.off) == k
  {
    if ins == [] then []
    else
      var n := |ins| - 1;
      assert ins == ins[..n] + [ins[n]];
      Own(items, ins[..n], k) + (if Target(items, ins[n].off) == k then [ins[n]] else [])
  }

  lemma {:induction false} OwnOrdered(items: seq<Item>, ins: seq<Insertion>, k: int)
    requires InOrder(ins)
    ensures InOrder(Own(items, ins, k))
  {
    if ins != [] {
      var n := |ins| - 1;
      OwnOrdered(items, ins[..n], k);
      var front := Own(items, ins[..n], k);
      forall i | 0 <= i < |front| ensures !Less(ins[n], front[i]) {
        assert front[i] in front;
        assert front[i] in ins[..n];
      }
    }
  }

  lemma {:induction false} OwnFalls(items: seq<Item>, ins: seq<Insertion>, k: nat)
    requires k < |items| && Whole(items[k]) && InOrder(ins)
    ensures Own(items, ins, k) != [] ==> items[k].Skeleton? && Fall(items[k], Own(items, ins, k), items[k].start)
  {
    OwnOrdered(items, ins, k);
    var own := Own(items, ins, k);
    if own != [] {
      assert own[0] in own;
      assert IsTarget(items, own[0].off, k);
    }
    forall i | 0 <= i < |own| ensures items[k].Skeleton? && items[k].start <= own[i].off <= items[k].end {
      assert own[i] in own;
      assert IsTarget(items, own[i].off, k);
    }
  }

  /** What becomes of item `k`. */
  function Rebuilt(items: seq<Item>, ins: seq<Insertion>, k: nat): seq<Item>
    requires k < |items| && Whole(items[k]) && InOrder(ins)
  {
    OwnFalls(items, ins, k);
    if Own(items, ins, k) == [] then [items[k]] else Cut(items[k], Own(items, ins, k), items[k].start)
  }

  function RebuiltTo(items: seq<Item>, ins: seq<Insertion>, n: nat): seq<Item>
    requires n <= |items| && (forall it <- items :: Whole(it)) && InOrder(ins)
  {
    if n == 0 then [] else RebuiltTo(items, ins, n - 1) + Rebuilt(items, ins, n - 1)
  }

  function Splice(items: seq<Item>, ins: seq<Insertion>): seq<Item>
    requires forall it <- items :: Whole(it)
  {
    SortedOrdered(ins);
    RebuiltTo(items, Sorted(ins), |items|)
  }

  lemma {:induction false} CutUnfolds(it: Item, ins: seq<Insertion>, prev: int, out: seq<Item>)
    requires it.Skeleton? && Whole(it) && Fall(it, ins, prev) && ins != []
    ensures Fall(it, ins[1..], ins[0].off) && it.start <= prev <= ins[0].off <= it.end
    ensures
      var off := ins[0].off;
      var piece := if off > prev then [Skeleton(it.text[prev - it.start..off - it.start], prev, off, false)] else [];
      out + Cut(it, ins, prev) == out + piece + [Synth(off, ins[0].text)] + Cut(it, ins[1..], off)
  {
    FallOn(it, ins, prev);
    var off := ins[0].off;
    var piece := if off > prev then [Skeleton(it.text[prev - it.start..off - it.start], prev, off, false)] else [];
    hide InOrder;
    assert out + (piece + [Synth(off, ins[0].text)] + Cut(it, ins[1..], off)) == out + piece + [Synth(off, ins[0].text)] + Cut(it, ins[1..], off);
  }

  method CutItem(it: Item, ins: seq<Insertion>) returns (out: seq<Item>)
    requires it.Skeleton? && Whole(it) && Fall(it, ins, it.start)
    ensures out == Cut(it, ins, it.start)
  {
    hide InOrder, Cut, Fall;
    out := [];
    var prev := it.start;
    assert ins[0..] == ins;
    assert [] + Cut(it, ins, it.start) == Cut(it, ins, it.start);
    for k := 0 to |ins|
      invariant it.start <= prev <= it.end && Fall(it, ins[k..], prev)
      invariant out + Cut(it, ins[k..], prev) == Cut(it, ins, it.start)
    {
      var off := ins[k].off;
      assert ins[k..][0] == ins[k] && ins[k..][1..] == ins[k + 1..];
      CutUnfolds(it, ins[k..], prev, out);
      if off > prev {
        out := out + [Skeleton(it.text[prev - it.start..off - it.start], prev, off, false)];
      } else {
        assert out + [] == out;
      }
      out := out + [Synth(off, ins[k].text)];
      prev := off;
    }
    CutEnds(it, prev);
    if prev < it.end {
      out := out + [Skeleton(it.text[prev - it.start..], prev, it.end, false)];
    } else {
      assert out + [] == out;
    }
  }

  lemma {:induction false} CutEnds(it: Item, prev: int)
    requires it.Skeleton? && Whole(it) && Fall(it, [], prev)
    ensures Cut(it, [], prev) == if prev < it.end then [Skeleton(it.text[prev - it.start..], prev, it.end, false)] else []
  {
  }

  /** The inner loop's selection of one item's insertions. */
  method Select(items: seq<Item>, ins: seq<Insertion>, targets: seq<int>, k: int) returns (own: seq<Insertion>)
    requires |targets| == |ins| && forall i :: 0 <= i < |ins| ==> targets[i] == Target(items, ins[i].off)
    ensures own == Own(items, ins, k)
  {
    hide Target;
    own := [];
    for i := 0 to |ins|
      invariant own == Own(items, ins[..i], k)
    {
      assert ins[..i + 1][..i] == ins[..i];
      if targets[i] == k {
        own := own + [ins[i]];
      }
    }
    assert ins[..|ins|] == ins;
  }

  method Targets(items: seq<Item>, ins: seq<Insertion>) returns (targets: seq<int>)
    ensures |targets| == |ins| && forall i :: 0 <= i < |ins| ==> targets[i] == Target(items, ins[i].off)
  {
    hide Target;
    targets := [];
    for i := 0 to |ins|
      invariant |targets| == i && forall j :: 0 <= j < i ==> targets[j] == Target(items, ins[j].off)
    {
      var t := FindTarget(items, ins[i].off);
      targets := targets + [t];
    }
  }

  method SpliceItems(items: seq<Item>, ins: seq<Insertion>) returns (out: seq<Item>)
    requires forall it <- items :: Whole(it)
    ensures out == if ins == [] then items else Splice(items, ins)
  {
    hide Cut, InOrder, Fall, Target, Whole, Own;
    if |ins| == 0 {
      return items;
    }
    var sorted := Sorted(ins);
    SortedOrdered(ins);
    var targets := Targets(items, sorted);
    out := [];
    for i := 0 to |items|
      invariant out == RebuiltTo(items, sorted, i)
    {
      assert items[i] in items;
      OwnFalls(items, sorted, i);
      var own := Select(items, sorted, targets, i);
      if |own| == 0 {
        out := out + [items[i]];
      } else {
        var cut := CutItem(items[i], own);
        out := out + cut;
      }
    }
  }

  // ---------------------------------------------------------------- nothing is lost

  /** What a template says, byte by byte and construct by construct. */
  datatype Sym = Byte(c: char) | Con(id: nat)

  function Bytes(t: string): seq<Sym> { seq(|t|, i requires 0 <= i < |t| => Byte(t[i])) }

  /** The content of the items that are not synthesized. */
  function Stream(items: seq<Item>): seq<Sym> {
    if items == [] then []
    else
      (match items[0]
       case Skeleton(t, _, _, synth) => if synth then [] else Bytes(t)
       case Construct(id) => [Con(id)]) + Stream(items[1..])
  }

  lemma BytesConcat(t: string, u: string)
    ensures Bytes(t + u) == Bytes(t) + Bytes(u)
  {
  }

  lemma {:induction false} StreamConcat(a: seq<Item>, b: seq<Item>)
    ensures Stream(a + b) == Stream(a) + Stream(b)
  {
    if a == [] {
      assert a + b == b;
    } else {
      assert (a + b)[1..] == a[1..] + b;
      StreamConcat(a[1..], b);
    }
  }

  lemma StreamOne(it: Item)
    ensures Stream([it]) == match it case Skeleton(t, _, _, synth) => (if synth then [] else Bytes(t)) case Construct(id) => [Con(id)]
  {
    assert [it][1..] == [];
  }

  lemma {:induction false} CutKeeps(it: Item, ins: seq<Insertion>, prev: int)
    requires it.Skeleton? && Whole(it) && Fall(it, ins, prev)
    ensures Stream(Cut(it, ins, prev)) == Bytes(it.text[prev - it.start..])
    decreases |ins|
  {
    hide Stream, Fall, Cut;
    FallBounds(it, ins, prev);
    var rest := it.text[prev - it.start..];
    if ins == [] {
      CutEnds(it, prev);
      StreamOne(Skeleton(rest, prev, it.end, false));
      NothingStreams();
      assert prev == it.end ==> rest == "";
    } else {
      CutUnfolds(it, ins, prev, []);
      var off := ins[0].off;
      var text := it.text[prev - it.start..off - it.start];
      var piece := if off > prev then [Skeleton(text, prev, off, false)] else [];
      CutKeeps(it, ins[1..], off);
      StreamOne(Skeleton(text, prev, off, false));
      StreamOne(Synth(off, ins[0].text));
      NothingStreams();
      StreamConcat([] + piece + [Synth(off, ins[0].text)], Cut(it, ins[1..], off));
      StreamConcat([] + piece, [Synth(off, ins[0].text)]);
      assert [] + piece == piece && [] + Cut(it, ins, prev) == Cut(it, ins, prev);
      BytesConcat(text, it.text[off - it.start..]);
      assert text + it.text[off - it.start..] == rest;
    }
  }

  lemma NothingStreams()
    ensures Stream([]) == []
  {
  }

  lemma FallBounds(it: Item, ins: seq<Insertion>, prev: int)
    requires Fall(it, ins, prev)
    ensures it.Skeleton? && it.start <= prev <= it.end
  {
  }

  lemma {:induction false} RebuiltKeeps(items: seq<Item>, ins: seq<Insertion>, n: nat)
    requires n <= |items| && (forall it <- items :: Whole(it)) && InOrder(ins)
    ensures Stream(RebuiltTo(items, ins, n)) == Stream(items[..n])
    decreases n
  {
    hide Stream, Cut, InOrder, Fall, Own, Target;
    if n == 0 {
      assert items[..0] == [];
    } else {
      var k := n - 1;
      RebuiltKeeps(items, ins, k);
      assert items[k] in items;
      OwnFalls(items, ins, k);
      assert items[..n] == items[..k] + [items[k]];
      StreamConcat(items[..k], [items[k]]);
      StreamConcat(RebuiltTo(items, ins, k), Rebuilt(items, ins, k));
      if Own(items, ins, k) != [] {
        CutKeeps(items[k], Own(items, ins, k), items[k].start);
        StreamOne(items[k]);
        assert items[k].text[0..] == items[k].text;
      }
    }
  }

  /** Removing the synthesized items from a woven template gives back the original text
      and the original order of its constructs. */
  lemma {:induction false} SpliceKeepsTemplate(items: seq<Item>, ins: seq<Insertion>)
    requires forall it <- items :: Whole(it)
    ensures Stream(Splice(items, ins)) == Stream(items)
  {
    SortedOrdered(ins);
    RebuiltKeeps(items, Sorted(ins), |items|);
    assert items[..|items|] == items;
  }

  // ---------------------------------------------------------------- everything arrives

  /** The synthesized texts in order, each with its anchor. */
  function Texts(items: seq<Item>): seq<(int, string)> {
    if items == [] then []
    else (if items[0].Skeleton? && items[0].synth then [(items[0].start, items[0].text)] else []) + Texts(items[1..])
  }

  function Anchored(ins: seq<Insertion>): seq<(int, string)> {
    seq(|ins|, i requires 0 <= i < |ins| => (ins[i].off, ins[i].text))
  }

  lemma {:induction false} TextsConcat(a: seq<Item>, b: seq<Item>)
    ensures Texts(a + b) == Texts(a) + Texts(b)
  {
    if a == [] {
      assert a + b == b;
    } else {
      assert (a + b)[1..] == a[1..] + b;
      TextsConcat(a[1..], b);
    }
  }

  lemma TextsOne(it: Item)
    ensures Texts([it]) == if it.Skeleton? && it.synth then [(it.start, it.text)] else []
  {
    assert [it][1..] == [];
  }

  lemma {:induction false} CutArrives(it: Item, ins: seq<Insertion>, prev: int)
    requires it.Skeleton? && Whole(it) && Fall(it, ins, prev)
    ensures Texts(Cut(it, ins, prev)) == Anchored(ins)
    decreases |ins|
  {
    hide Texts, Fall, Cut;
    assert Texts([]) == [] by { NoTexts(); }
    FallBounds(it, ins, prev);
    if ins == [] {
      CutEnds(it, prev);
      TextsOne(Skeleton(it.text[prev - it.start..], prev, it.end, false));
    } else {
      CutUnfolds(it, ins, prev, []);
      var off := ins[0].off;
      var text := it.text[prev - it.start..off - it.start];
      var piece := if off > prev then [Skeleton(text, prev, off, false)] else [];
      CutArrives(it, ins[1..], off);
      TextsOne(Skeleton(text, prev, off, false));
      TextsOne(Synth(off, ins[0].text));
      TextsConcat([] + piece + [Synth(off, ins[0].text)], Cut(it, ins[1..], off));
      TextsConcat([] + piece, [Synth(off, ins[0].text)]);
      assert [] + piece == piece && [] + Cut(it, ins, prev) == Cut(it, ins, prev);
      assert Anchored(ins) == [(off, ins[0].text)] + Anchored(ins[1..]);
    }
  }

  lemma NoTexts()
    ensures Texts([]) == []
  {
  }

  /** The insertions of items before `n`. */
  function OwnTo(items: seq<Item>, ins: seq<Insertion>, n: nat): seq<Insertion> {
    if n == 0 then [] else OwnTo(items, ins, n - 1) + Own(items, ins, n - 1)
  }

  lemma {:induction false} RebuiltArrives(items: seq<Item>, ins: seq<Insertion>, n: nat)
    requires n <= |items| && (forall it <- items :: Whole(it)) && InOrder(ins)
    ensures Texts(RebuiltTo(items, ins, n)) == Anchored(OwnTo(items, ins, n))
    decreases n
  {
    hide Texts, Cut, InOrder, Fall, Own, Target;
    if n == 0 {
      NoTexts();
    } else {
      var k := n - 1;
      RebuiltArrives(items, ins, k);
      assert items[k] in items;
      OwnFalls(items, ins, k);
      TextsConcat(RebuiltTo(items, ins, k), Rebuilt(items, ins, k));
      if Own(items, ins, k) != [] {
        CutArrives(items[k], Own(items, ins, k), items[k].start);
      } else {
        TextsOne(items[k]);
      }
      assert Anchored(OwnTo(items, ins, k) + Own(items, ins, k)) == Anchored(OwnTo(items, ins, k)) + Anchored(Own(items, ins, k));
    }
  }

  /** Items in template order: spans do not overlap and go up. */
  predicate Ascending(items: seq<Item>) {
    forall i, j :: 0 <= i < j < |items| && items[i].Skeleton? && items[j].Skeleton? ==> items[i].end <= items[j].start
  }

  /** A later offset never goes into an earlier item. */
  lemma TargetMonotone(items: seq<Item>, a: int, b: int)
    requires Ascending(items) && (forall it <- items :: Whole(it)) && a <= b && Target(items, a) >= 0 && Target(items, b) >= 0
    ensures Target(items, a) <= Target(items, b)
  {
    var j, k := Target(items, a), Target(items, b);
    assert items[j] in items && items[k] in items;
  }

  function Located(items: seq<Item>, ins: seq<Insertion>): seq<Insertion> {
    if ins == [] then []
    else Located(items, ins[..|ins| - 1]) + (if Target(items, ins[|ins| - 1].off) >= 0 then [ins[|ins| - 1]] else [])
  }

  /** Own insertions of the items from one on: none, when all lie before. */
  lemma {:induction false} OwnNone(items: seq<Item>, ins: seq<Insertion>, k: int)
    requires forall x <- ins :: Target(items, x.off) != k
    ensures Own(items, ins, k) == []
  {
    hide Target;
    if ins != [] {
      OwnNone(items, ins[..|ins| - 1], k);
    }
  }

  lemma {:induction false} OwnSnoc(items: seq<Item>, ins: seq<Insertion>, x: Insertion, k: int)
    ensures Own(items, ins + [x], k) == Own(items, ins, k) + (if Target(items, x.off) == k then [x] else [])
  {
    hide Target;
    assert (ins + [x])[..|ins|] == ins;
  }

  /** Appending the last insertion of the order appends it to what the items receive. */
  lemma {:induction false} OwnToSnoc(items: seq<Item>, ins: seq<Insertion>, x: Insertion, n: nat)
    requires forall y <- ins :: Target(items, y.off) <= Target(items, x.off)
    ensures OwnTo(items, ins + [x], n) == OwnTo(items, ins, n) + (if 0 <= Target(items, x.off) < n then [x] else [])
  {
    hide Target, Own;
    if n > 0 {
      var k := n - 1;
      OwnToSnoc(items, ins, x, k);
      OwnSnoc(items, ins, x, k);
      if 0 <= Target(items, x.off) < k {
        OwnNone(items, ins, k);
      }
    }
  }

  lemma {:induction false} OwnToLocated(items: seq<Item>, ins: seq<Insertion>)
    requires Ascending(items) && (forall it <- items :: Whole(it)) && InOrder(ins)
    ensures OwnTo(items, ins, |items|) == Located(items, ins)
    decreases |ins|
  {
    hide Target, Own, Whole, Ascending;
    if ins == [] {
      NoOwn(items, |items|);
    } else {
      var n := |ins| - 1;
      var front, x := ins[..n], ins[n];
      assert ins == front + [x];
      OwnToLocated(items, front);
      TargetRange(items, x.off);
      if Target(items, x.off) >= 0 {
        forall y | y in front ensures Target(items, y.off) <= Target(items, x.off) {
          BeforeLast(front, x, y);
          if Target(items, y.off) >= 0 {
            TargetMonotone(items, y.off, x.off);
          }
        }
        OwnToSnoc(items, front, x, |items|);
      } else {
        OwnToMiss(items, front, x, |items|);
      }
    }
  }

  lemma BeforeLast(front: seq<Insertion>, x: Insertion, y: Insertion)
    requires InOrder(front + [x]) && y in front
    ensures y.off <= x.off
  {
    var i :| 0 <= i < |front| && front[i] == y;
    var r := front + [x];
    assert !Less(r[|front|], r[i]);
  }

  lemma TargetRange(items: seq<Item>, off: int)
    ensures Target(items, off) < |items|
  {
  }

  lemma {:induction false} OwnToMiss(items: seq<Item>, ins: seq<Insertion>, x: Insertion, n: nat)
    requires Target(items, x.off) < 0
    ensures OwnTo(items, ins + [x], n) == OwnTo(items, ins, n)
  {
    hide Target, Own;
    if n > 0 {
      OwnToMiss(items, ins, x, n - 1);
      OwnSnoc(items, ins, x, n - 1);
    }
  }

  lemma {:induction false} NoOwn(items: seq<Item>, n: nat)
    ensures OwnTo(items, [], n) == []
    decreases n
  {
    if n > 0 {
      NoOwn(items, n - 1);
      OwnNone(items, [], n - 1);
    }
  }

  lemma {:induction false} LocatedAll(items: seq<Item>, ins: seq<Insertion>)
    requires forall x <- ins :: Target(items, x.off) >= 0
    ensures Located(items, ins) == ins
  {
    hide Target;
    if ins != [] {
      var n := |ins| - 1;
      assert ins == ins[..n] + [ins[n]];
      LocatedAll(items, ins[..n]);
    }
  }

  /** Every insertion whose offset lies in or at the end of a skeleton item arrives, once,
      anchored at its offset, in order of offset, priority and creation. */
  lemma {:induction false} SpliceInsertsAll(items: seq<Item>, ins: seq<Insertion>)
    requires Ascending(items) && (forall it <- items :: Whole(it)) && forall x <- ins :: Target(items, x.off) >= 0
    ensures Texts(Splice(items, ins)) == Anchored(Sorted(ins))
    ensures InOrder(Sorted(ins)) && multiset(Sorted(ins)) == multiset(ins)
  {
    hide Target, Whole, Ascending, InOrder;
    SortedOrdered(ins);
    var sorted := Sorted(ins);
    RebuiltArrives(items, sorted, |items|);
    OwnToLocated(items, sorted);
    forall x | x in sorted ensures Target(items, x.off) >= 0 {
      assert x in multiset(sorted);
    }
    LocatedAll(items, sorted);
  }

  // ---------------------------------------------------------------- spans stay true

  /** An item's text is the source text its span names. */
  predicate Faithful(source: string, it: Item) {
    it.Skeleton? && !it.synth ==> 0 <= it.start <= it.end <= |source| && it.text == source[it.start..it.end]
  }

  predicate Anchors(it: Item) { it.Skeleton? && it.synth ==> it.start == it.end }

  lemma {:induction false} CutFaithful(source: string, it: Item, ins: seq<Insertion>, prev: int)
    requires it.Skeleton? && Whole(it) && Fall(it, ins, prev) && Faithful(source, it)
    ensures forall x <- Cut(it, ins, prev) :: Faithful(source, x) && Anchors(x)
    decreases |ins|
  {
    hide Fall, Cut;
    FallBounds(it, ins, prev);
    if ins == [] {
      CutEnds(it, prev);
      assert it.text[prev - it.start..] == source[prev..it.end];
    } else {
      CutUnfolds(it, ins, prev, []);
      var off := ins[0].off;
      CutFaithful(source, it, ins[1..], off);
      assert it.text[prev - it.start..off - it.start] == source[prev..off];
      assert [] + Cut(it, ins, prev) == Cut(it, ins, prev);
    }
  }

  lemma {:induction false} RebuiltFaithful(source: string, items: seq<Item>, ins: seq<Insertion>, n: nat)
    requires n <= |items| && (forall it <- items :: Whole(it)) && InOrder(ins) && forall it <- items :: Faithful(source, it)
    ensures forall x <- RebuiltTo(items, ins, n) :: Faithful(source, x) && Anchors(x)
    decreases n
  {
    hide Cut, InOrder, Fall, Own, Target, Faithful;
    if n > 0 {
      var k := n - 1;
      RebuiltFaithful(source, items, ins, k);
      assert items[k] in items;
      OwnFalls(items, ins, k);
      if Own(items, ins, k) != [] {
        CutFaithful(source, items[k], Own(items, ins, k), items[k].start);
      }
    }
  }

  /** Every piece of the original still says where in the source it stands, and every
      synthesized item covers no source text. */
  lemma SpliceKeepsSpans(source: string, items: seq<Item>, ins: seq<Insertion>)
    requires (forall it <- items :: Whole(it)) && forall it <- items :: Faithful(source, it)
    ensures forall x <- Splice(items, ins) :: Faithful(source, x) && Anchors(x)
  {
    SortedOrdered(ins);
    RebuiltFaithful(source, items, Sorted(ins), |items|);
  }
}
