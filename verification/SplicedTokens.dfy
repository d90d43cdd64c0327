/**
 The two views of `splice` (internal/policy/splice.go) agree: the tokens of the spliced
 items are the tokens of the template with the inserted tokens at their offsets, as long
 as the lexer does not mind where the items are cut.
 */
module SplicedTokens {
  import opened SqlTokens
  import opened ClauseScanning
  import opened ClauseReading
  import opened Splicing
  import Weaving
  import Enforcing

  /** The significant tokens of a text that starts at an offset, and the constructs, each
      with the source span it covers. */
  datatype Lexis = Lexis(lex: (string, int) -> seq<Tok>, hole: nat -> Elem, spans: nat -> (int, int))

  function ItemElems(x: Lexis, it: Item): seq<Elem> {
    match it
    case Skeleton(text, start, _, _) => Tks(x.lex(text, start))
    case Construct(id) => [x.hole(id)]
  }

  function Elems(x: Lexis, items: seq<Item>): seq<Elem> {
    if items == [] then [] else ItemElems(x, items[0]) + Elems(x, items[1..])
  }

  function Inserted(x: Lexis, ins: seq<Insertion>): seq<Weaving.Insertion> {
    seq(|ins|, i requires 0 <= i < |ins| => Weaving.Insertion(ins[i].off, x.lex(ins[i].text, ins[i].off)))
  }

  predicate Lies(ts: seq<Tok>, lo: int, hi: int) { forall t <- ts :: lo <= t.at < EndOf(t) <= hi }

  /** Cutting the item where its insertions fall cuts no token and changes none. */
  ghost predicate CutsBetween(x: Lexis, it: Item, ins: seq<Insertion>, prev: int)
    requires it.Skeleton? && Whole(it) && Fall(it, ins, prev)
    decreases |ins|
  {
    var rest := x.lex(it.text[prev - it.start..], prev);
    Lies(rest, prev, it.end) &&
    if ins == [] then true
    else
      FallOn(it, ins, prev);
      var off := ins[0].off;
      var piece := x.lex(it.text[prev - it.start..off - it.start], prev);
      rest == piece + x.lex(it.text[off - it.start..], off) && Lies(piece, prev, off) && CutsBetween(x, it, ins[1..], off)
  }

  ghost predicate NoText(x: Lexis) { forall at: int :: x.lex("", at) == [] }

  lemma {:induction false} ElemsConcat(x: Lexis, a: seq<Item>, b: seq<Item>)
    ensures Elems(x, a + b) == Elems(x, a) + Elems(x, b)
  {
    if a == [] {
      assert a + b == b;
    } else {
      assert (a + b)[0] == a[0] && (a + b)[1..] == a[1..] + b;
      ElemsConcat(x, a[1..], b);
    }
  }

  lemma {:induction false} ElemsOne(x: Lexis, it: Item)
    ensures Elems(x, [it]) == ItemElems(x, it)
  {
    assert [it][1..] == [] && ItemElems(x, it) + [] == ItemElems(x, it);
  }

  lemma LiesEnd(ts: seq<Tok>, lo: int, hi: int)
    requires Lies(ts, lo, hi)
    ensures Weaving.AllEnd(Tks(ts), hi) && Weaving.AllBehind(Tks(ts), lo)
  {
  }

  /** One item, cut at its insertions. */
  lemma {:induction false} CutTokens(x: Lexis, it: Item, ins: seq<Insertion>, prev: int)
    requires NoText(x) && it.Skeleton? && Whole(it) && Fall(it, ins, prev) && CutsBetween(x, it, ins, prev)
    ensures Elems(x, Cut(it, ins, prev)) == Weaving.SpliceToks(Tks(x.lex(it.text[prev - it.start..], prev)), Inserted(x, ins))
    decreases |ins|
  {
    hide Elems, InOrder;
    var rest := x.lex(it.text[prev - it.start..], prev);
    if ins == [] {
      CutEnds(it, prev);
      ElemsOne(x, Skeleton(it.text[prev - it.start..], prev, it.end, false));
      Enforcing.NoInsertions(Tks(rest));
      assert prev == it.end ==> it.text[prev - it.start..] == "";
      NothingThere(x);
    } else {
      FallOn(it, ins, prev);
      var off := ins[0].off;
      CutTokens(x, it, ins[1..], off);
      CutSpelled(x, it, ins, prev);
      var piece, more := x.lex(it.text[prev - it.start..off - it.start], prev), x.lex(it.text[off - it.start..], off);
      LiesEnd(piece, prev, off);
      LiesEnd(more, off, it.end);
      TksConcat(piece, more);
      Enforcing.LeadSplices(Tks(piece), Tks(more), Inserted(x, ins)[0], Inserted(x, ins[1..]));
      assert Inserted(x, ins) == [Inserted(x, ins)[0]] + Inserted(x, ins[1..]);
    }
  }

  lemma {:induction false} NothingThere(x: Lexis)
    ensures Elems(x, []) == []
  {
  }

  lemma {:induction false} CutSpelled(x: Lexis, it: Item, ins: seq<Insertion>, prev: int)
    requires NoText(x) && it.Skeleton? && Whole(it) && Fall(it, ins, prev) && ins != []
    ensures Fall(it, ins[1..], ins[0].off) && it.start <= prev <= ins[0].off <= it.end
    ensures
      var off := ins[0].off;
      Elems(x, Cut(it, ins, prev)) ==
        Tks(x.lex(it.text[prev - it.start..off - it.start], prev)) + Tks(x.lex(ins[0].text, off)) + Elems(x, Cut(it, ins[1..], off))
  {
    hide Elems, Cut, InOrder;
    CutUnfolds(it, ins, prev, []);
    var off := ins[0].off;
    var text := it.text[prev - it.start..off - it.start];
    var piece := if off > prev then [Skeleton(text, prev, off, false)] else [];
    var synth, tail := [Synth(off, ins[0].text)], Cut(it, ins[1..], off);
    assert [] + Cut(it, ins, prev) == Cut(it, ins, prev) && [] + piece + synth + tail == piece + synth + tail;
    ElemsConcat(x, piece + synth, tail);
    ElemsConcat(x, piece, synth);
    ElemsOne(x, Skeleton(text, prev, off, false));
    ElemsOne(x, Synth(off, ins[0].text));
    NothingThere(x);
    assert off == prev ==> text == "";
  }

  // ---------------------------------------------------------------- all items

  function StartAt(x: Lexis, it: Item): int { match it case Skeleton(_, start, _, _) => start case Construct(id) => x.spans(id).0 }

  function EndAt(x: Lexis, it: Item): int { match it case Skeleton(_, _, end, _) => end case Construct(id) => x.spans(id).1 }

  /** The items stand in source order, and a construct ends where it says. */
  ghost predicate Sited(x: Lexis, items: seq<Item>) {
    (forall i, j :: 0 <= i < j < |items| ==> EndAt(x, items[i]) <= StartAt(x, items[j])) &&
    forall it <- items :: StartAt(x, it) <= EndAt(x, it) &&
      (it.Construct? ==> StartAt(x, it) < EndAt(x, it) == Weaving.ElemEnd(x.hole(it.id)))
  }

  /** The insertions by their targets. */
  function OwnTo(items: seq<Item>, ins: seq<Insertion>, n: nat): seq<Insertion> {
    if n == 0 then [] else OwnTo(items, ins, n - 1) + Own(items, ins, n - 1)
  }

  lemma {:induction false} TargetsClimb(x: Lexis, items: seq<Item>, a: int, b: int)
    requires Sited(x, items) && (forall it <- items :: Whole(it)) && a <= b && Target(items, a) >= 0 && Target(items, b) >= 0
    ensures Target(items, a) <= Target(items, b)
  {
    hide Target, Whole;
    var i, j := Target(items, a), Target(items, b);
    assert IsTarget(items, a, i) && IsTarget(items, b, j);
    assert items[i] in items && items[j] in items;
    if j < i {
      assert false;
    }
  }

  lemma {:induction false} OwnBeyond(items: seq<Item>, ins: seq<Insertion>, k: int)
    requires forall y <- ins :: Target(items, y.off) < k
    ensures Own(items, ins, k) == []
  {
    hide Target;
    if ins != [] {
      OwnBeyond(items, ins[..|ins| - 1], k);
      assert ins[|ins| - 1] in ins;
    }
  }

  /** Taken item by item, the sorted insertions come in their order. */
  lemma {:induction false} OwnInTurn(x: Lexis, items: seq<Item>, ins: seq<Insertion>)
    requires Sited(x, items) && (forall it <- items :: Whole(it)) && InOrder(ins) && forall y <- ins :: Target(items, y.off) >= 0
    ensures OwnTo(items, ins, |items|) == ins
    decreases |ins|
  {
    hide Target, Whole, Sited, Less;
    if ins == [] {
      NoOwn(items, |items|);
    } else {
      var m := |ins| - 1;
      var front, last := ins[..m], ins[m];
      assert ins == front + [last];
      OwnInTurn(x, items, front);
      var k := Target(items, last.off);
      forall y | y in front ensures Target(items, y.off) <= k {
        var i :| 0 <= i < m && front[i] == y;
        NoLater(ins, i, m);
        TargetsClimb(x, items, y.off, last.off);
      }
      OwnMore(items, front, last, |items|);
    }
  }

  lemma NoLater(ins: seq<Insertion>, i: nat, j: nat)
    requires InOrder(ins) && i < j < |ins|
    ensures ins[i].off <= ins[j].off
  {
    assert !Less(ins[j], ins[i]);
  }

  lemma {:induction false} NoOwn(items: seq<Item>, n: nat)
    ensures OwnTo(items, [], n) == []
    decreases n
  {
    if n > 0 {
      NoOwn(items, n - 1);
    }
  }

  lemma {:induction false} OwnNext(items: seq<Item>, front: seq<Insertion>, last: Insertion, k: int)
    ensures Own(items, front + [last], k) == Own(items, front, k) + if Target(items, last.off) == k then [last] else []
  {
    hide Target;
    assert (front + [last])[..|front|] == front;
  }

  lemma {:induction false} OwnMore(items: seq<Item>, front: seq<Insertion>, last: Insertion, n: nat)
    requires Target(items, last.off) >= 0 && forall y <- front :: Target(items, y.off) <= Target(items, last.off)
    ensures OwnTo(items, front + [last], n) == OwnTo(items, front, n) + if Target(items, last.off) < n then [last] else []
    decreases n
  {
    hide Target, Own;
    if n > 0 {
      OwnMore(items, front, last, n - 1);
      OwnNext(items, front, last, n - 1);
      if Target(items, last.off) < n - 1 {
        OwnBeyond(items, front, n - 1);
      }
      var a, b := OwnTo(items, front, n - 1), Own(items, front, n - 1);
      assert a + (b + [last]) == a + b + [last] && a + (b + []) == a + b && (a + [last]) + ([] + []) == a + [] + [last];
    }
  }

  // ---------------------------------------------------------------- the whole template

  lemma {:induction false} InsertsHere(els: seq<Elem>, i: Weaving.Insertion, more: seq<Weaving.Insertion>)
    requires els == [] || i.off < Weaving.ElemEnd(els[0])
    ensures Weaving.SpliceToks(els, [i] + more) == Tks(i.toks) + Weaving.SpliceToks(els, more)
  {
    assert ([i] + more)[1..] == more;
  }

  lemma {:induction false} PassesOver(el: Elem, els: seq<Elem>, ins: seq<Weaving.Insertion>)
    requires ins != [] && ins[0].off >= Weaving.ElemEnd(el)
    ensures Weaving.SpliceToks([el] + els, ins) == [el] + Weaving.SpliceToks(els, ins)
  {
    assert ([el] + els)[1..] == els;
  }

  /** Insertions for neighbouring stretches do not disturb one another. */
  lemma {:induction false} TokensApart(els: seq<Elem>, fs: seq<Elem>, a: seq<Weaving.Insertion>, b: seq<Weaving.Insertion>)
    requires forall i <- a :: Weaving.AllBehind(fs, i.off)
    requires b != [] ==> Weaving.AllEnd(els, b[0].off)
    ensures Weaving.SpliceToks(els + fs, a + b) == Weaving.SpliceToks(els, a) + Weaving.SpliceToks(fs, b)
    decreases |els| + |a|
  {
    hide Weaving.SpliceToks;
    if a == [] {
      assert a + b == b;
      Weaving.SpliceSkips(els, fs, b);
      Enforcing.NoInsertions(els);
    } else if els == [] || a[0].off < Weaving.ElemEnd(els[0]) {
      var i, more := a[0], a[1..];
      assert a == [i] + more && a + b == [i] + (more + b) && i in a;
      assert els + fs == [] || i.off < Weaving.ElemEnd((els + fs)[0]) by {
        if els == [] && fs != [] {
          assert (els + fs)[0] == fs[0] && fs[0] in fs;
        }
      }
      InsertsHere(els, i, more);
      InsertsHere(els + fs, i, more + b);
      TokensApart(els, fs, more, b);
      assert Tks(i.toks) + (Weaving.SpliceToks(els, more) + Weaving.SpliceToks(fs, b)) ==
             (Tks(i.toks) + Weaving.SpliceToks(els, more)) + Weaving.SpliceToks(fs, b);
    } else {
      var el, rest := els[0], els[1..];
      assert els == [el] + rest && els + fs == [el] + (rest + fs) && (a + b)[0] == a[0];
      PassesOver(el, rest, a);
      PassesOver(el, rest + fs, a + b);
      TokensApart(rest, fs, a, b);
      assert [el] + (Weaving.SpliceToks(rest, a) + Weaving.SpliceToks(fs, b)) == ([el] + Weaving.SpliceToks(rest, a)) + Weaving.SpliceToks(fs, b);
    }
  }

  /** What is asked of the lexer for this template: it finds nothing in an empty text, and
      the cuts that the insertions make in an item cut no token and change none. */
  ghost predicate Stable(x: Lexis, items: seq<Item>, ins: seq<Insertion>)
    requires (forall it <- items :: Whole(it)) && InOrder(ins)
  {
    NoText(x) &&
    forall k: nat :: k < |items| && items[k].Skeleton? ==> StableIn(x, items, ins, k)
  }

  ghost predicate StableIn(x: Lexis, items: seq<Item>, ins: seq<Insertion>, k: nat)
    requires k < |items| && items[k].Skeleton? && Whole(items[k]) && InOrder(ins)
  {
    OwnFalls(items, ins, k);
    if Own(items, ins, k) == [] then Lies(x.lex(items[k].text, items[k].start), items[k].start, items[k].end)
    else CutsBetween(x, items[k], Own(items, ins, k), items[k].start)
  }

  lemma {:induction false} ItemTokens(x: Lexis, items: seq<Item>, ins: seq<Insertion>, k: nat)
    requires k < |items| && Whole(items[k]) && InOrder(ins) && NoText(x) && (items[k].Skeleton? ==> StableIn(x, items, ins, k))
    ensures Elems(x, Rebuilt(items, ins, k)) == Weaving.SpliceToks(ItemElems(x, items[k]), Inserted(x, Own(items, ins, k)))
  {
    hide Elems, Cut, InOrder, Own, CutsBetween, Fall;
    OwnFalls(items, ins, k);
    if Own(items, ins, k) == [] {
      ElemsOne(x, items[k]);
      Enforcing.NoInsertions(ItemElems(x, items[k]));
      assert Inserted(x, []) == [];
    } else {
      CutTokens(x, items[k], Own(items, ins, k), items[k].start);
      assert items[k].text[0..] == items[k].text;
    }
  }

  /** Every element of an item, and every offset inside it, lies in its span. */
  lemma {:induction false} ItemBounds(x: Lexis, items: seq<Item>, ins: seq<Insertion>, k: nat)
    requires k < |items| && (forall it <- items :: Whole(it)) && InOrder(ins) && Sited(x, items) && Stable(x, items, ins)
    ensures forall el <- ItemElems(x, items[k]) :: StartAt(x, items[k]) < Weaving.ElemEnd(el) <= EndAt(x, items[k])
    ensures forall y <- Own(items, ins, k) :: StartAt(x, items[k]) <= y.off <= EndAt(x, items[k])
  {
    hide Own, InOrder;
    OwnFalls(items, ins, k);
    assert items[k] in items;
    if items[k].Skeleton? {
      assert StableIn(x, items, ins, k);
      assert items[k].text[0..] == items[k].text;
      forall y | y in Own(items, ins, k) ensures items[k].start <= y.off <= items[k].end {
      }
    }
  }

  lemma {:induction false} TokensTo(x: Lexis, items: seq<Item>, ins: seq<Insertion>, n: nat)
    requires n <= |items| && (forall it <- items :: Whole(it)) && InOrder(ins) && Sited(x, items) && Stable(x, items, ins)
    ensures Elems(x, RebuiltTo(items, ins, n)) == Weaving.SpliceToks(Elems(x, items[..n]), Inserted(x, OwnTo(items, ins, n)))
    decreases n
  {
    hide Elems, InOrder, Own, Whole, Sited, Rebuilt, Inserted;
    if n == 0 {
      NothingThere(x);
      NothingInserted(x);
      Enforcing.NoInsertions([]);
    } else {
      var k := n - 1;
      TokensTo(x, items, ins, k);
      assert items[k] in items && (items[k].Skeleton? ==> StableIn(x, items, ins, k));
      ItemTokens(x, items, ins, k);
      ElemsConcat(x, RebuiltTo(items, ins, k), Rebuilt(items, ins, k));
      assert items[..n] == items[..k] + [items[k]];
      ElemsConcat(x, items[..k], [items[k]]);
      ElemsOne(x, items[k]);
      InsertedConcat(x, OwnTo(items, ins, k), Own(items, ins, k));
      NextApart(x, items, ins, k);
      TokensApart(Elems(x, items[..k]), ItemElems(x, items[k]), Inserted(x, OwnTo(items, ins, k)), Inserted(x, Own(items, ins, k)));
    }
  }

  lemma NothingInserted(x: Lexis)
    ensures Inserted(x, []) == []
  {
  }

  lemma InsertedConcat(x: Lexis, a: seq<Insertion>, b: seq<Insertion>)
    ensures Inserted(x, a + b) == Inserted(x, a) + Inserted(x, b)
  {
  }

  /** What lies before an item, and what is inserted there, lies before the item. */
  lemma {:induction false} NextApart(x: Lexis, items: seq<Item>, ins: seq<Insertion>, k: nat)
    requires k < |items| && (forall it <- items :: Whole(it)) && InOrder(ins) && Sited(x, items) && Stable(x, items, ins)
    ensures forall i <- Inserted(x, OwnTo(items, ins, k)) :: Weaving.AllBehind(ItemElems(x, items[k]), i.off)
    ensures var b := Inserted(x, Own(items, ins, k)); b != [] ==> Weaving.AllEnd(Elems(x, items[..k]), b[0].off)
  {
    hide Elems, InOrder, Own, Whole, ItemElems, OwnTo, Stable;
    ItemBounds(x, items, ins, k);
    ElemsBefore(x, items, ins, k, k);
    OwnBefore(x, items, ins, k, k);
    var b := Inserted(x, Own(items, ins, k));
    if b != [] {
      assert Own(items, ins, k)[0] in Own(items, ins, k);
    }
    forall i | i in Inserted(x, OwnTo(items, ins, k)) ensures Weaving.AllBehind(ItemElems(x, items[k]), i.off) {
      var j :| 0 <= j < |OwnTo(items, ins, k)| && Inserted(x, OwnTo(items, ins, k))[j] == i;
      assert OwnTo(items, ins, k)[j] in OwnTo(items, ins, k);
    }
  }

  lemma {:induction false} ElemsBefore(x: Lexis, items: seq<Item>, ins: seq<Insertion>, n: nat, k: nat)
    requires n <= k < |items| && (forall it <- items :: Whole(it)) && InOrder(ins) && Sited(x, items) && Stable(x, items, ins)
    ensures forall el <- Elems(x, items[..n]) :: Weaving.ElemEnd(el) <= StartAt(x, items[k])
    decreases n
  {
    hide Elems, InOrder, Own, Whole, ItemElems, Stable;
    if n == 0 {
      NothingThere(x);
    } else {
      ElemsBefore(x, items, ins, n - 1, k);
      assert items[..n] == items[..n - 1] + [items[n - 1]];
      ElemsConcat(x, items[..n - 1], [items[n - 1]]);
      ElemsOne(x, items[n - 1]);
      ItemBounds(x, items, ins, n - 1);
    }
  }

  lemma {:induction false} OwnBefore(x: Lexis, items: seq<Item>, ins: seq<Insertion>, n: nat, k: nat)
    requires n <= k < |items| && (forall it <- items :: Whole(it)) && InOrder(ins) && Sited(x, items) && Stable(x, items, ins)
    ensures forall y <- OwnTo(items, ins, n) :: y.off <= StartAt(x, items[k])
    decreases n
  {
    hide InOrder, Own, Whole, ItemElems, Stable;
    if n > 0 {
      OwnBefore(x, items, ins, n - 1, k);
      ItemBounds(x, items, ins, n - 1);
    }
  }

  /** The scanned elements of the spliced template are those of the template with every
      insertion's tokens at its offset. */
  lemma {:induction false} SpliceTokens(x: Lexis, items: seq<Item>, ins: seq<Insertion>)
    requires (forall it <- items :: Whole(it)) && Sited(x, items) && forall y <- ins :: Target(items, y.off) >= 0
    requires InOrder(Sorted(ins)) && Stable(x, items, Sorted(ins))
    ensures Elems(x, Splice(items, ins)) == Weaving.SpliceToks(Elems(x, items), Inserted(x, Sorted(ins)))
  {
    hide Elems, InOrder, Own, Whole, Sited, Stable, Target, Inserted;
    SortedOrdered(ins);
    var s := Sorted(ins);
    forall y | y in s ensures Target(items, y.off) >= 0 {
      assert y in multiset(s);
    }
    OwnInTurn(x, items, s);
    TokensTo(x, items, s, |items|);
    assert items[..|items|] == items;
  }
}
