/**
 Weaving the leaf queries of a set operation (internal/policy/weave.go,
 internal/policy/setop.go): every branch takes its conjuncts at its own slot, the result
 is the same set operation of the woven leaves, and a second split finds every branch
 scoped.
 */
module SetOpWeaving {
  import opened SqlTokens
  import opened ClauseReading
  import opened Weaving
  import opened SetOpScanning
  import opened SetOpTheorems

  // ---------------------------------------------------------------- splicing elements

  function StartOf(el: In): int { match el case Token(t, _) => t.at case Construct(_, _, start, _) => start }

  function EndIn(el: In): int { ElemEnd(ElemOf(el)) }

  /** Elements of source text: none is empty, and each begins where the ones before it have
      ended. */
  predicate InOrder(els: seq<In>) {
    (forall i :: 0 <= i < |els| ==> StartOf(els[i]) < EndIn(els[i])) &&
    forall i, j :: 0 <= i < j < |els| ==> EndIn(els[i]) <= StartOf(els[j])
  }

  /** Woven text is marked as such. */
  function Synths(ts: seq<Tok>): seq<In> { seq(|ts|, i requires 0 <= i < |ts| => In.Token(ts[i], true)) }

  function SpliceIns(els: seq<In>, ins: seq<Insertion>): seq<In>
    decreases |els| + |ins|
  {
    if ins == [] then els
    else if els == [] || ins[0].off < EndIn(els[0]) then Synths(ins[0].toks) + SpliceIns(els, ins[1..])
    else [els[0]] + SpliceIns(els[1..], ins)
  }

  lemma ElemsConcat(a: seq<In>, b: seq<In>)
    ensures ElemsOf(a + b) == ElemsOf(a) + ElemsOf(b)
  {
  }

  /** It is the splice of the scanned elements. */
  lemma {:induction false} SpliceElems(els: seq<In>, ins: seq<Insertion>)
    ensures ElemsOf(SpliceIns(els, ins)) == SpliceToks(ElemsOf(els), ins)
    decreases |els| + |ins|
  {
    if ins == [] {
    } else if els == [] || ins[0].off < EndIn(els[0]) {
      SpliceElems(els, ins[1..]);
      ElemsConcat(Synths(ins[0].toks), SpliceIns(els, ins[1..]));
      assert ElemsOf(Synths(ins[0].toks)) == Tks(ins[0].toks);
    } else {
      SpliceElems(els[1..], ins);
      ElemsConcat([els[0]], SpliceIns(els[1..], ins));
      assert ElemsOf(els)[1..] == ElemsOf(els[1..]) && ElemsOf([els[0]]) == [ElemOf(els[0])];
    }
  }

  predicate Within(els: seq<In>, ins: seq<Insertion>) {
    forall x <- ins :: els != [] && StartOf(els[0]) <= x.off <= EndIn(els[|els| - 1])
  }

  lemma {:induction false} SplicePast(els: seq<In>, fs: seq<In>, ins: seq<Insertion>)
    requires ins != [] ==> forall el <- els :: EndIn(el) <= ins[0].off
    ensures SpliceIns(els + fs, ins) == els + SpliceIns(fs, ins)
    decreases |els|
  {
    if els == [] {
      assert els + fs == fs;
    } else if ins != [] {
      assert (els + fs)[0] == els[0] && (els + fs)[1..] == els[1..] + fs && els[0] in els;
      SplicePast(els[1..], fs, ins);
    }
  }

  lemma {:induction false} InsertsHere(els: seq<In>, i: Insertion, more: seq<Insertion>)
    requires els == [] || i.off < EndIn(els[0])
    ensures SpliceIns(els, [i] + more) == Synths(i.toks) + SpliceIns(els, more)
  {
    assert ([i] + more)[1..] == more;
  }

  lemma {:induction false} PassesOver(el: In, els: seq<In>, ins: seq<Insertion>)
    requires ins != [] && ins[0].off >= EndIn(el)
    ensures SpliceIns([el] + els, ins) == [el] + SpliceIns(els, ins)
  {
    assert ([el] + els)[1..] == els;
  }

  /** Insertions for neighbouring stretches do not disturb one another. */
  lemma {:induction false} SpliceApart(els: seq<In>, fs: seq<In>, a: seq<Insertion>, b: seq<Insertion>)
    requires forall x <- a, el <- fs :: x.off < EndIn(el)
    requires b != [] ==> forall el <- els :: EndIn(el) <= b[0].off
    ensures SpliceIns(els + fs, a + b) == SpliceIns(els, a) + SpliceIns(fs, b)
    decreases |els| + |a|
  {
    hide SpliceIns, EndIn;
    if a == [] {
      assert a + b == b;
      SplicePast(els, fs, b);
      SpliceNothing(els);
    } else if els == [] || a[0].off < EndIn(els[0]) {
      var i, more := a[0], a[1..];
      assert a == [i] + more && a + b == [i] + (more + b) && i in a;
      assert els + fs == [] || i.off < EndIn((els + fs)[0]) by {
        if els == [] && fs != [] {
          assert (els + fs)[0] == fs[0] && fs[0] in fs;
        }
      }
      InsertsHere(els, i, more);
      InsertsHere(els + fs, i, more + b);
      SpliceApart(els, fs, more, b);
      assert Synths(i.toks) + (SpliceIns(els, more) + SpliceIns(fs, b)) == (Synths(i.toks) + SpliceIns(els, more)) + SpliceIns(fs, b);
    } else {
      var el, rest := els[0], els[1..];
      assert els == [el] + rest && els + fs == [el] + (rest + fs) && (a + b)[0] == a[0];
      PassesOver(el, rest, a);
      PassesOver(el, rest + fs, a + b);
      SpliceApart(rest, fs, a, b);
      assert [el] + (SpliceIns(rest, a) + SpliceIns(fs, b)) == ([el] + SpliceIns(rest, a)) + SpliceIns(fs, b);
    }
  }

  lemma {:induction false} OrderParts(a: seq<In>, b: seq<In>)
    requires InOrder(a + b)
    ensures InOrder(a) && InOrder(b)
    ensures forall x <- a, y <- b :: EndIn(x) <= StartOf(y) && StartOf(x) < EndIn(x) && StartOf(y) < EndIn(y)
  {
    forall i, j | 0 <= i < |a| && 0 <= j < |b|
      ensures EndIn(a[i]) <= StartOf(b[j]) && StartOf(a[i]) < EndIn(a[i]) && StartOf(b[j]) < EndIn(b[j]) {
      assert (a + b)[i] == a[i] && (a + b)[|a| + j] == b[j];
    }
    forall i | 0 <= i < |a| ensures StartOf(a[i]) < EndIn(a[i]) {
      assert (a + b)[i] == a[i];
    }
    forall i | 0 <= i < |b| ensures StartOf(b[i]) < EndIn(b[i]) {
      assert (a + b)[|a| + i] == b[i];
    }
    forall i, j | 0 <= i < j < |a| ensures EndIn(a[i]) <= StartOf(a[j]) {
      assert (a + b)[i] == a[i] && (a + b)[j] == a[j];
    }
    forall i, j | 0 <= i < j < |b| ensures EndIn(b[i]) <= StartOf(b[j]) {
      assert (a + b)[|a| + i] == b[i] && (a + b)[|a| + j] == b[j];
    }
  }

  lemma {:induction false} FirstAndLast(els: seq<In>, el: In)
    requires InOrder(els) && el in els
    ensures StartOf(els[0]) <= StartOf(el) < EndIn(el) <= EndIn(els[|els| - 1])
  {
    var i :| 0 <= i < |els| && els[i] == el;
    assert i > 0 ==> EndIn(els[0]) <= StartOf(els[i]);
    assert i < |els| - 1 ==> EndIn(els[i]) <= StartOf(els[|els| - 1]);
  }

  /** Two stretches of one text, each with its own insertions. */
  lemma {:induction false} SpliceParts(a: seq<In>, b: seq<In>, x: seq<Insertion>, y: seq<Insertion>)
    requires InOrder(a + b) && Within(a, x) && Within(b, y)
    ensures SpliceIns(a + b, x + y) == SpliceIns(a, x) + SpliceIns(b, y)
    ensures Within(a + b, x + y) && InOrder(a) && InOrder(b)
  {
    OrderParts(a, b);
    forall i, el | i in x && el in b ensures i.off < EndIn(el) {
      assert a[|a| - 1] in a;
    }
    if y != [] {
      assert y[0] in y && b[0] in b;
    }
    SpliceApart(a, b, x, y);
    WithinLeft(a, b, x);
    WithinRight(a, b, y);
  }

  lemma {:induction false} WithinLeft(a: seq<In>, b: seq<In>, x: seq<Insertion>)
    requires InOrder(a + b) && Within(a, x)
    ensures Within(a + b, x)
  {
    if x != [] {
      assert x[0] in x;
      assert (a + b)[0] == a[0] && a[|a| - 1] in a + b;
      FirstAndLast(a + b, a[|a| - 1]);
    }
  }

  lemma {:induction false} WithinRight(a: seq<In>, b: seq<In>, y: seq<Insertion>)
    requires InOrder(a + b) && Within(b, y)
    ensures Within(a + b, y)
  {
    if y != [] {
      assert y[0] in y;
      assert b[0] in a + b && (a + b)[|a + b| - 1] == b[|b| - 1];
      FirstAndLast(a + b, b[0]);
    }
  }

  lemma {:induction false} SpliceNothing(els: seq<In>)
    ensures SpliceIns(els, []) == els && Within(els, [])
  {
  }

  // ---------------------------------------------------------------- other leaves in the same query

  function RefillQuery(q: Query, ls: seq<seq<In>>): Query
    requires |ls| == |Leaves(q)|
  {
    var n := |OperandLeaves(q.first)|;
    q.(first := RefillOperand(q.first, ls[..n]), more := RefillMore(q.more, ls[n..]))
  }

  function RefillOperand(o: Operand, ls: seq<seq<In>>): Operand
    requires |ls| == |OperandLeaves(o)|
  {
    match o
    case Nested(open, q, close) => Operand.Nested(open, RefillQuery(q, ls), close)
    case Leaf(_) => Leaf(ls[0])
  }

  function RefillMore(m: More, ls: seq<seq<In>>): More
    requires |ls| == |MoreLeaves(m)|
  {
    match m
    case Done => Done
    case Then(op, quant, operand, more) =>
      var n := |OperandLeaves(operand)|;
      Then(op, quant, RefillOperand(operand, ls[..n]), RefillMore(more, ls[n..]))
  }

  lemma {:induction false} RefillQueryLeaves(q: Query, ls: seq<seq<In>>)
    requires |ls| == |Leaves(q)|
    ensures Leaves(RefillQuery(q, ls)) == ls
    decreases q
  {
    var n := |OperandLeaves(q.first)|;
    RefillOperandLeaves(q.first, ls[..n]);
    RefillMoreLeaves(q.more, ls[n..]);
    assert ls[..n] + ls[n..] == ls;
  }

  lemma {:induction false} RefillOperandLeaves(o: Operand, ls: seq<seq<In>>)
    requires |ls| == |OperandLeaves(o)|
    ensures OperandLeaves(RefillOperand(o, ls)) == ls
    decreases o
  {
    match o
    case Nested(_, q, _) => RefillQueryLeaves(q, ls);
    case Leaf(_) =>
  }

  lemma {:induction false} RefillMoreLeaves(m: More, ls: seq<seq<In>>)
    requires |ls| == |MoreLeaves(m)|
    ensures MoreLeaves(RefillMore(m, ls)) == ls
    decreases m
  {
    match m
    case Done =>
    case Then(_, _, operand, more) =>
      var n := |OperandLeaves(operand)|;
      RefillOperandLeaves(operand, ls[..n]);
      RefillMoreLeaves(more, ls[n..]);
      assert ls[..n] + ls[n..] == ls;
  }

  lemma {:induction false} RefillQueryWf(q: Query, ls: seq<seq<In>>)
    requires |ls| == |Leaves(q)| && WfQuery(q) && forall core <- ls :: WfCore(core)
    ensures WfQuery(RefillQuery(q, ls))
    decreases q
  {
    hide WfCore, WfWith, Quiet, SetWord;
    var n := |OperandLeaves(q.first)|;
    RefillOperandWf(q.first, ls[..n]);
    RefillMoreWf(q.more, ls[n..]);
    RefillNested(q.first, q.more, ls[..n], ls[n..]);
  }

  lemma {:induction false} RefillOperandWf(o: Operand, ls: seq<seq<In>>)
    requires |ls| == |OperandLeaves(o)| && WfOperand(o) && forall core <- ls :: WfCore(core)
    ensures WfOperand(RefillOperand(o, ls))
    decreases o
  {
    hide WfCore;
    match o
    case Nested(_, q, _) => RefillQueryWf(q, ls);
    case Leaf(_) => assert ls[0] in ls;
  }

  lemma {:induction false} RefillMoreWf(m: More, ls: seq<seq<In>>)
    requires |ls| == |MoreLeaves(m)| && WfMore(m) && forall core <- ls :: WfCore(core)
    ensures WfMore(RefillMore(m, ls))
    decreases m
  {
    hide WfCore, SetWord, HasWord;
    match m
    case Done =>
    case Then(_, _, operand, more) =>
      var n := |OperandLeaves(operand)|;
      RefillOperandWf(operand, ls[..n]);
      RefillMoreWf(more, ls[n..]);
  }

  lemma {:induction false} RefillNested(o: Operand, m: More, ls: seq<seq<In>>, ms: seq<seq<In>>)
    requires |ls| == |OperandLeaves(o)| && |ms| == |MoreLeaves(m)|
    ensures LastNested(RefillOperand(o, ls), RefillMore(m, ms)) == LastNested(o, m)
    decreases m
  {
    if m.Then? {
      var n := |OperandLeaves(m.operand)|;
      RefillNested(m.operand, m.more, ms[..n], ms[n..]);
    }
  }

  // ---------------------------------------------------------------- the whole statement

  function AllOf(inss: seq<seq<Insertion>>): seq<Insertion> { if inss == [] then [] else inss[0] + AllOf(inss[1..]) }

  lemma {:induction false} AllOfConcat(a: seq<seq<Insertion>>, b: seq<seq<Insertion>>)
    ensures AllOf(a + b) == AllOf(a) + AllOf(b)
    decreases |a|
  {
    if a == [] {
      assert a + b == b;
    } else {
      assert (a + b)[0] == a[0] && (a + b)[1..] == a[1..] + b;
      AllOfConcat(a[1..], b);
    }
  }

  lemma {:induction false} AllOfSplit(inss: seq<seq<Insertion>>, n: nat)
    requires n <= |inss|
    ensures AllOf(inss) == AllOf(inss[..n]) + AllOf(inss[n..])
  {
    assert inss[..n] + inss[n..] == inss;
    AllOfConcat(inss[..n], inss[n..]);
  }

  function Spliced(ls: seq<seq<In>>, inss: seq<seq<Insertion>>): seq<seq<In>>
    requires |ls| == |inss|
  {
    seq(|ls|, k requires 0 <= k < |ls| => SpliceIns(ls[k], inss[k]))
  }

  ghost predicate AllWithin(ls: seq<seq<In>>, inss: seq<seq<Insertion>>) {
    |ls| == |inss| && forall k :: 0 <= k < |ls| ==> Within(ls[k], inss[k])
  }

  lemma SplicedSplit(a: seq<seq<In>>, b: seq<seq<In>>, inss: seq<seq<Insertion>>)
    requires |a + b| == |inss|
    ensures Spliced(a + b, inss)[..|a|] == Spliced(a, inss[..|a|]) && Spliced(a + b, inss)[|a|..] == Spliced(b, inss[|a|..])
  {
    hide SpliceIns;
  }

  lemma AllWithinSplit(a: seq<seq<In>>, b: seq<seq<In>>, inss: seq<seq<Insertion>>)
    requires AllWithin(a + b, inss)
    ensures AllWithin(a, inss[..|a|]) && AllWithin(b, inss[|a|..])
  {
    hide Within;
    forall k | 0 <= k < |a| ensures Within(a[k], inss[..|a|][k]) {
      assert (a + b)[k] == a[k];
    }
    forall k | 0 <= k < |b| ensures Within(b[k], inss[|a|..][k]) {
      assert (a + b)[|a| + k] == b[k];
    }
  }

  lemma {:induction false} SpliceMiddle(w: seq<In>, o: seq<In>, m: seq<In>, t: seq<In>, x: seq<Insertion>, y: seq<Insertion>)
    requires InOrder(w + (o + (m + t))) && Within(o, x) && Within(m, y)
    ensures SpliceIns(w + (o + (m + t)), x + y) == w + (SpliceIns(o, x) + (SpliceIns(m, y) + t))
    ensures Within(w + (o + (m + t)), x + y)
  {
    hide SpliceIns, InOrder, Within;
    OrderParts(w, o + (m + t));
    OrderParts(o, m + t);
    SpliceNothing(w);
    SpliceNothing(t);
    SpliceParts(m, t, y, []);
    SpliceParts(o, m + t, x, y + []);
    SpliceParts(w, o + (m + t), [], x + (y + []));
    assert y + [] == y && [] + (x + y) == x + y;
  }

  /** All leaves at once: the text with every leaf's insertions is the query of the spliced
      leaves. */
  lemma {:induction false} QuerySplices(q: Query, inss: seq<seq<Insertion>>)
    requires InOrder(Spell(q)) && AllWithin(Leaves(q), inss)
    ensures SpliceIns(Spell(q), AllOf(inss)) == Spell(RefillQuery(q, Spliced(Leaves(q), inss)))
    ensures Within(Spell(q), AllOf(inss))
    decreases q
  {
    assert |Leaves(q)| == |inss|;
    hide SpliceIns, InOrder, Within, AllWithin, OperandSpell, MoreSpell, WithSpell, AllOf, RefillOperand, RefillMore, Spliced, OperandLeaves, MoreLeaves;
    var w := if q.with.Some? then WithSpell(q.with.value) else [];
    var o, m, a, b := OperandSpell(q.first), MoreSpell(q.more), OperandLeaves(q.first), MoreLeaves(q.more);
    var x, y := inss[..|a|], inss[|a|..];
    AllOfSplit(inss, |a|);
    AllWithinSplit(a, b, inss);
    SplicedSplit(a, b, inss);
    QueryOrder(w, o, m, q.tail);
    OperandSplices(q.first, x);
    MoreSplices(q.more, y);
    SpliceMiddle(w, o, m, q.tail, AllOf(x), AllOf(y));
  }

  lemma {:induction false} QueryOrder(w: seq<In>, o: seq<In>, m: seq<In>, t: seq<In>)
    requires InOrder(w + (o + (m + t)))
    ensures InOrder(o) && InOrder(m)
  {
    hide InOrder;
    OrderParts(w, o + (m + t));
    OrderParts(o, m + t);
    OrderParts(m, t);
  }

  lemma {:induction false} OperandSplices(o: Operand, inss: seq<seq<Insertion>>)
    requires InOrder(OperandSpell(o)) && AllWithin(OperandLeaves(o), inss)
    ensures SpliceIns(OperandSpell(o), AllOf(inss)) == OperandSpell(RefillOperand(o, Spliced(OperandLeaves(o), inss)))
    ensures Within(OperandSpell(o), AllOf(inss))
    decreases o
  {
    hide SpliceIns, InOrder, Within, Spell, Leaves, RefillQuery;
    match o
    case Nested(open, q, close) =>
      hide AllOf, Spliced;
      OrderParts([open] + Spell(q), [close]);
      OrderParts([open], Spell(q));
      QuerySplices(q, inss);
      SpliceNothing([open]);
      SpliceNothing([close]);
      SpliceParts([open], Spell(q), [], AllOf(inss));
      SpliceParts([open] + Spell(q), [close], [] + AllOf(inss), []);
      assert [] + AllOf(inss) + [] == AllOf(inss);
    case Leaf(core) =>
      assert inss == [inss[0]] && AllOf(inss[1..]) == [];
      assert AllOf(inss) == inss[0];
  }

  lemma {:induction false} MoreSplices(m: More, inss: seq<seq<Insertion>>)
    requires InOrder(MoreSpell(m)) && AllWithin(MoreLeaves(m), inss)
    ensures SpliceIns(MoreSpell(m), AllOf(inss)) == MoreSpell(RefillMore(m, Spliced(MoreLeaves(m), inss)))
    ensures Within(MoreSpell(m), AllOf(inss))
    decreases m
  {
    hide SpliceIns, InOrder, Within, OperandSpell, OperandLeaves, RefillOperand, Spliced;
    match m
    case Done => SpliceNothing([]);
    case Then(op, quant, operand, more) =>
      hide AllWithin, AllOf;
      var w, a, b := [op] + Opt(quant), OperandLeaves(operand), MoreLeaves(more);
      var x, y := inss[..|a|], inss[|a|..];
      var o, r := OperandSpell(operand), MoreSpell(more);
      AllOfSplit(inss, |a|);
      AllWithinSplit(a, b, inss);
      SplicedSplit(a, b, inss);
      OrderParts(w, o + r);
      OrderParts(o, r);
      OperandSplices(operand, x);
      MoreSplices(more, y);
      SpliceNothing(w);
      SpliceParts(o, r, AllOf(x), AllOf(y));
      SpliceParts(w, o + r, [], AllOf(x) + AllOf(y));
      assert [] + (AllOf(x) + AllOf(y)) == AllOf(x) + AllOf(y);
  }
}
