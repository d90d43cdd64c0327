/**
 Weave then enforce for set operations (internal/policy/weave.go, internal/policy/setop.go,
 internal/policy/enforce.go): where each core takes its conjuncts, that a woven core is a
 core, and what a second split finds in every branch.
 */
module SetOpEnforcing {
  import opened Core
  import opened Lexing
  import opened SqlTokens
  import opened ClauseScanning
  import opened SqlGrammar
  import opened ClauseReading
  import opened ClauseTheorems
  import opened Weaving
  import Enforcing
  import opened SetOpScanning
  import opened SetOpTheorems
  import opened SetOpWeaving

  // ---------------------------------------------------------------- still one core

  /** Where the elements leave the parentheses, and whether behind a dot; nothing when a
      parenthesis is closed too often or a semicolon or set operator stands outside them. */
  function Hushed(els: seq<Elem>, depth: nat, dot: bool): Option<(nat, bool)> {
    if els == [] then Some((depth, dot))
    else
      match els[0]
      case Hole(_, _, _) => Hushed(els[1..], depth, false)
      case Tk(t) =>
        if t.kind.RParen? then if depth == 0 then None else Hushed(els[1..], depth - 1, false)
        else if depth == 0 && (t.kind.Semicolon? || (!dot && t.kind.Ident? && Word(t) in SETOPS)) then None
        else Hushed(els[1..], if t.kind.LParen? then depth + 1 else depth, IsDot(t))
  }

  lemma {:induction false} QuietIsHushed(els: seq<In>, depth: nat, dot: bool)
    ensures Quiet(els, depth, dot, true) <==> Hushed(ElemsOf(els), depth, dot) == Some((0, false))
    decreases |els|
  {
    hide Upper, IsDot;
    if els != [] {
      assert ElemsOf(els)[0] == ElemOf(els[0]) && ElemsOf(els)[1..] == ElemsOf(els[1..]);
      if els[0].Token? && els[0].t.kind.RParen? {
        if depth > 0 {
          QuietIsHushed(els[1..], depth - 1, false);
        }
      } else {
        QuietIsHushed(els[1..], if HasKind(els[0], LParen) then depth + 1 else depth, els[0].Token? && IsDot(els[0].t));
      }
    }
  }

  lemma {:induction false} HushedConcat(a: seq<Elem>, b: seq<Elem>, depth: nat, dot: bool)
    ensures Hushed(a + b, depth, dot) == var x := Hushed(a, depth, dot); if x.None? then None else Hushed(b, x.value.0, x.value.1)
    decreases |a|
  {
    hide Upper, IsDot;
    if a == [] {
      assert a + b == b;
    } else {
      assert (a + b)[0] == a[0] && (a + b)[1..] == a[1..] + b;
      match a[0] {
        case Hole(_, _, _) => HushedConcat(a[1..], b, depth, false);
        case Tk(t) =>
          if t.kind.RParen? {
            if depth > 0 {
              HushedConcat(a[1..], b, depth - 1, false);
            }
          } else {
            HushedConcat(a[1..], b, if t.kind.LParen? then depth + 1 else depth, IsDot(t));
          }
      }
    }
  }

  /** One parenthesis further in, the same. */
  lemma {:induction false} HushedDeeper(els: seq<Elem>, depth: nat, dot: bool)
    requires Hushed(els, depth, dot).Some?
    ensures var x := Hushed(els, depth, dot).value; Hushed(els, depth + 1, dot) == Some((x.0 + 1, x.1))
    decreases |els|
  {
    hide Upper, IsDot;
    if els != [] {
      match els[0] {
        case Hole(_, _, _) => HushedDeeper(els[1..], depth, false);
        case Tk(t) =>
          if t.kind.RParen? {
            HushedDeeper(els[1..], depth - 1, false);
          } else {
            HushedDeeper(els[1..], if t.kind.LParen? then depth + 1 else depth, IsDot(t));
          }
      }
    }
  }

  /** Inside parentheses nothing matters but the parentheses. */
  lemma {:induction false} NestedHushed(ts: seq<Tok>, open: nat, depth: nat, dot: bool)
    requires SqlGrammar.Nested(ts, open) && depth > open
    ensures var x := Hushed(Tks(ts), depth, dot); x.Some? && x.value.0 == depth - open
    decreases |ts|
  {
    hide Upper, IsDot;
    if ts != [] {
      assert Tks(ts)[0] == Tk(ts[0]) && Tks(ts)[1..] == Tks(ts[1..]);
      var t := ts[0];
      if t.kind.RParen? {
        NestedHushed(ts[1..], open - 1, depth - 1, false);
      } else if t.kind.LParen? {
        NestedHushed(ts[1..], open + 1, depth + 1, IsDot(t));
      } else {
        NestedHushed(ts[1..], open, depth, IsDot(t));
      }
    }
  }

  lemma {:induction false} OneHushed(t: Tok, depth: nat, dot: bool)
    ensures Hushed([Tk(t)], depth, dot) ==
      if t.kind.RParen? then if depth == 0 then None else Some((depth - 1, false))
      else if depth == 0 && (t.kind.Semicolon? || (!dot && t.kind.Ident? && Word(t) in SETOPS)) then None
      else Some((if t.kind.LParen? then depth + 1 else depth, IsDot(t)))
  {
    assert [Tk(t)][1..] == [];
  }

  lemma {:induction false} BracketHushed(md: Mode, p: Expr, at: nat)
    requires Wf(md, p)
    ensures Hushed(Tks(Toks(Bracketed(p, at))), 0, false) == Some((0, false))
  {
    var ts, open, close := Toks(p), Opening(at), Closing(at);
    assert Toks(Bracketed(p, at)) == [open] + ts + [close];
    hide Upper, Toks, Wf;
    ToksCalm(md, p);
    CalmNested(ts, 0);
    NestedHushed(ts, 0, 1, false);
    OneHushed(open, 0, false);
    OneHushed(close, 1, Hushed(Tks(ts), 1, false).value.1);
    Spelled(open, ts, close);
    HushedConcat([Tk(open)], Tks(ts), 0, false);
    HushedConcat([Tk(open)] + Tks(ts), [Tk(close)], 0, false);
  }

  lemma {:induction false} AndHushed(at: nat, w: string)
    requires w == "AND" || w == "WHERE"
    ensures Hushed([Tk(Syn(Ident, w, at))], 0, false) == Some((0, false))
  {
    assert Upper(w) == w;
    OneHushed(Syn(Ident, w, at), 0, false);
  }

  lemma {:induction false} JoinedHushed(md: Mode, ps: seq<Expr>, at: nat)
    requires ps != [] && forall p <- ps :: Wf(md, p)
    ensures Hushed(Tks(Toks(Joined(ps, at))), 0, false) == Some((0, false))
  {
    var n := |ps| - 1;
    BracketHushed(md, ps[n], at);
    if n > 0 {
      JoinedHushed(md, ps[..n], at);
      var j, last := Toks(Joined(ps[..n], at)), Toks(Bracketed(ps[n], at));
      assert Toks(Joined(ps, at)) == j + [Conjunction(at)] + last;
      hide Toks, Joined, Hushed;
      AndHushed(at, "AND");
      assert Tks([Conjunction(at)]) == [Tk(Conjunction(at))];
      TksConcat(j + [Conjunction(at)], last);
      TksConcat(j, [Conjunction(at)]);
      HushedConcat(Tks(j), [Tk(Conjunction(at))], 0, false);
      HushedConcat(Tks(j) + [Tk(Conjunction(at))], Tks(last), 0, false);
    }
  }

  /** The scan of a clause keeps track of the same things. */
  lemma {:induction false} ReadHushed(md: Mode, r: Reader, els: seq<Elem>)
    requires r.ex.Some? && !r.done && !Read(md, r, els).done && Hushed(els, r.depth, r.prevDot).Some?
    ensures var x := Hushed(els, r.depth, r.prevDot).value; Read(md, r, els).depth == x.0 && Read(md, r, els).prevDot == x.1
    decreases |els|
  {
    hide StepScan, HoleScan, Upper, IsDot;
    if els != [] {
      var r' := ReadElem(md, r, els[0]);
      if !r'.done {
        assert els[0].Tk? && els[0].t.kind.RParen? ==> !IsDot(els[0].t) by { Undotted(els[0]); }
        ReadHushed(md, r', els[1..]);
      }
    }
  }

  lemma Undotted(el: Elem)
    ensures el.Tk? && el.t.kind.RParen? ==> !IsDot(el.t)
  {
  }

  lemma {:induction false} ClauseHushed(md: Mode, cl: Clause)
    requires WfClause(md, cl) && Hushed(Elems(cl), 0, false).Some?
    ensures Hushed(Elems(cl), 0, false) == Some((0, false))
  {
    hide Elems, WfClause, Read, Hushed;
    var st := ClauseRead(md, cl);
    ReadHushed(md, ClauseReading.In(NEW_SCAN, 0), Elems(cl));
  }

  /** A woven clause is as quiet as the clause was. */
  lemma {:induction false} WovenHushed(md: Mode, cl: Clause, where: Tok, ps: seq<Expr>)
    requires WfClause(md, cl) && ps != [] && (forall p <- ps :: Wf(md, p)) && Hushed(Elems(cl), 0, false).Some?
    ensures Hushed(Elems(Enforcing.Woven(cl, where, ps)), 0, false) == Some((0, false))
  {
    var at, s, e := EndOf(where), At(ClauseStart(cl)), At(ClauseEnd(cl));
    var body, and := Elems(cl), Conjunction(EndOf(where));
    var j := Toks(Joined(ps, at));
    hide Hushed, Joined, Elems, WfClause, Toks, ClauseStart, ClauseEnd;
    ClauseHushed(md, cl);
    JoinedHushed(md, ps, at);
    AndHushed(at, "AND");
    assert Tks([and]) == [Tk(and)];
    TksConcat(j, [and]);
    HushedConcat(Tks(j), [Tk(and)], 0, false);
    if Loose(cl.e) {
      Enforcing.LooseElems(md, cl);
      Enforcing.WrappedElems(cl, where, ps);
      OneHushed(Opening(s), 0, false);
      HushedDeeper(body, 0, false);
      OneHushed(Closing(e), 1, false);
      assert Tks([Opening(s)]) == [Tk(Opening(s))] && Tks([Closing(e)]) == [Tk(Closing(e))];
      var front := Tks(j + [and]);
      HushedConcat(front, Tks([Opening(s)]), 0, false);
      HushedConcat(front + Tks([Opening(s)]), body, 0, false);
      HushedConcat(front + Tks([Opening(s)]) + body, Tks([Closing(e)]), 0, false);
    } else {
      Enforcing.FlatElems(cl, where, ps);
      HushedConcat(Tks(j + [and]), body, 0, false);
    }
  }

  // ---------------------------------------------------------------- where a core takes its conjuncts

  predicate AtTop(t: Tok, depth: nat, dot: bool) { depth == 0 && t.kind.Ident? && !dot }

  /** A FROM stands outside parentheses. */
  predicate FromSeen(els: seq<In>, depth: nat, dot: bool) {
    els != [] &&
    match els[0]
    case Construct(_, _, _, _) => FromSeen(els[1..], depth, false)
    case Token(t, _) =>
      (AtTop(t, depth, dot) && Word(t) == "FROM") || FromSeen(els[1..], DepthAfter(depth, t), IsDot(t))
  }

  /** Behind a FROM, no clause keyword outside parentheses and no ORDER BY or GROUP BY
      construct. */
  predicate Tailless(els: seq<In>, depth: nat, dot: bool, from: bool) {
    els == [] ||
    match els[0]
    case Construct(_, boundary, _, _) => !(from && boundary) && Tailless(els[1..], depth, false, from)
    case Token(t, _) =>
      !(from && AtTop(t, depth, dot) && Word(t) in CORETAILS) &&
      Tailless(els[1..], DepthAfter(depth, t), IsDot(t), from || (AtTop(t, depth, dot) && Word(t) == "FROM"))
  }

  /** The elements in front of the slot change only `sawFrom` and `end`. */
  lemma {:induction false} HeadRuns(md: Mode, es: seq<Sig>, i: nat, els: seq<In>, st: CoreState, k: nat, dot: bool, d: nat)
    requires st.ex.None? && st.whereKwEnd < 0 && st.tailStart < 0
    requires Before(ElemsOf(els), k, dot) && Quiet(els, k, dot, true) && Tailless(els, k, dot, st.sawFrom) && Stands(es, i, els, Place(d + k, dot))
    ensures i + |els| <= |es|
    ensures RunCore(md, st, es, i, i + |els|, d) ==
      st.(sawFrom := st.sawFrom || FromSeen(els, k, dot), end := if els == [] then st.end else EndIn(els[|els| - 1]))
    decreases |els|
  {
    hide StepCore, Upper, SetWord, Stands, Quiet, Before, Tailless, FromSeen, IsDot;
    StandsInside(es, i, els, Place(d + k, dot));
    if els == [] {
      NoFrom(k, dot);
    } else {
      var st' := StepCore(md, st, es[i], d);
      HeadStep(md, es, i, els, st, k, dot, d);
      HeadRest(es, i, els, st.sawFrom, k, dot, d);
      match els[0] {
        case Construct(_, _, _, _) => HeadRuns(md, es, i + 1, els[1..], st', k, false, d);
        case Token(t, _) => HeadRuns(md, es, i + 1, els[1..], st', DepthAfter(k, t), IsDot(t), d);
      }
    }
  }

  lemma {:induction false} NoFrom(k: nat, dot: bool)
    ensures !FromSeen([], k, dot)
  {
  }

  /** The same holds of the elements behind the first. */
  lemma {:induction false} HeadRest(es: seq<Sig>, i: nat, els: seq<In>, from: bool, k: nat, dot: bool, d: nat)
    requires els != [] && i < |es|
    requires Before(ElemsOf(els), k, dot) && Quiet(els, k, dot, true) && Tailless(els, k, dot, from) && Stands(es, i, els, Place(d + k, dot))
    ensures
      var k' := if els[0].Token? then DepthAfter(k, els[0].t) else k;
      var dot' := els[0].Token? && IsDot(els[0].t);
      var here := els[0].Token? && AtTop(els[0].t, k, dot) && Word(els[0].t) == "FROM";
      var rest := els[1..];
      Before(ElemsOf(rest), k', dot') && Quiet(rest, k', dot', true) && Tailless(rest, k', dot', from || here) &&
      Stands(es, i + 1, rest, Place(d + k', dot')) && (FromSeen(els, k, dot) <==> here || FromSeen(rest, k', dot'))
  {
    hide Upper, SetWord;
    assert ElemsOf(els)[0] == ElemOf(els[0]) && ElemsOf(els)[1..] == ElemsOf(els[1..]);
  }

  lemma {:induction false} HeadStep(md: Mode, es: seq<Sig>, i: nat, els: seq<In>, st: CoreState, k: nat, dot: bool, d: nat)
    requires st.ex.None? && st.whereKwEnd < 0 && st.tailStart < 0 && els != [] && i < |es|
    requires Before(ElemsOf(els), k, dot) && Quiet(els, k, dot, true) && Tailless(els, k, dot, st.sawFrom) && Stands(es, i, els, Place(d + k, dot))
    ensures
      StepCore(md, st, es[i], d) ==
      st.(sawFrom := st.sawFrom || (els[0].Token? && AtTop(els[0].t, k, dot) && Word(els[0].t) == "FROM"), end := EndIn(els[0]))
  {
    hide Upper, SetWord, StepScan, HoleScan, Stands, Quiet, Before, Tailless;
    HeadFirst(es, i, els, st.sawFrom, k, dot, d);
  }

  /** What the first of these elements is not. */
  lemma {:induction false} HeadFirst(es: seq<Sig>, i: nat, els: seq<In>, from: bool, k: nat, dot: bool, d: nat)
    requires els != [] && i < |es|
    requires Before(ElemsOf(els), k, dot) && Quiet(els, k, dot, true) && Tailless(els, k, dot, from) && Stands(es, i, els, Place(d + k, dot))
    ensures
      match els[0]
      case Construct(_, boundary, start, end) => es[i].Block? && es[i].boundary == boundary && es[i].end == end && !(from && boundary)
      case Token(t, _) =>
        es[i].Plain? && es[i].t == t && es[i].dotted == dot &&
        (t.kind.Ident? ==> (es[i].depth == d <==> k == 0) && !(AtTop(t, k, dot) && (Word(t) == "WHERE" || (from && Word(t) in CORETAILS))))
  {
    hide Upper, SetWord;
    assert ElemsOf(els)[0] == ElemOf(els[0]);
  }

  /** Once the slot is a tail clause nothing behind it changes that. */
  lemma {:induction false} RestRuns(md: Mode, es: seq<Sig>, i: nat, els: seq<In>, st: CoreState, k: nat, dot: bool, d: nat)
    requires st.ex.None? && st.whereKwEnd < 0 && st.tailStart >= 0
    requires Before(ElemsOf(els), k, dot) && Quiet(els, k, dot, true) && Stands(es, i, els, Place(d + k, dot))
    ensures i + |els| <= |es|
    ensures var r := RunCore(md, st, es, i, i + |els|, d); r.ex.None? && r.whereKwEnd < 0 && r.tailStart == st.tailStart
    decreases |els|
  {
    hide StepCore, Upper, SetWord;
    StandsInside(es, i, els, Place(d + k, dot));
    if els != [] {
      assert ElemsOf(els)[0] == ElemOf(els[0]) && ElemsOf(els)[1..] == ElemsOf(els[1..]);
      var st' := StepCore(md, st, es[i], d);
      RestStep(md, es, i, els, st, k, dot, d);
      match els[0] {
        case Construct(_, _, _, _) => RestRuns(md, es, i + 1, els[1..], st', k, false, d);
        case Token(t, _) => RestRuns(md, es, i + 1, els[1..], st', DepthAfter(k, t), IsDot(t), d);
      }
    }
  }

  lemma {:induction false} RestStep(md: Mode, es: seq<Sig>, i: nat, els: seq<In>, st: CoreState, k: nat, dot: bool, d: nat)
    requires st.ex.None? && st.whereKwEnd < 0 && st.tailStart >= 0 && els != [] && i < |es|
    requires Before(ElemsOf(els), k, dot) && Quiet(els, k, dot, true) && Stands(es, i, els, Place(d + k, dot))
    ensures var r := StepCore(md, st, es[i], d); r.ex.None? && r.whereKwEnd < 0 && r.tailStart == st.tailStart
  {
    hide Upper, SetWord, StepScan, HoleScan;
    assert ElemsOf(els)[0] == ElemOf(els[0]);
  }

  predicate IsTail(el: In) {
    match el
    case Construct(_, boundary, _, _) => boundary
    case Token(t, _) => t.kind.Ident? && Word(t) in CORETAILS
  }

  /** How a core is taken apart at its slot: it has a WHERE; or, behind its FROM, a first tail
      clause; or neither. */
  datatype View =
    | AtWhere(pre: seq<In>, where: In, body: seq<In>, cl: Clause, post: seq<In>)
    | AtTail(pre: seq<In>, tail: In, rest: seq<In>)
    | AtEnd

  ghost predicate Views(md: Mode, leaf: seq<In>, v: View) {
    match v
    case AtWhere(pre, where, body, cl, post) =>
      leaf == pre + [where] + body + post && Before(ElemsOf(pre), 0, false) && HasWord(where, "WHERE") &&
      WfClause(md, cl) && ElemsOf(body) == Elems(cl) && Ends(ElemsOf(post))
    case AtTail(pre, tail, rest) =>
      leaf == pre + [tail] + rest && Before(ElemsOf(pre), 0, false) && Tailless(pre, 0, false, false) && FromSeen(pre, 0, false) &&
      IsTail(tail) && Before(ElemsOf(rest), 0, false)
    case AtEnd => Before(ElemsOf(leaf), 0, false) && Tailless(leaf, 0, false, false)
  }

  lemma {:induction false} TailSlot(md: Mode, es: seq<Sig>, c: (nat, nat), pre: seq<In>, tail: In, rest: seq<In>)
    requires LeafStands(es, c, pre + [tail] + rest) && Before(ElemsOf(pre), 0, false) && Tailless(pre, 0, false, false)
    requires FromSeen(pre, 0, false) && IsTail(tail) && Before(ElemsOf(rest), 0, false)
    ensures c.1 <= |es|
    ensures var b := BranchOf(md, es, c.0, c.1, es[c.0].depth); b.whereKwEnd < 0 && b.tailStart == StartOf(tail)
  {
    hide Upper, Before, RunCore, Stands, Quiet, Tailless, FromSeen;
    var d, p := es[c.0].depth, Place(es[c.0].depth, false);
    var leaf := pre + [tail] + rest;
    assert leaf == pre + ([tail] + rest);
    StandsInside(es, c.0, leaf, p);
    StandsSplit(es, c.0, pre, [tail] + rest, p);
    LeafQuiet(leaf);
    QuietFront(pre, [tail] + rest, 0, false);
    QuietAfter(pre, 0, false, true, d);
    HeadRuns(md, es, c.0, pre, CORE, 0, false, d);
    var i := c.0 + |pre|;
    StandsSplit(es, i, [tail], rest, p);
    TailStands(es, i, tail, d);
    var st := RunCore(md, CORE, es, c.0, i, d);
    TailStep(md, st, es[i], tail, d);
    TailQuiet(tail, rest);
    RestRuns(md, es, i + 1, rest, StepCore(md, st, es[i], d), 0, false, d);
    RunConcat(md, CORE, es, c.0, i, c.1, d);
    RunConcat(md, st, es, i, i + 1, c.1, d);
    RunOne(md, st, es, i, d);
  }

  lemma TailStep(md: Mode, st: CoreState, e: Sig, tail: In, d: nat)
    requires st.ex.None? && st.whereKwEnd < 0 && st.tailStart < 0 && st.sawFrom && IsTail(tail) && Some(e) == Placed1(tail, Place(d, false))
    ensures var r := StepCore(md, st, e, d); r.ex.None? && r.whereKwEnd < 0 && r.tailStart == StartOf(tail)
  {
    hide Upper;
  }

  function Placed1(el: In, p: Place): Option<Sig> {
    var one := Placed(el, p);
    if one.None? then None else Some(one.value.0)
  }

  lemma {:induction false} TailStands(es: seq<Sig>, i: nat, tail: In, d: nat)
    requires Stands(es, i, [tail], Place(d, false)) && IsTail(tail)
    ensures i < |es| && Some(es[i]) == Placed1(tail, Place(d, false)) && After([tail], Place(d, false)) == Some(Place(d, false))
  {
    hide Upper;
    assert [tail][1..] == [];
  }

  lemma {:induction false} TailQuiet(tail: In, rest: seq<In>)
    requires Quiet([tail] + rest, 0, false, true) && IsTail(tail)
    ensures Quiet(rest, 0, false, true)
  {
    hide Upper, SetWord;
    assert ([tail] + rest)[0] == tail && ([tail] + rest)[1..] == rest;
  }

  lemma {:induction false} EndSlot(md: Mode, es: seq<Sig>, c: (nat, nat), leaf: seq<In>)
    requires LeafStands(es, c, leaf) && Before(ElemsOf(leaf), 0, false) && Tailless(leaf, 0, false, false)
    ensures c.1 <= |es|
    ensures
      var b := BranchOf(md, es, c.0, c.1, es[c.0].depth);
      leaf != [] && b.whereKwEnd < 0 && b.tailStart < 0 && b.end == EndIn(leaf[|leaf| - 1])
  {
    hide Upper, Before, RunCore, Stands, Quiet, Tailless, FromSeen;
    StandsInside(es, c.0, leaf, Place(es[c.0].depth, false));
    LeafQuiet(leaf);
    HeadRuns(md, es, c.0, leaf, CORE, 0, false, es[c.0].depth);
  }

  /** The slot of a branch, in all three cases. */
  lemma {:induction false} BranchSlots(md: Mode, es: seq<Sig>, c: (nat, nat), leaf: seq<In>, v: View)
    requires LeafStands(es, c, leaf) && Views(md, leaf, v)
    ensures c.1 <= |es| && leaf != []
    ensures
      var b := BranchOf(md, es, c.0, c.1, es[c.0].depth);
      match v
      case AtWhere(_, where, _, _, _) => where.Token? && b.whereKwEnd == EndOf(where.t)
      case AtTail(_, tail, _) => b.whereKwEnd < 0 && b.tailStart == StartOf(tail)
      case AtEnd => b.whereKwEnd < 0 && b.tailStart < 0 && b.end == EndIn(leaf[|leaf| - 1])
  {
    hide BranchOf, Stands, Quiet, Before, Tailless, FromSeen, WfClause, Ends, Upper, Elems;
    match v
    case AtWhere(pre, where, body, cl, post) =>
      assert leaf == pre + [where] + (body + post);
      BranchSlot(md, es, c, pre, where, body + post);
    case AtTail(pre, tail, rest) => TailSlot(md, es, c, pre, tail, rest);
    case AtEnd => EndSlot(md, es, c, leaf);
  }

  // ---------------------------------------------------------------- one core, woven

  /** The insertions of one branch. */
  function BranchInsertions(exactIdents: bool, b: Branch, ps: seq<Expr>): seq<Insertion> {
    Insertions(Slot(b.whereKwEnd, b.tailStart, b.end), b.where, Enforcing.Needed(exactIdents, b.where, ps))
  }

  /** The core reads as a core, begins as it did, and is scoped: its WHERE is read, without
      a top-level OR, with every conjunct, and a second weave has nothing to insert. */
  ghost predicate Enforced(md: Mode, exactIdents: bool, leaf: seq<In>, leaf': seq<In>, ps: seq<Expr>) {
    var again := WhereScan(md, ElemsOf(leaf'));
    WfCore(leaf) && WfCore(leaf') && leaf'[0] == leaf[0] && (ps != [] ==> again.lexOK && !again.hasOR) &&
    (forall p <- ps :: Enforcing.Present(exactIdents, again, p)) && Enforcing.Needed(exactIdents, again, ps) == []
  }

  lemma {:induction false} LinksLast(ks: seq<Link>)
    requires ks != []
    ensures LinksElems(ks) != [] && ElemEnd(LinksElems(ks)[|LinksElems(ks)| - 1]) == LinkEnd(ks[|ks| - 1])
    decreases |ks|
  {
    hide Toks;
    LinkLast(ks[0]);
    if |ks| > 1 {
      LinksLast(ks[1..]);
    } else {
      assert LinksElems(ks) == LinkElems(ks[0]) + [];
    }
  }

  lemma {:induction false} LinkLast(k: Link)
    ensures LinkElems(k) != [] && ElemEnd(LinkElems(k)[|LinkElems(k)| - 1]) == LinkEnd(k)
  {
    hide Toks;
    if k.AndExpr? {
      var ts := [k.op] + Toks(k.e);
      assert LinkElems(k) == Tks(ts);
    }
  }

  /** The first and the last element of a clause are its extent. */
  lemma {:induction false} BodyEnds(md: Mode, cl: Clause)
    requires WfClause(md, cl)
    ensures
      var els := Elems(cl);
      Toks(cl.e) != [] && els != [] && els[0] == Tk(Toks(cl.e)[0]) && ClauseStart(cl) == Toks(cl.e)[0].at && ClauseEnd(cl) == ElemEnd(els[|els| - 1])
  {
    hide Wf, WfLink, LinkEnd, Toks, LinksElems;
    NonEmpty(md, cl.e);
    if cl.links != [] {
      LinksLast(cl.links);
    } else {
      assert LinksElems([]) == [] by { NoLinks(md, NEW_SCAN); }
    }
  }

  lemma {:induction false} ElemsBound(els: seq<In>, a: int)
    ensures (forall x <- els :: EndIn(x) <= a) ==> AllEnd(ElemsOf(els), a)
    ensures (forall x <- els :: EndIn(x) > a) ==> AllBehind(ElemsOf(els), a)
  {
    forall el | el in ElemsOf(els) ensures exists x <- els :: ElemOf(x) == el {
      var i :| 0 <= i < |els| && ElemsOf(els)[i] == el;
      assert els[i] in els;
    }
  }

  lemma {:induction false} PlacedBounds(front: seq<In>, body: seq<In>, post: seq<In>)
    requires InOrder(front + (body + post)) && front != [] && body != []
    ensures
      var a, s, e := EndIn(front[|front| - 1]), StartOf(body[0]), EndIn(body[|body| - 1]);
      a <= s <= e && AllEnd(ElemsOf(front), a) && AllBehind(ElemsOf(body), a) && AllBehind(ElemsOf(body), s) && AllEnd(ElemsOf(body), e) &&
      AllBehind(ElemsOf(post), e)
  {
    hide InOrder, AllEnd, AllBehind, EndIn, StartOf;
    var last, first, end := front[|front| - 1], body[0], body[|body| - 1];
    OrderParts(front, body + post);
    OrderParts(body, post);
    assert last in front && first in body && end in body && first in body + post;
    FirstAndLast(body, end);
    forall x | x in front ensures EndIn(x) <= EndIn(last) {
      FirstAndLast(front, x);
    }
    forall x | x in body ensures StartOf(first) < EndIn(x) <= EndIn(end) && EndIn(last) < EndIn(x) {
      FirstAndLast(body, x);
    }
    ElemsBound(front, EndIn(last));
    ElemsBound(body, EndIn(last));
    ElemsBound(body, StartOf(first));
    ElemsBound(body, EndIn(end));
    ElemsBound(post, EndIn(end));
  }

  lemma {:induction false} PlacedHere(md: Mode, pre: seq<In>, where: In, body: seq<In>, cl: Clause, post: seq<In>)
    requires InOrder(pre + [where] + body + post) && where.Token? && WfClause(md, cl) && ElemsOf(body) == Elems(cl)
    ensures Enforcing.Placed(ElemsOf(pre), where.t, cl, ElemsOf(post)) && body != []
    ensures StartOf(body[0]) == ClauseStart(cl) && EndIn(body[|body| - 1]) == ClauseEnd(cl)
  {
    BodyEnds(md, cl);
    hide WfClause, Elems, InOrder, ClauseStart, ClauseEnd, Toks, AllEnd, AllBehind;
    assert ElemsOf(body)[0] == ElemOf(body[0]) && ElemsOf(body)[|body| - 1] == ElemOf(body[|body| - 1]);
    var front := pre + [where];
    assert pre + [where] + body + post == front + (body + post);
    PlacedBounds(front, body, post);
    ElemsConcat(pre, [where]);
    assert ElemsOf([where]) == [Tk(where.t)];
  }

  lemma {:induction false} FirstKept(els: seq<In>, ins: seq<Insertion>)
    requires els != [] && (ins != [] ==> EndIn(els[0]) <= ins[0].off)
    ensures SpliceIns(els, ins) != [] && SpliceIns(els, ins)[0] == els[0]
  {
  }

  /** A core whose scanned elements are quiet, and which begins as a core, is a core. */
  lemma {:induction false} StillCore(leaf: seq<In>, leaf': seq<In>)
    requires WfCore(leaf) && leaf' != [] && leaf'[0] == leaf[0] && Hushed(ElemsOf(leaf'), 0, false) == Some((0, false))
    ensures WfCore(leaf')
  {
    hide Hushed, Upper, Quiet;
    QuietIsHushed(leaf', 0, false);
  }

  lemma {:induction false} StatementHushed(pre: seq<Elem>, where: Tok, cl: Clause, post: seq<Elem>)
    ensures Hushed(Enforcing.Statement(pre, where, cl, post), 0, false) ==
      var x := Hushed(pre + [Tk(where)], 0, false);
      if x.None? then None
      else var y := Hushed(Elems(cl), x.value.0, x.value.1); if y.None? then None else Hushed(post, y.value.0, y.value.1)
  {
    hide Hushed, Elems;
    HushedConcat(pre + [Tk(where)], Elems(cl), 0, false);
    HushedConcat(pre + [Tk(where)] + Elems(cl), post, 0, false);
  }

  lemma {:induction false} FrontHushed(pre: seq<In>, where: In, rest: seq<In>)
    requires Quiet(pre + [where] + rest, 0, false, true) && Before(ElemsOf(pre), 0, false) && HasWord(where, "WHERE")
    ensures Hushed(ElemsOf(pre) + [Tk(where.t)], 0, false) == Some((0, false))
  {
    hide Hushed, Before, Quiet, Upper;
    assert pre + [where] + rest == pre + ([where] + rest);
    QuietFront(pre, [where] + rest, 0, false);
    QuietIsHushed(pre, 0, false);
    HushedConcat(ElemsOf(pre), [Tk(where.t)], 0, false);
    OneHushed(where.t, 0, false);
  }

  /** A core with a WHERE. */
  lemma {:induction false} WhereLeaf(md: Mode, exactIdents: bool, leaf: seq<In>, pre: seq<In>, where: In, body: seq<In>, cl: Clause, post: seq<In>, b: Branch, ps: seq<Expr>)
    requires WfCore(leaf) && InOrder(leaf) && Views(md, leaf, AtWhere(pre, where, body, cl, post)) && forall p <- ps :: Wf(md, p)
    requires b.where == WhereScan(md, ElemsOf(leaf)) && b.whereKwEnd == EndOf(where.t)
    ensures
      var ins := BranchInsertions(exactIdents, b, ps);
      Within(leaf, ins) && Enforced(md, exactIdents, leaf, SpliceIns(leaf, ins), ps)
  {
    hide Hushed, Before, Quiet, Upper, WfClause, Elems, Ends, WhereScan, Wf, InOrder, SpliceIns, SpliceToks, ClauseStart, ClauseEnd, Within;
    hide Enforcing.Present, Enforcing.Placed, Enforcing.Woven, Enforcing.Needed, Insertions;
    var ins, need := BranchInsertions(exactIdents, b, ps), Enforcing.Needed(exactIdents, b.where, ps);
    LeafElems(leaf, pre, where, body, cl, post);
    PlacedHere(md, pre, where, body, cl, post);
    var slot := Slot(b.whereKwEnd, b.tailStart, b.end);
    Enforcing.WovenIsEnforced(md, exactIdents, ElemsOf(pre), where.t, cl, ElemsOf(post), slot, ps);
    SpliceElems(leaf, ins);
    WhereIsClause(md, ElemsOf(pre), where.t, cl, ElemsOf(post));
    WhereWithin(leaf, pre, where, body, post, slot, b.where, need, ClauseStart(cl), ClauseEnd(cl));
    WhereFirst(leaf, pre, where, body + post, slot, b.where, need);
    FirstKept(leaf, ins);
    if need == [] {
      SpliceNothing(leaf);
      NoneInserted(slot, b.where);
    } else {
      Enforcing.NeededMember(exactIdents, b.where, ps);
      Enforcing.WeaveInserts(md, ElemsOf(pre), where.t, cl, ElemsOf(post), b.where, slot, need);
      WhereHushed(md, leaf, pre, where, body, cl, post, need);
      StillCore(leaf, SpliceIns(leaf, ins));
    }
  }

  lemma NoneInserted(slot: Slot, cs: ClauseScan)
    ensures Insertions(slot, cs, []) == []
  {
  }

  lemma {:induction false} LeafElems(leaf: seq<In>, pre: seq<In>, where: In, body: seq<In>, cl: Clause, post: seq<In>)
    requires leaf == pre + [where] + body + post && where.Token? && ElemsOf(body) == Elems(cl)
    ensures ElemsOf(leaf) == Enforcing.Statement(ElemsOf(pre), where.t, cl, ElemsOf(post))
  {
    hide Elems;
    ElemsConcat(pre + [where] + body, post);
    ElemsConcat(pre + [where], body);
    ElemsConcat(pre, [where]);
    assert ElemsOf([where]) == [Tk(where.t)];
  }

  lemma {:induction false} WhereWithin(leaf: seq<In>, pre: seq<In>, where: In, body: seq<In>, post: seq<In>, slot: Slot, cs: ClauseScan, need: seq<Expr>, start: int, end: int)
    requires leaf == pre + [where] + body + post && InOrder(leaf) && where.Token? && body != [] && slot.whereKwEnd == EndOf(where.t)
    requires StartOf(body[0]) == start && EndIn(body[|body| - 1]) == end && cs.start == start && cs.end == end
    ensures Within(leaf, Insertions(slot, cs, need))
  {
    hide InOrder, Joined, Toks;
    assert where in leaf && body[0] in leaf && body[|body| - 1] in leaf;
    FirstAndLast(leaf, where);
    FirstAndLast(leaf, body[0]);
    FirstAndLast(leaf, body[|body| - 1]);
  }

  lemma {:induction false} WhereFirst(leaf: seq<In>, pre: seq<In>, where: In, rest: seq<In>, slot: Slot, cs: ClauseScan, need: seq<Expr>)
    requires leaf == pre + [where] + rest && InOrder(leaf) && where.Token? && slot.whereKwEnd == EndOf(where.t)
    ensures var ins := Insertions(slot, cs, need); leaf != [] && (ins != [] ==> EndIn(leaf[0]) <= ins[0].off)
  {
    hide InOrder, Joined, Toks;
    OrderParts(pre + [where], rest);
    var front := pre + [where];
    assert leaf[0] == front[0] && front[|front| - 1] == where && front[0] in front;
    FirstAndLast(front, front[0]);
  }

  lemma {:induction false} WhereHushed(md: Mode, leaf: seq<In>, pre: seq<In>, where: In, body: seq<In>, cl: Clause, post: seq<In>, need: seq<Expr>)
    requires WfCore(leaf) && Views(md, leaf, AtWhere(pre, where, body, cl, post)) && need != [] && forall p <- need :: Wf(md, p)
    ensures Hushed(Enforcing.Statement(ElemsOf(pre), where.t, Enforcing.Woven(cl, where.t, need), ElemsOf(post)), 0, false) == Some((0, false))
  {
    hide Hushed, Before, Quiet, Upper, WfClause, Elems, Ends, Wf, Enforcing.Woven, Enforcing.Statement;
    LeafQuiet(leaf);
    QuietIsHushed(leaf, 0, false);
    assert leaf == pre + [where] + (body + post);
    FrontHushed(pre, where, body + post);
    LeafElems(leaf, pre, where, body, cl, post);
    StatementHushed(ElemsOf(pre), where.t, cl, ElemsOf(post));
    ClauseHushed(md, cl);
    WovenHushed(md, cl, where.t, need);
    StatementHushed(ElemsOf(pre), where.t, Enforcing.Woven(cl, where.t, need), ElemsOf(post));
  }

  /** A core without one: the new WHERE goes in front of the tail clause, or to the end. */
  lemma {:induction false} TailLeaf(md: Mode, exactIdents: bool, leaf: seq<In>, pre: seq<In>, post: seq<In>, b: Branch, ps: seq<Expr>)
    requires WfCore(leaf) && InOrder(leaf) && leaf == pre + post && pre != [] && Before(ElemsOf(pre), 0, false) && Ends(ElemsOf(post))
    requires b.where == WhereScan(md, ElemsOf(leaf)) == NOT_FOUND && b.whereKwEnd < 0 && forall p <- ps :: Wf(md, p)
    requires if post != [] then b.tailStart == StartOf(post[0]) else b.tailStart < 0 && b.end == EndIn(leaf[|leaf| - 1])
    ensures
      var ins := BranchInsertions(exactIdents, b, ps);
      Within(leaf, ins) && Enforced(md, exactIdents, leaf, SpliceIns(leaf, ins), ps)
  {
    hide Hushed, Before, Quiet, Upper, Ends, WhereScan, Wf, InOrder, SpliceIns, SpliceToks, Within, AllEnd, AllBehind;
    hide Enforcing.Present, Enforcing.Needed, Insertions;
    var ins, slot := BranchInsertions(exactIdents, b, ps), Slot(b.whereKwEnd, b.tailStart, b.end);
    var at := SlotPlaced(leaf, pre, post, b);
    ElemsConcat(pre, post);
    Enforcing.SynthesizedIsEnforced(md, exactIdents, ElemsOf(pre), ElemsOf(post), slot, ps);
    SpliceElems(leaf, ins);
    TailWithin(leaf, pre, post, slot, at, ps);
    FirstKept(leaf, ins);
    if ps == [] {
      SpliceNothing(leaf);
      NoneInserted(slot, b.where);
    } else {
      Enforcing.WhereSynthesized(md, ElemsOf(pre), ElemsOf(post), slot, b.where, ps, (s: seq<ConjTok>) => Unknown);
      TailHushed(md, leaf, pre, post, at, ps);
      StillCore(leaf, SpliceIns(leaf, ins));
    }
  }

  lemma {:induction false} SlotPlaced(leaf: seq<In>, pre: seq<In>, post: seq<In>, b: Branch) returns (at: nat)
    requires InOrder(leaf) && leaf == pre + post && pre != []
    requires if post != [] then b.tailStart == StartOf(post[0]) else b.tailStart < 0 && b.end == EndIn(leaf[|leaf| - 1])
    ensures at == (if b.tailStart >= 0 then b.tailStart else b.end) && (b.tailStart >= 0 || b.end >= 0)
    ensures AllEnd(ElemsOf(pre), at) && AllBehind(ElemsOf(post), at) && EndIn(leaf[0]) <= at && StartOf(leaf[0]) <= at <= EndIn(leaf[|leaf| - 1])
  {
    hide InOrder, AllEnd, AllBehind;
    OrderParts(pre, post);
    assert leaf[0] == pre[0] && pre[0] in pre && leaf[|leaf| - 1] in leaf;
    FirstAndLast(leaf, leaf[0]);
    if post != [] {
      at := StartOf(post[0]);
      assert post[0] in post && leaf[|leaf| - 1] == post[|post| - 1] && post[|post| - 1] in post;
      forall x | x in pre ensures EndIn(x) <= at {
      }
      forall x | x in post ensures EndIn(x) > at {
        FirstAndLast(post, x);
      }
      FirstAndLast(post, post[|post| - 1]);
    } else {
      at := EndIn(leaf[|leaf| - 1]);
      assert pre == leaf;
      forall x | x in pre ensures EndIn(x) <= at {
        FirstAndLast(leaf, x);
      }
    }
    ElemsBound(pre, at);
    ElemsBound(post, at);
  }

  lemma TailWithin(leaf: seq<In>, pre: seq<In>, post: seq<In>, slot: Slot, at: nat, ps: seq<Expr>)
    requires leaf != [] && slot.whereKwEnd < 0 && at == (if slot.tailStart >= 0 then slot.tailStart else slot.end) && (slot.tailStart >= 0 || slot.end >= 0)
    requires EndIn(leaf[0]) <= at && StartOf(leaf[0]) <= at <= EndIn(leaf[|leaf| - 1])
    ensures var ins := Insertions(slot, NOT_FOUND, ps); Within(leaf, ins) && (ins != [] ==> EndIn(leaf[0]) <= ins[0].off)
  {
    hide Joined, Toks;
  }

  lemma {:induction false} TailHushed(md: Mode, leaf: seq<In>, pre: seq<In>, post: seq<In>, at: nat, ps: seq<Expr>)
    requires WfCore(leaf) && leaf == pre + post && Before(ElemsOf(pre), 0, false) && ps != [] && forall p <- ps :: Wf(md, p)
    ensures Hushed(Enforcing.Statement(ElemsOf(pre), Syn(Ident, "WHERE", at), Clause(Joined(ps, at), []), ElemsOf(post)), 0, false) == Some((0, false))
  {
    var where, cl := Syn(Ident, "WHERE", at), Clause(Joined(ps, at), []);
    assert Elems(cl) == Tks(Toks(Joined(ps, at))) + [] == Tks(Toks(Joined(ps, at)));
    hide Hushed, Before, Quiet, Upper, Elems, Joined, Wf, Enforcing.Statement;
    LeafQuiet(leaf);
    QuietFront(pre, post, 0, false);
    QuietIsHushed(pre, 0, false);
    QuietIsHushed(post, 0, false);
    AndHushed(at, "WHERE");
    HushedConcat(ElemsOf(pre), [Tk(where)], 0, false);
    JoinedHushed(md, ps, at);
    StatementHushed(ElemsOf(pre), where, cl, ElemsOf(post));
  }

  /** Any core, at its own slot. */
  lemma {:induction false} LeafWoven(md: Mode, exactIdents: bool, es: seq<Sig>, c: (nat, nat), leaf: seq<In>, v: View, ps: seq<Expr>)
    requires LeafStands(es, c, leaf) && InOrder(leaf) && Views(md, leaf, v) && forall p <- ps :: Wf(md, p)
    ensures c.1 <= |es| && leaf != []
    ensures
      var ins := BranchInsertions(exactIdents, BranchOf(md, es, c.0, c.1, es[c.0].depth), ps);
      Within(leaf, ins) && Enforced(md, exactIdents, leaf, SpliceIns(leaf, ins), ps)
  {
    hide BranchOf, Stands, Before, Tailless, FromSeen, WfClause, Ends, Upper, Elems, WfCore, WhereScan, Within, Enforced, BranchInsertions, Wf, InOrder;
    BranchSlots(md, es, c, leaf, v);
    BranchWhere(md, es, c, leaf);
    var b := BranchOf(md, es, c.0, c.1, es[c.0].depth);
    match v
    case AtWhere(pre, where, body, cl, post) => WhereLeaf(md, exactIdents, leaf, pre, where, body, cl, post, b, ps);
    case AtTail(pre, tail, rest) =>
      TailEnds(tail, rest);
      SomethingAhead(pre);
      NothingRead(md, leaf);
      assert leaf == pre + ([tail] + rest);
      TailLeaf(md, exactIdents, leaf, pre, [tail] + rest, b, ps);
    case AtEnd =>
      NothingRead(md, leaf);
      assert leaf + [] == leaf && Ends(ElemsOf([])) by { NothingEnds(); }
      TailLeaf(md, exactIdents, leaf, leaf, [], b, ps);
  }

  lemma TailEnds(tail: In, rest: seq<In>)
    requires IsTail(tail)
    ensures Ends(ElemsOf([tail] + rest))
  {
    hide Upper;
    assert ElemsOf([tail] + rest)[0] == ElemOf(tail);
  }

  lemma NothingEnds()
    ensures Ends(ElemsOf([]))
  {
  }

  lemma {:induction false} SomethingAhead(pre: seq<In>)
    requires FromSeen(pre, 0, false)
    ensures pre != []
  {
    hide Upper;
  }

  lemma {:induction false} NothingRead(md: Mode, leaf: seq<In>)
    requires Read(md, START, ElemsOf(leaf)).ex.None?
    ensures WhereScan(md, ElemsOf(leaf)) == NOT_FOUND
  {
    hide Read;
  }

  // ---------------------------------------------------------------- every branch

  /** What a successful split returns. */
  ghost predicate SplitOf(md: Mode, els: seq<In>, es: seq<Sig>, bs: seq<Branch>, m: map<nat, nat>) {
    var f := Flatten(els, Place(0, false));
    f.Some? && f.value.0 == es && Cores(es).Some? && Recorded(md, es, Cores(es).value, [], map[], bs, m)
  }

  function AllInsertions(exactIdents: bool, bs: seq<Branch>, pss: seq<seq<Expr>>): seq<seq<Insertion>>
    requires |bs| == |pss|
  {
    seq(|bs|, k requires 0 <= k < |bs| => BranchInsertions(exactIdents, bs[k], pss[k]))
  }

  lemma {:induction false} QueryLeafOrder(q: Query)
    requires InOrder(Spell(q))
    ensures forall leaf <- Leaves(q) :: InOrder(leaf)
    decreases q
  {
    hide InOrder, OperandSpell, MoreSpell, WithSpell;
    QueryOrder(if q.with.Some? then WithSpell(q.with.value) else [], OperandSpell(q.first), MoreSpell(q.more), q.tail);
    OperandLeafOrder(q.first);
    MoreLeafOrder(q.more);
  }

  lemma {:induction false} OperandLeafOrder(o: Operand)
    requires InOrder(OperandSpell(o))
    ensures forall leaf <- OperandLeaves(o) :: InOrder(leaf)
    decreases o
  {
    hide InOrder, Spell;
    match o
    case Nested(open, q, close) =>
      OrderParts([open] + Spell(q), [close]);
      OrderParts([open], Spell(q));
      QueryLeafOrder(q);
    case Leaf(core) =>
  }

  lemma {:induction false} MoreLeafOrder(m: More)
    requires InOrder(MoreSpell(m))
    ensures forall leaf <- MoreLeaves(m) :: InOrder(leaf)
    decreases m
  {
    hide InOrder, OperandSpell;
    match m
    case Done =>
    case Then(op, quant, operand, more) =>
      OrderParts([op] + Opt(quant), OperandSpell(operand) + MoreSpell(more));
      OrderParts(OperandSpell(operand), MoreSpell(more));
      OperandLeafOrder(operand);
      MoreLeafOrder(more);
  }

  /** The branches and the leaves they stand for. */
  lemma {:induction false} BranchesStand(md: Mode, q: Query, semis: seq<In>, es: seq<Sig>, bs: seq<Branch>, m: map<nat, nat>) returns (cores: seq<(nat, nat)>)
    requires WfQuery(q) && (forall x <- semis :: HasKind(x, Semicolon)) && SplitOf(md, Spell(q) + semis, es, bs, m)
    ensures |cores| == |bs| == |Leaves(q)|
    ensures forall k :: 0 <= k < |bs| ==>
      LeafStands(es, cores[k], Leaves(q)[k]) && cores[k].0 <= cores[k].1 <= |es| && cores[k].0 < |es| &&
      bs[k] == BranchOf(md, es, cores[k].0, cores[k].1, es[cores[k].0].depth)
  {
    hide Flatten, Cores, Recorded, WfQuery, Spell, LeavesStand, BranchOf, Leaves, LeafStands, Branches, Attributes;
    SplitExact(q, semis);
    cores := Cores(es).value;
    RecordedParts(md, es, cores, bs, m);
    BranchesCount(md, es, cores);
    LeavesCount(es, cores, Leaves(q));
    forall k | 0 <= k < |bs| ensures cores[k].0 <= cores[k].1 <= |es| && cores[k].0 < |es| {
      BranchShows(md, es, cores[k], Leaves(q)[k]);
    }
  }

  /** What is asked of the leaves: where a conjunct is to go in, the core is one of the three
      kinds. */
  ghost predicate Ready(md: Mode, q: Query, views: seq<View>, pss: seq<seq<Expr>>) {
    |views| == |pss| == |Leaves(q)| &&
    forall k :: 0 <= k < |pss| ==> (pss[k] != [] ==> Views(md, Leaves(q)[k], views[k])) && forall p <- pss[k] :: Wf(md, p)
  }

  lemma {:induction false} OneWoven(md: Mode, exactIdents: bool, es: seq<Sig>, c: (nat, nat), leaf: seq<In>, v: View, ps: seq<Expr>)
    requires LeafStands(es, c, leaf) && InOrder(leaf) && (ps != [] ==> Views(md, leaf, v)) && forall p <- ps :: Wf(md, p)
    requires c.0 <= c.1 <= |es| && c.0 < |es|
    ensures
      var ins := BranchInsertions(exactIdents, BranchOf(md, es, c.0, c.1, es[c.0].depth), ps);
      Within(leaf, ins) && Enforced(md, exactIdents, leaf, SpliceIns(leaf, ins), ps) && (ps == [] ==> SpliceIns(leaf, ins) == leaf)
  {
    hide Views, InOrder, Wf, WfCore, Stands, BranchOf, Enforcing.Present, WhereScan;
    var b := BranchOf(md, es, c.0, c.1, es[c.0].depth);
    if ps == [] {
      NoneInserted(Slot(b.whereKwEnd, b.tailStart, b.end), b.where);
      SpliceNothing(leaf);
    } else {
      hide LeafStands, Enforced, Within;
      LeafWoven(md, exactIdents, es, c, leaf, v, ps);
    }
  }

  /** Each leaf, woven at its own branch's slot. */
  lemma {:induction false} LeavesWoven(md: Mode, exactIdents: bool, q: Query, semis: seq<In>, es: seq<Sig>, bs: seq<Branch>, m: map<nat, nat>,
                                       views: seq<View>, pss: seq<seq<Expr>>)
    requires WfQuery(q) && (forall x <- semis :: HasKind(x, Semicolon)) && InOrder(Spell(q)) && SplitOf(md, Spell(q) + semis, es, bs, m)
    requires Ready(md, q, views, pss)
    ensures |bs| == |pss| == |Leaves(q)| && AllWithin(Leaves(q), AllInsertions(exactIdents, bs, pss))
    ensures
      var ls := Spliced(Leaves(q), AllInsertions(exactIdents, bs, pss));
      forall k :: 0 <= k < |ls| ==> Enforced(md, exactIdents, Leaves(q)[k], ls[k], pss[k]) && (pss[k] == [] ==> ls[k] == Leaves(q)[k])
  {
    hide WfQuery, InOrder, Spell, SplitOf, Views, Wf, Leaves, Enforced, Within, LeafStands, BranchOf, SpliceIns, BranchInsertions;
    var cores := BranchesStand(md, q, semis, es, bs, m);
    QueryLeafOrder(q);
    var inss := AllInsertions(exactIdents, bs, pss);
    forall k | 0 <= k < |bs|
      ensures Within(Leaves(q)[k], inss[k]) && Enforced(md, exactIdents, Leaves(q)[k], SpliceIns(Leaves(q)[k], inss[k]), pss[k])
      ensures pss[k] == [] ==> SpliceIns(Leaves(q)[k], inss[k]) == Leaves(q)[k]
    {
      assert Leaves(q)[k] in Leaves(q);
      OneWoven(md, exactIdents, es, cores[k], Leaves(q)[k], views[k], pss[k]);
    }
  }

  /** Weaving a set operation, all branches at once: the insertions of its branches turn the
      statement into the same set operation of the woven leaves, which is on the grammar and
      splits again. */
  lemma {:induction false} SetOpWeaves(md: Mode, exactIdents: bool, q: Query, semis: seq<In>, es: seq<Sig>, bs: seq<Branch>, m: map<nat, nat>,
                                       views: seq<View>, pss: seq<seq<Expr>>)
    requires WfQuery(q) && (forall x <- semis :: HasKind(x, Semicolon)) && InOrder(Spell(q) + semis) && SplitOf(md, Spell(q) + semis, es, bs, m)
    requires Ready(md, q, views, pss)
    ensures |bs| == |pss| == |Leaves(q)|
    ensures
      var inss := AllInsertions(exactIdents, bs, pss);
      var q' := RefillQuery(q, Spliced(Leaves(q), inss));
      var f := Flatten(Spell(q') + semis, Place(0, false));
      SpliceIns(Spell(q) + semis, AllOf(inss)) == Spell(q') + semis && WfQuery(q') && f.Some? && f.value.1.depth == 0 && Cores(f.value.0).Some?
  {
    hide WfQuery, InOrder, Spell, SplitOf, Ready, Leaves, SpliceIns, RefillQuery, AllOf, Within, Flatten, Cores, WfCore, AllInsertions, LeavesStand;
    OrderParts(Spell(q), semis);
    LeavesWoven(md, exactIdents, q, semis, es, bs, m, views, pss);
    var inss := AllInsertions(exactIdents, bs, pss);
    var ls := Spliced(Leaves(q), inss);
    QuerySplices(q, inss);
    SpliceNothing(semis);
    SpliceParts(Spell(q), semis, AllOf(inss), []);
    assert AllOf(inss) + [] == AllOf(inss);
    forall core | core in ls ensures WfCore(core) {
      var k :| 0 <= k < |ls| && ls[k] == core;
    }
    hide Enforced;
    RefillQueryWf(q, ls);
    SplitExact(RefillQuery(q, ls), semis);
  }

  /** Weave then enforce for set operations. A second split of the woven statement has the
      same branches, and in every branch its own scan reads a WHERE without a top-level OR
      that holds every one of that branch's conjuncts, inserted or already there; a branch
      that needs none is untouched; a second weave has nothing to insert anywhere. */
  lemma {:induction false} SetOpIsEnforced(md: Mode, exactIdents: bool, q: Query, semis: seq<In>, es: seq<Sig>, bs: seq<Branch>, m: map<nat, nat>,
                                           views: seq<View>, pss: seq<seq<Expr>>, es': seq<Sig>, bs': seq<Branch>, m': map<nat, nat>)
    requires WfQuery(q) && (forall x <- semis :: HasKind(x, Semicolon)) && InOrder(Spell(q) + semis) && SplitOf(md, Spell(q) + semis, es, bs, m)
    requires Ready(md, q, views, pss) && |bs| == |pss| == |Leaves(q)|
    requires SplitOf(md, SpliceIns(Spell(q) + semis, AllOf(AllInsertions(exactIdents, bs, pss))), es', bs', m')
    ensures |bs'| == |bs|
    ensures forall k :: 0 <= k < |bs| ==>
      bs'[k].leadKw == bs[k].leadKw && (if pss[k] == [] then bs'[k].where == bs[k].where else bs'[k].where.lexOK && !bs'[k].where.hasOR) &&
      (forall p <- pss[k] :: Enforcing.Present(exactIdents, bs'[k].where, p)) && Enforcing.Needed(exactIdents, bs'[k].where, pss[k]) == []
  {
    hide WfQuery, InOrder, Spell, Ready, Leaves, SpliceIns, RefillQuery, AllOf, Flatten, Cores, WfCore, AllInsertions, Recorded, Enforced, Within,
      Enforcing.Present, Enforcing.Needed, Shows, WhereScan;
    SetOpWeaves(md, exactIdents, q, semis, es, bs, m, views, pss);
    OrderParts(Spell(q), semis);
    LeavesWoven(md, exactIdents, q, semis, es, bs, m, views, pss);
    var ls := Spliced(Leaves(q), AllInsertions(exactIdents, bs, pss));
    var q' := RefillQuery(q, ls);
    RefillQueryLeaves(q, ls);
    BranchesExact(md, q, semis, es, bs, m);
    BranchesExact(md, q', semis, es', bs', m');
    forall k | 0 <= k < |bs|
      ensures bs'[k].leadKw == bs[k].leadKw && (if pss[k] == [] then bs'[k].where == bs[k].where else bs'[k].where.lexOK && !bs'[k].where.hasOR)
      ensures (forall p <- pss[k] :: Enforcing.Present(exactIdents, bs'[k].where, p)) && Enforcing.Needed(exactIdents, bs'[k].where, pss[k]) == []
    {
      assert Shows(md, bs[k], Leaves(q)[k]) && Shows(md, bs'[k], ls[k]);
      BranchEnforced(md, exactIdents, Leaves(q)[k], ls[k], bs[k], bs'[k], pss[k]);
    }
  }

  lemma {:induction false} BranchEnforced(md: Mode, exactIdents: bool, leaf: seq<In>, leaf': seq<In>, b: Branch, b': Branch, ps: seq<Expr>)
    requires Shows(md, b, leaf) && Shows(md, b', leaf') && Enforced(md, exactIdents, leaf, leaf', ps) && (ps == [] ==> leaf' == leaf)
    ensures b'.leadKw == b.leadKw && (if ps == [] then b'.where == b.where else b'.where.lexOK && !b'.where.hasOR)
    ensures (forall p <- ps :: Enforcing.Present(exactIdents, b'.where, p)) && Enforcing.Needed(exactIdents, b'.where, ps) == []
  {
    hide WhereScan, Enforcing.Present, Upper, Quiet;
  }
}
