/**
 `joinOn` (internal/policy/splice.go): from a relation reference forward to the first ON
 at its own parenthesis depth, with the evidence whether that ON can scope the relation.
 */
module JoinScanning {
  import opened Core
  import opened SqlTokens
  import opened ClauseScanning

  datatype JoinKind = Inner | Left | Right | Full | Cross

  /** The state of `joinOn`'s loop. `crossed` is the first join keyword met before the ON. */
  datatype Search = Search(
    depth: nat, prevDot: bool, inOn: bool, crossed: Option<JoinKind>, anchored: bool, second: bool, scan: Scan, done: bool)

  const SEARCH := Search(0, false, false, None, false, false, NEW_SCAN, false)

  /** `joinKindOf`. */
  function KindOf(w: string): JoinKind {
    if w == "LEFT" then Left else if w == "RIGHT" then Right else if w == "FULL" then Full else Inner
  }

  predicate Anchor(w: string) { w == "JOIN" || w == "STRAIGHT_JOIN" }

  predicate EndsSearch(w: string) { w in {"USING", "NATURAL", "WHERE", "SET"} || w in TAIL }

  /** A join keyword met before the ON. */
  function Crossed(st: Search, w: string): Search {
    if st.crossed.None? then st.(crossed := Some(KindOf(w)), anchored := st.anchored || Anchor(w))
    else if !st.anchored then st.(anchored := Anchor(w))
    else st.(second := true)
  }

  function Passed(st: Search, t: Tok): Search { st.(prevDot := IsDot(t), depth := DepthAfter(st.depth, t)) }

  /** A plain word at the reference's depth, before the ON. */
  function PlainWord(st: Search, w: string): Search {
    if w == "ON" then st.(inOn := true)
    else if EndsSearch(w) then st.(done := true)
    else if w in JOINS then Crossed(st, w)
    else st
  }

  function InExpr(md: Mode, st: Search, t: Tok, dotted: bool): Search {
    var (scan, ends) := StepScan(md, st.scan, t, st.depth == 0, dotted);
    st.(scan := scan, done := ends)
  }

  predicate Closes(st: Search, t: Tok) { st.depth == 0 && (t.kind.RParen? || t.kind.Semicolon? || t.kind.Comma?) }

  /** One token or construct. */
  function SearchStep(md: Mode, st0: Search, el: Elem): Search {
    match el
    case Hole(_, _, _) => st0.(done := true)
    case Tk(t) =>
      var st := Passed(st0, t);
      if Closes(st0, t) then st.(done := true)
      else if st.inOn then InExpr(md, st, t, st0.prevDot)
      else if st.depth == 0 && !st0.prevDot && t.kind.Ident? then PlainWord(st, Word(t))
      else st
  }

  function Find(md: Mode, st: Search, els: seq<Elem>): Search
    decreases |els|
  {
    if els == [] || st.done then st else Find(md, SearchStep(md, st, els[0]), els[1..])
  }

  /** `onGates`: does the located ON belong to the join that introduces the reference? */
  predicate OnGates(ownJoin: JoinKind, crossed: Option<JoinKind>) {
    if crossed.Some? then crossed.value.Inner? || crossed.value.Cross? || crossed.value.Right?
    else ownJoin.Inner? || ownJoin.Left?
  }

  datatype JoinOn = JoinOn(found: bool, wrongJoin: bool, cs: ClauseScan)

  /** `finish`. */
  function Finish(st: Search, ownJoin: JoinKind, naturalRight: bool): JoinOn {
    JoinOn(st.inOn,
           st.inOn && (st.second || !OnGates(ownJoin, st.crossed) || (st.crossed.None? && naturalRight)),
           Concluded(st.scan))
  }

  /** `naturalIntroducesRight` over what stands before the reference: does the run of join
      keywords that ends there contain NATURAL? */
  function NaturalRun(els: seq<Elem>): bool {
    if els == [] then false
    else
      var front, el := els[..|els| - 1], els[|els| - 1];
      match el
      case Hole(_, _, _) => false
      case Tk(t) =>
        var dotted := front != [] && front[|front| - 1].Tk? && IsDot(front[|front| - 1].t);
        t.kind.Ident? && !dotted && Word(t) in JOINS && (Word(t) == "NATURAL" || NaturalRun(front))
  }

  method NaturalIntroducesRight(els: seq<Elem>) returns (natural: bool)
    ensures natural == NaturalRun(els)
  {
    var runHasNatural, prevDot := false, false;
    for i := 0 to |els|
      invariant runHasNatural == NaturalRun(els[..i])
      invariant prevDot == (i > 0 && els[i - 1].Tk? && IsDot(els[i - 1].t))
    {
      assert els[..i + 1][..i] == els[..i];
      if els[i].Hole? {
        prevDot, runHasNatural := false, false;
      } else {
        var t := els[i].t;
        var dotted := prevDot;
        prevDot := IsDot(t);
        if t.kind.Ident? && !dotted && Word(t) in JOINS {
          if Word(t) == "NATURAL" {
            runHasNatural := true;
          }
        } else {
          runHasNatural := false;
        }
      }
    }
    assert els[..|els|] == els;
    return runHasNatural;
  }

  class OnSearch {
    const col: ExprScan
    var depth: nat
    var prevDot: bool
    var inOn: bool
    var crossed: Option<JoinKind>
    var anchored: bool
    var second: bool

    constructor (md: Mode)
      ensures fresh(col) && col.md == md && State() == SEARCH
    {
      col := new ExprScan(md);
      depth, prevDot, inOn, crossed, anchored, second := 0, false, false, None, false, false;
    }

    function State(): Search
      reads this, col
    {
      Search(depth, prevDot, inOn, crossed, anchored, second, col.State(), false)
    }

    /** A join keyword: the first one names the introducing join; past that join's anchor
        the next one introduces another. */
    method Cross(w: string)
      modifies this`crossed, this`anchored, this`second
      ensures State() == Crossed(old(State()), w)
    {
      if crossed.None? {
        crossed := Some(KindOf(w));
        anchored := anchored || Anchor(w);
      } else if !anchored {
        anchored := Anchor(w);
      } else {
        second := true;
      }
    }

    /** Depth and dot, as every significant token moves them. */
    method Pass(t: Tok)
      modifies this`prevDot, this`depth
      ensures State() == Passed(old(State()), t)
    {
      prevDot := IsDot(t);
      depth := DepthAfter(depth, t);
    }

    /** The token inside the ON expression. */
    method Content(t: Tok, dotted: bool) returns (ends: bool)
      modifies col
      ensures State().(done := ends) == InExpr(col.md, old(State()), t, dotted)
    {
      ends := col.Step(t, depth == 0, dotted);
    }

    method Plain(w: string) returns (ends: bool)
      requires !inOn
      modifies this
      ensures State().(done := ends) == PlainWord(old(State()), w)
    {
      hide Crossed, EndsSearch;
      ends := false;
      if w == "ON" {
        inOn := true;
      } else if EndsSearch(w) {
        ends := true;
      } else if w in JOINS {
        CrossedGoesOn(State(), w);
        Cross(w);
      }
    }

    method Step(t: Tok) returns (ends: bool)
      modifies this, col
      ensures State().(done := ends) == SearchStep(col.md, old(State()), Tk(t))
    {
      hide InExpr, PlainWord, Upper, Passed, IsDot;
      PassedKeeps(State(), t);
      var dotted, closes := prevDot, Closes(State(), t);
      Pass(t);
      ends := closes;
      if closes {
      } else if inOn {
        ends := Content(t, dotted);
      } else if depth == 0 && !dotted && t.kind.Ident? {
        ends := Plain(Word(t));
      }
    }
  }

  lemma PassedKeeps(st: Search, t: Tok)
    ensures Passed(st, t).inOn == st.inOn && Passed(st, t).done == st.done
  {
  }

  lemma CrossedGoesOn(st: Search, w: string)
    ensures Crossed(st, w).done == st.done
  {
  }

  lemma {:induction false} FindUnfolds(md: Mode, st: Search, els: seq<Elem>)
    requires els != [] && !st.done
    ensures
      var next := SearchStep(md, st, els[0]);
      (next.done ==> Find(md, st, els) == next) && (!next.done ==> Find(md, st, els) == Find(md, next, els[1..]))
  {
    hide SearchStep;
  }

  /** `joinOn`, from the reference's first byte on. */
  method LocateOn(md: Mode, before: seq<Elem>, els: seq<Elem>, ownJoin: JoinKind) returns (res: JoinOn)
    ensures res == Finish(Find(md, SEARCH, els), ownJoin, NaturalRun(before))
  {
    hide SearchStep, NaturalRun, Concluded, OnGates;
    var naturalRight := NaturalIntroducesRight(before);
    var search := new OnSearch(md);
    var i := 0;
    assert els[0..] == els;
    var ended := false;
    while i < |els| && !ended
      invariant 0 <= i <= |els| && fresh(search) && fresh(search.col) && search.col.md == md
      invariant ended ==> Find(md, SEARCH, els) == search.State().(done := true)
      invariant !ended ==> Find(md, SEARCH, els) == Find(md, search.State(), els[i..])
    {
      var el := els[i];
      assert els[i..][0] == el && els[i..][1..] == els[i + 1..];
      FindUnfolds(md, search.State(), els[i..]);
      i := i + 1;
      if el.Hole? {
        HoleEnds(md, search.State(), el);
        ended := true;
      } else {
        ended := search.Step(el.t);
        assert search.State().(done := ended).(done := true) == search.State().(done := true);
      }
    }
    res := JoinOn(search.inOn,
                  search.inOn && (search.second || !OnGates(ownJoin, search.crossed) || (search.crossed.None? && naturalRight)),
                  Concluded(search.col.State()));
  }

  lemma HoleEnds(md: Mode, st: Search, el: Elem)
    requires el.Hole?
    ensures SearchStep(md, st, el) == st.(done := true)
  {
  }
}
