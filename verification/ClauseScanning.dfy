/**
 The state machine that reads a WHERE expression into conjunct segments
 (internal/policy/splice.go): `caseNest`, `exprScan` and the loop of `whereClause`.
 */
module ClauseScanning {
  import opened Core
  import opened SqlTokens

  /** A significant token, or a construct item. `boundary` marks the ones that replace an
      ORDER BY or GROUP BY; `end` is the end of the construct's source text. */
  datatype Elem = Tk(t: Tok) | Hole(id: nat, boundary: bool, end: nat)

  /** `exprScan` with its collector and CASE counter. */
  datatype Scan = Scan(
    segs: seq<seq<ConjTok>>, cur: seq<ConjTok>, hasOR: bool, start: int, end: int,
    operand: bool, cases: nat, bad: bool)

  datatype ClauseScan = ClauseScan(segs: seq<seq<ConjTok>>, hasOR: bool, lexOK: bool, start: int, end: int)

  const NEW_SCAN := Scan([], [], false, -1, -1, true, 0, false)

  const NOT_FOUND := ClauseScan([], false, true, -1, -1)

  // ---------------------------------------------------------------- one token

  /** `caseNest.ident`. */
  function CaseDepth(cases: nat, w: string, operand: bool): nat {
    if w == "CASE" then cases + 1
    else if w == "END" && !operand && cases > 0 then cases - 1
    else cases
  }

  predicate CaseBad(cases: nat, w: string, operand: bool) {
    cases == 0 && ((w == "END" && !operand) || w in ARMS)
  }

  function Flushed(st: Scan): Scan {
    if st.cur == [] then st else st.(segs := st.segs + [st.cur], cur := [])
  }

  function Content(st: Scan, t: Tok): Scan {
    st.(cur := Append(st.cur, t), start := if st.start < 0 then t.at else st.start, end := EndOf(t))
  }

  /** `exprScan.step`: the new state, and whether the token ends the clause. */
  function StepScan(md: Mode, st0: Scan, t: Tok, depth0: bool, dotted: bool): (Scan, bool) {
    var w := Word(t);
    var plain := depth0 && t.kind.Ident? && !dotted;
    var st := if plain then st0.(cases := CaseDepth(st0.cases, w, st0.operand), bad := st0.bad || CaseBad(st0.cases, w, st0.operand)) else st0;
    var top := plain && st.cases == 0;
    if top && w == "AND" then (Flushed(st).(operand := true), false)
    else if top && w == "OR" then (Flushed(st.(hasOR := true)).(operand := true), false)
    else if top && !st.operand && w in Stops(md) then (Flushed(st), true)
    else
      var st' := if depth0 && st.cases == 0 && LooseOr(t, dotted, md) then st.(hasOR := true) else st;
      (Content(st'.(operand := AfterOperand(t, st.operand)), t), false)
  }

  /** `exprScan.construct`. */
  function HoleScan(st: Scan, boundary: bool, end: nat): (Scan, bool) {
    var st' := Flushed(st.(bad := st.bad || st.cases > 0)).(operand := false);
    if boundary then (st', true) else (st'.(end := end), false)
  }

  function Concluded(st: Scan): ClauseScan {
    var f := Flushed(st);
    ClauseScan(f.segs, f.hasOR, !f.bad && f.cases == 0, f.start, f.end)
  }

  // ---------------------------------------------------------------- the whole statement

  /** The state of `whereClause`'s loop; `done` once the clause has ended. */
  datatype Reader = Reader(ex: Option<Scan>, depth: nat, prevDot: bool, done: bool)

  const START := Reader(None, 0, false, false)

  function DepthAfter(depth: nat, t: Tok): nat {
    if t.kind.LParen? then depth + 1
    else if t.kind.RParen? && depth > 0 then depth - 1
    else depth
  }

  function ReadTok(md: Mode, r: Reader, t: Tok): Reader {
    var depth := DepthAfter(r.depth, t);
    if depth == 0 && t.kind.Semicolon? then Reader(r.ex, depth, IsDot(t), true)
    else if r.ex.None? then
      Reader(if depth == 0 && Word(t) == "WHERE" && !r.prevDot then Some(NEW_SCAN) else None, depth, IsDot(t), false)
    else
      var (st, done) := StepScan(md, r.ex.value, t, depth == 0, r.prevDot);
      Reader(Some(st), depth, IsDot(t), done)
  }

  function ReadElem(md: Mode, r: Reader, el: Elem): Reader {
    match el
    case Tk(t) => ReadTok(md, r, t)
    case Hole(_, boundary, end) =>
      if r.ex.None? then r.(prevDot := false)
      else
        var (st, done) := HoleScan(r.ex.value, boundary, end);
        Reader(Some(st), r.depth, false, done)
  }

  function Read(md: Mode, r: Reader, els: seq<Elem>): Reader
    decreases |els|
  {
    if els == [] || r.done then r else Read(md, ReadElem(md, r, els[0]), els[1..])
  }

  /** `whereClause`: the scan of a statement's WHERE clause, `NOT_FOUND` without one. */
  function WhereScan(md: Mode, els: seq<Elem>): ClauseScan {
    var r := Read(md, START, els);
    if r.ex.None? then NOT_FOUND else Concluded(r.ex.value)
  }

  lemma {:induction false} ReadConcat(md: Mode, r: Reader, els: seq<Elem>, fs: seq<Elem>)
    ensures Read(md, r, els + fs) == Read(md, Read(md, r, els), fs)
    decreases |els|
  {
    hide ReadElem;
    if els == [] {
      assert els + fs == fs;
    } else if !r.done {
      assert (els + fs)[1..] == els[1..] + fs;
      ReadConcat(md, ReadElem(md, r, els[0]), els[1..], fs);
    }
  }

  lemma {:induction false} ReadOne(md: Mode, r: Reader, el: Elem)
    requires !r.done
    ensures Read(md, r, [el]) == ReadElem(md, r, el)
  {
    hide ReadElem;
    assert [el][1..] == [];
  }

  // ---------------------------------------------------------------- the loops

  class ExprScan {
    const md: Mode
    var segs: seq<seq<ConjTok>>
    var cur: seq<ConjTok>
    var hasOR: bool
    var start: int
    var end: int
    var expectOperand: bool
    var depth: nat
    var bad: bool

    constructor (md: Mode)
      ensures this.md == md && State() == NEW_SCAN
    {
      this.md := md;
      segs, cur, hasOR, start, end, expectOperand, depth, bad := [], [], false, -1, -1, true, 0, false;
    }

    function State(): Scan
      reads this
    {
      Scan(segs, cur, hasOR, start, end, expectOperand, depth, bad)
    }

    method Flush()
      modifies this`segs, this`cur
      ensures State() == Flushed(old(State()))
    {
      if |cur| > 0 {
        segs := segs + [cur];
        cur := [];
      }
    }

    method Collect(t: Tok)
      modifies this`start, this`end, this`cur
      ensures State() == Content(old(State()), t)
    {
      if start < 0 {
        start := t.at;
      }
      end := EndOf(t);
      cur := Append(cur, t);
    }

    /** `caseNest.ident`. */
    method Ident(w: string)
      modifies this`depth, this`bad
      ensures depth == CaseDepth(old(depth), w, expectOperand) && bad == (old(bad) || CaseBad(old(depth), w, expectOperand))
    {
      if w == "CASE" {
        depth := depth + 1;
      } else if w == "END" {
        if expectOperand {
          return;
        }
        if depth == 0 {
          bad := true;
          return;
        }
        depth := depth - 1;
      } else if w in ARMS {
        if depth == 0 {
          bad := true;
        }
      }
    }

    method Step(t: Tok, depth0: bool, dotted: bool) returns (ends: bool)
      modifies this
      ensures (State(), ends) == StepScan(md, old(State()), t, depth0, dotted)
    {
      hide Append, AfterOperand, LooseOr, Flushed, Content;
      var w := Word(t);
      ghost var before := State();
      if depth0 && t.kind.Ident? && !dotted {
        Ident(w);
      }
      ghost var st := State();
      if depth0 && t.kind.Ident? && !dotted && depth == 0 {
        if w == "AND" {
          Flush();
          ghost var flushed := State();
          expectOperand := true;
          return false;
        }
        if w == "OR" {
          hasOR := true;
          Flush();
          expectOperand := true;
          return false;
        }
        if !expectOperand && w in Stops(md) {
          Flush();
          return true;
        }
      }
      if depth0 && depth == 0 && LooseOr(t, dotted, md) {
        hasOR := true;
      }
      expectOperand := AfterOperand(t, expectOperand);
      Collect(t);
      return false;
    }

    method Construct(boundary: bool, rawEnd: nat) returns (ends: bool)
      modifies this
      ensures (State(), ends) == HoleScan(old(State()), boundary, rawEnd)
    {
      hide Flushed;
      if depth > 0 {
        bad := true;
      }
      Flush();
      expectOperand := false;
      if boundary {
        return true;
      }
      end := rawEnd;
      return false;
    }
  }

  /** `whereClause`. */
  method WhereClause(md: Mode, els: seq<Elem>) returns (cs: ClauseScan)
    ensures cs == WhereScan(md, els)
  {
    hide StepScan, HoleScan;
    var ex: ExprScan? := null;
    var depth: nat := 0;
    var prevDot := false;
    var i := 0;
    assert els[0..] == els;
    while i < |els|
      invariant 0 <= i <= |els| && (ex == null || (ex.md == md && fresh(ex)))
      invariant Read(md, START, els) ==
        Read(md, Reader(if ex == null then None else Some(ex.State()), depth, prevDot, false), els[i..])
    {
      var el := els[i];
      assert els[i..][0] == el && els[i..][1..] == els[i + 1..];
      i := i + 1;
      if el.Hole? {
        prevDot := false;
        if ex != null {
          var ends := ex.Construct(el.boundary, el.end);
          if ends {
            cs := Concluded(ex.State());
            return;
          }
        }
      } else {
        var t := el.t;
        depth := DepthAfter(depth, t);
        var dotted := prevDot;
        prevDot := IsDot(t);
        if depth == 0 && t.kind.Semicolon? {
          cs := if ex == null then NOT_FOUND else Concluded(ex.State());
          return;
        }
        if ex == null {
          if depth == 0 && Word(t) == "WHERE" && !dotted {
            ex := new ExprScan(md);
          }
        } else {
          var ends := ex.Step(t, depth == 0, dotted);
          if ends {
            cs := Concluded(ex.State());
            return;
          }
        }
      }
    }
    cs := if ex == null then NOT_FOUND else Concluded(ex.State());
  }
}
