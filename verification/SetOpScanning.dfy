/**
 Splitting a set operation into its leaf query cores (internal/policy/setop.go): the
 recursive-descent scan over the statement's tokens, the WHERE view of each core, and the
 map that attributes a token to its core.
 */
module SetOpScanning {
  import opened Core
  import opened Lexing
  import opened SqlTokens
  import opened ClauseScanning

  /** A token of skeleton text, woven or not, or a construct and its source extent. */
  datatype In = Token(t: Tok, synth: bool) | Construct(id: nat, boundary: bool, start: nat, end: nat)

  /** The same with the parenthesis depth outside it. */
  datatype Sig = Plain(t: Tok, synth: bool, depth: nat, dotted: bool) | Block(boundary: bool, depth: nat, start: nat, end: nat)

  // ---------------------------------------------------------------- depths

  datatype Place = Place(depth: nat, dot: bool)

  /** The element and where the next one stands; nothing for a `)` too many. */
  function Placed(el: In, p: Place): Option<(Sig, Place)> {
    match el
    case Construct(_, boundary, start, end) => Some((Block(boundary, p.depth, start, end), Place(p.depth, false)))
    case Token(t, synth) =>
      if t.kind.RParen? then
        if p.depth == 0 then None else Some((Plain(t, synth, p.depth - 1, p.dot), Place(p.depth - 1, false)))
      else
        Some((Plain(t, synth, p.depth, p.dot), Place(if t.kind.LParen? then p.depth + 1 else p.depth, IsDot(t))))
  }

  function Flatten(els: seq<In>, p: Place): Option<(seq<Sig>, Place)> {
    if els == [] then Some(([], p))
    else
      var one := Placed(els[0], p);
      if one.None? then None
      else
        var rest := Flatten(els[1..], one.value.1);
        if rest.None? then None else Some(([one.value.0] + rest.value.0, rest.value.1))
  }

  /** `setOpElems`. */
  method SetOpElems(els: seq<In>) returns (out: Option<seq<Sig>>)
    ensures var f := Flatten(els, Place(0, false));
      out == if f.Some? && f.value.1.depth == 0 then Some(f.value.0) else None
  {
    var sigs: seq<Sig>, depth: nat, prevDot := [], 0, false;
    ghost var whole := Flatten(els, Place(0, false));
    assert els[0..] == els && (whole.Some? ==> [] + whole.value.0 == whole.value.0);
    for i := 0 to |els|
      invariant
        var rest := Flatten(els[i..], Place(depth, prevDot));
        (whole.None? <==> rest.None?) && (whole.Some? ==> whole.value == (sigs + rest.value.0, rest.value.1))
    {
      ghost var rest := Flatten(els[i + 1..], if Placed(els[i], Place(depth, prevDot)).Some? then Placed(els[i], Place(depth, prevDot)).value.1 else Place(0, false));
      ghost var one := Placed(els[i], Place(depth, prevDot));
      assert one.Some? && rest.Some? ==> sigs + ([one.value.0] + rest.value.0) == (sigs + [one.value.0]) + rest.value.0;
      assert els[i..][0] == els[i] && els[i..][1..] == els[i + 1..];
      match els[i] {
        case Construct(_, boundary, start, end) =>
          prevDot := false;
          sigs := sigs + [Block(boundary, depth, start, end)];
        case Token(t, synth) =>
          var dotted := prevDot;
          prevDot := IsDot(t);
          if t.kind.RParen? {
            if depth == 0 { return None; }
            depth := depth - 1;
          }
          sigs := sigs + [Plain(t, synth, depth, dotted)];
          if t.kind.LParen? {
            depth := depth + 1;
          }
      }
    }
    assert sigs + [] == sigs;
    out := if depth == 0 then Some(sigs) else None;
  }

  // ---------------------------------------------------------------- tests on elements

  predicate IsWord(es: seq<Sig>, i: nat, w: string) {
    i < |es| && es[i].Plain? && es[i].t.kind.Ident? && !es[i].dotted && Word(es[i].t) == w
  }

  predicate IsKind(es: seq<Sig>, i: nat, k: TokenKind) { i < |es| && es[i].Plain? && es[i].t.kind == k }

  const SETOPS := {"UNION", "INTERSECT", "EXCEPT"}

  const CORETAILS := {"GROUP", "HAVING", "WINDOW", "ORDER", "LIMIT", "OFFSET", "FETCH", "FOR"}

  /** A set operator at the query's own depth. */
  predicate SetOperator(e: Sig, d: nat) {
    e.Plain? && e.depth == d && e.t.kind.Ident? && !e.dotted && Word(e.t) in SETOPS
  }

  /** What ends a query at depth `d`: its closing parenthesis or a semicolon. */
  predicate EndsQuery(e: Sig, d: nat) { e.Plain? && (e.depth < d || (e.depth == d && e.t.kind.Semicolon?)) }

  predicate EndsCore(e: Sig, d: nat) { EndsQuery(e, d) || SetOperator(e, d) }

  // ---------------------------------------------------------------- the grammar, as it is scanned

  function CoreEnd(es: seq<Sig>, i: nat, d: nat): (r: nat)
    requires i <= |es|
    ensures i <= r <= |es| && (r < |es| ==> EndsCore(es[r], d)) && forall j :: i <= j < r ==> !EndsCore(es[j], d)
    decreases |es| - i
  {
    if i == |es| || EndsCore(es[i], d) then i else CoreEnd(es, i + 1, d)
  }

  function TailEnd(es: seq<Sig>, i: nat, d: nat): (r: nat)
    requires i <= |es|
    ensures i <= r <= |es|
    decreases |es| - i
  {
    if i == |es| || EndsQuery(es[i], d) then i else TailEnd(es, i + 1, d)
  }

  /** Past the `)` at depth `d`. */
  function ParenEnd(es: seq<Sig>, i: nat, d: nat): (r: Option<nat>)
    requires i <= |es|
    ensures r.Some? ==> i < r.value <= |es|
    decreases |es| - i
  {
    if i == |es| then None
    else if es[i].Plain? && es[i].depth == d && es[i].t.kind.RParen? then Some(i + 1)
    else ParenEnd(es, i + 1, d)
  }

  /** `name [(columns)] AS [NOT] [MATERIALIZED] (body)`. */
  function CteEnd(es: seq<Sig>, i: nat, d: nat): (r: Option<nat>)
    requires i <= |es|
    ensures r.Some? ==> i < r.value <= |es|
  {
    if !IsKind(es, i, Ident) && !IsKind(es, i, QuotedIdent) then None
    else
      var cols := if IsKind(es, i + 1, LParen) then ParenEnd(es, i + 2, d) else Some(i + 1);
      if cols.None? || !IsWord(es, cols.value, "AS") then None else CteBodyEnd(es, cols.value + 1, d)
  }

  function CteBodyEnd(es: seq<Sig>, i: nat, d: nat): (r: Option<nat>)
    requires i <= |es|
    ensures r.Some? ==> i < r.value <= |es|
  {
    var a := if IsWord(es, i, "NOT") then i + 1 else i;
    var b := if IsWord(es, a, "MATERIALIZED") then a + 1 else a;
    if !IsKind(es, b, LParen) then None else ParenEnd(es, b + 1, d)
  }

  function CtesEnd(es: seq<Sig>, i: nat, d: nat): (r: Option<nat>)
    requires i <= |es|
    ensures r.Some? ==> i < r.value <= |es|
    decreases |es| - i
  {
    var one := CteEnd(es, i, d);
    if one.None? then None
    else if IsKind(es, one.value, Comma) && es[one.value].depth == d then CtesEnd(es, one.value + 1, d)
    else one
  }

  /** From the WITH on. */
  function WithEnd(es: seq<Sig>, i: nat, d: nat): (r: Option<nat>)
    requires i < |es|
    ensures r.Some? ==> i < r.value <= |es|
  {
    CtesEnd(es, if IsWord(es, i + 1, "RECURSIVE") then i + 2 else i + 1, d)
  }

  /** Where a scan got to, and the extents of the cores it saw. */
  datatype Seen = Seen(i: nat, cores: seq<(nat, nat)>)

  /** Extents in order, inside `lo..hi`, and not overlapping. */
  predicate Ordered(cores: seq<(nat, nat)>, lo: nat, hi: nat) {
    if cores == [] then lo <= hi else lo <= cores[0].0 <= cores[0].1 && Ordered(cores[1..], cores[0].1, hi)
  }

  lemma {:induction false} OrderedWider(cores: seq<(nat, nat)>, lo: nat, hi: nat, lo': nat, hi': nat)
    requires Ordered(cores, lo, hi) && lo' <= lo && hi <= hi'
    ensures Ordered(cores, lo', hi')
    decreases |cores|
  {
    if cores != [] {
      OrderedWider(cores[1..], cores[0].1, hi, cores[0].1, hi');
    }
  }

  lemma {:induction false} OrderedThen(a: seq<(nat, nat)>, b: seq<(nat, nat)>, lo: nat, mid: nat, hi: nat)
    requires Ordered(a, lo, mid) && Ordered(b, mid, hi)
    ensures Ordered(a + b, lo, hi)
    decreases |a|
  {
    if a == [] {
      assert a + b == b;
      OrderedWider(b, mid, hi, lo, hi);
    } else {
      assert (a + b)[0] == a[0] && (a + b)[1..] == a[1..] + b;
      OrderedThen(a[1..], b, a[0].1, mid, hi);
    }
  }

  lemma {:induction false} OneOrdered(lo: nat, hi: nat)
    requires lo <= hi
    ensures Ordered([(lo, hi)], lo, hi)
  {
    assert [(lo, hi)][1..] == [];
  }

  /** `query`. A failure anywhere is a failure of the whole scan. */
  function QueryFrom(es: seq<Sig>, i: nat, d: nat): (r: Option<Seen>)
    requires i <= |es|
    ensures r.Some? ==> i <= r.value.i <= |es| && Ordered(r.value.cores, i, r.value.i)
    decreases |es| - i, 3
  {
    var start := if IsWord(es, i, "WITH") then WithEnd(es, i, d) else Some(i);
    if start.None? then None
    else
      var first := OperandFrom(es, start.value, d);
      if first.None? then None
      else
        var more := MoreFrom(es, first.value.i, d);
        if more.None? then None
        else
          var end := TailEnd(es, more.value.i, d);
          OrderedThen(first.value.cores, more.value.cores, start.value, first.value.i, more.value.i);
          OrderedWider(first.value.cores + more.value.cores, start.value, more.value.i, i, end);
          Some(Seen(end, first.value.cores + more.value.cores))
  }

  /** `{setop [ALL|DISTINCT] operand}`. */
  function MoreFrom(es: seq<Sig>, i: nat, d: nat): (r: Option<Seen>)
    requires i <= |es|
    ensures r.Some? ==> i <= r.value.i <= |es| && Ordered(r.value.cores, i, r.value.i)
    decreases |es| - i, 2
  {
    if i == |es| || !SetOperator(es[i], d) then Some(Seen(i, []))
    else
      var j := if IsWord(es, i + 1, "ALL") || IsWord(es, i + 1, "DISTINCT") then i + 2 else i + 1;
      var one := OperandFrom(es, j, d);
      if one.None? then None
      else
        var more := MoreFrom(es, one.value.i, d);
        if more.None? then None
        else
          OrderedThen(one.value.cores, more.value.cores, j, one.value.i, more.value.i);
          OrderedWider(one.value.cores + more.value.cores, j, more.value.i, i, more.value.i);
          Some(Seen(more.value.i, one.value.cores + more.value.cores))
  }

  /** `operand`: a parenthesized query or a core. */
  function OperandFrom(es: seq<Sig>, i: nat, d: nat): (r: Option<Seen>)
    requires i <= |es|
    ensures r.Some? ==> i <= r.value.i <= |es| && Ordered(r.value.cores, i, r.value.i)
    decreases |es| - i, 1
  {
    if i == |es| || es[i].Block? || es[i].depth != d then None
    else if es[i].t.kind.LParen? then
      var q := QueryFrom(es, i + 1, d + 1);
      if q.None? || !IsKind(es, q.value.i, RParen) || es[q.value.i].depth != d then None
      else
        OrderedWider(q.value.cores, i + 1, q.value.i, i, q.value.i + 1);
        Some(Seen(q.value.i + 1, q.value.cores))
    else
      OneOrdered(i, CoreEnd(es, i, d));
      Some(Seen(CoreEnd(es, i, d), [(i, CoreEnd(es, i, d))]))
  }

  predicate OnlySemicolons(es: seq<Sig>, i: nat)
    requires i <= |es|
  {
    forall j :: i <= j < |es| ==> es[j].Plain? && es[j].t.kind.Semicolon?
  }

  /** The cores of a statement, nothing when it is off the grammar. */
  function Cores(es: seq<Sig>): Option<seq<(nat, nat)>> {
    var q := QueryFrom(es, 0, 0);
    if q.None? || !OnlySemicolons(es, q.value.i) then None else Some(q.value.cores)
  }

  // ---------------------------------------------------------------- one core

  datatype Branch = Branch(leadKw: string, where: ClauseScan, whereKwEnd: int, tailStart: int, end: int)

  datatype CoreState = CoreState(ex: Option<Scan>, where: ClauseScan, sawFrom: bool, whereKwEnd: int, tailStart: int, end: int)

  const CORE := CoreState(None, NOT_FOUND, false, -1, -1, -1)

  /** The running WHERE scan has ended. */
  function Settle(st: CoreState, scan: Scan, ends: bool): CoreState {
    if ends then st.(where := Concluded(scan), ex := None) else st.(ex := Some(scan))
  }

  function OpenSlot(st: CoreState): bool { st.ex.None? && st.sawFrom && st.whereKwEnd < 0 && st.tailStart < 0 }

  function StepCore(md: Mode, st0: CoreState, e: Sig, d: nat): CoreState {
    match e
    case Block(boundary, _, start, end) =>
      var st := if st0.ex.Some? then (var (scan, ends) := HoleScan(st0.ex.value, boundary, end); Settle(st0, scan, ends)) else st0;
      (if OpenSlot(st) && boundary then st.(tailStart := start) else st).(end := end)
    case Plain(t, _, depth, dotted) =>
      var st :=
        if st0.ex.Some? then (var (scan, ends) := StepScan(md, st0.ex.value, t, depth == d, dotted); Settle(st0, scan, ends)) else st0;
      (if st.ex.None? && depth == d && t.kind.Ident? && !dotted then Keyword(st, t) else st).(end := EndOf(t))
  }

  function Keyword(st: CoreState, t: Tok): CoreState {
    if Word(t) == "FROM" then st.(sawFrom := true)
    else if Word(t) == "WHERE" && st.whereKwEnd < 0 then st.(ex := Some(NEW_SCAN), whereKwEnd := EndOf(t))
    else if st.sawFrom && st.whereKwEnd < 0 && st.tailStart < 0 && Word(t) in CORETAILS then st.(tailStart := t.at)
    else st
  }

  function RunCore(md: Mode, st: CoreState, es: seq<Sig>, lo: nat, hi: nat, d: nat): CoreState
    requires lo <= hi <= |es|
    decreases hi - lo
  {
    if lo == hi then st else RunCore(md, StepCore(md, st, es[lo], d), es, lo + 1, hi, d)
  }

  function LeadOf(e: Sig): string { if e.Plain? then Word(e.t) else "" }

  function BranchOf(md: Mode, es: seq<Sig>, lo: nat, hi: nat, d: nat): Branch
    requires lo <= hi <= |es| && lo < |es|
  {
    var st := RunCore(md, CORE, es, lo, hi, d);
    Branch(LeadOf(es[lo]), if st.ex.Some? then Concluded(st.ex.value) else st.where, st.whereKwEnd, st.tailStart, st.end)
  }

  /** The attribution of the tokens of core `k`. */
  function Attribute(m: map<nat, nat>, es: seq<Sig>, lo: nat, hi: nat, k: nat): map<nat, nat>
    requires lo <= hi <= |es|
    decreases hi - lo
  {
    if lo == hi then m
    else Attribute(if es[lo].Plain? && !es[lo].synth then m[es[lo].t.at := k] else m, es, lo + 1, hi, k)
  }

  ghost predicate Fits(es: seq<Sig>, cores: seq<(nat, nat)>) {
    forall c <- cores :: c.0 <= c.1 <= |es| && c.0 < |es| && es[c.0].Plain?
  }

  ghost function Branches(md: Mode, es: seq<Sig>, cores: seq<(nat, nat)>): seq<Branch>
    requires Fits(es, cores)
  {
    if cores == [] then []
    else
      assert cores[0] in cores;
      [BranchOf(md, es, cores[0].0, cores[0].1, es[cores[0].0].depth)] + Branches(md, es, cores[1..])
  }

  ghost function Attributes(m: map<nat, nat>, es: seq<Sig>, cores: seq<(nat, nat)>, k: nat): map<nat, nat>
    requires Fits(es, cores)
    decreases |cores|
  {
    if cores == [] then m
    else
      assert cores[0] in cores;
      Attributes(Attribute(m, es, cores[0].0, cores[0].1, k), es, cores[1..], k + 1)
  }

  // ---------------------------------------------------------------- the cores of a scan

  lemma FitsBoth(es: seq<Sig>, a: seq<(nat, nat)>, b: seq<(nat, nat)>)
    requires Fits(es, a) && Fits(es, b)
    ensures Fits(es, a + b)
  {
  }

  lemma {:induction false} BranchesConcat(md: Mode, es: seq<Sig>, a: seq<(nat, nat)>, b: seq<(nat, nat)>)
    requires Fits(es, a) && Fits(es, b) && Fits(es, a + b)
    ensures Branches(md, es, a + b) == Branches(md, es, a) + Branches(md, es, b)
    decreases |a|
  {
    hide BranchOf;
    if a == [] {
      assert a + b == b;
    } else {
      assert (a + b)[0] == a[0] && (a + b)[1..] == a[1..] + b;
      BranchesConcat(md, es, a[1..], b);
    }
  }

  lemma {:induction false} AttributesConcat(m: map<nat, nat>, es: seq<Sig>, a: seq<(nat, nat)>, b: seq<(nat, nat)>, k: nat)
    requires Fits(es, a) && Fits(es, b) && Fits(es, a + b)
    ensures Attributes(m, es, a + b, k) == Attributes(Attributes(m, es, a, k), es, b, k + |a|)
    decreases |a|
  {
    hide Attribute;
    if a == [] {
      assert a + b == b;
    } else {
      assert (a + b)[0] == a[0] && (a + b)[1..] == a[1..] + b;
      assert a[0] in a;
      AttributesConcat(Attribute(m, es, a[0].0, a[0].1, k), es, a[1..], b, k + 1);
    }
  }

  lemma {:induction false} BranchesCount(md: Mode, es: seq<Sig>, cores: seq<(nat, nat)>)
    requires Fits(es, cores)
    ensures |Branches(md, es, cores)| == |cores|
    ensures forall k :: 0 <= k < |cores| ==> cores[k] in cores && Branches(md, es, cores)[k] == BranchOf(md, es, cores[k].0, cores[k].1, es[cores[k].0].depth)
    decreases |cores|
  {
    hide BranchOf;
    if cores != [] {
      BranchesCount(md, es, cores[1..]);
    }
  }

  /** What a part of the scan leaves behind. */
  ghost predicate Recorded(md: Mode, es: seq<Sig>, cores: seq<(nat, nat)>, bs: seq<Branch>, m: map<nat, nat>, bs': seq<Branch>, m': map<nat, nat>) {
    Fits(es, cores) && bs' == bs + Branches(md, es, cores) && m' == Attributes(m, es, cores, |bs|)
  }

  lemma RecordedThen(md: Mode, es: seq<Sig>, a: seq<(nat, nat)>, b: seq<(nat, nat)>,
                     bs: seq<Branch>, m: map<nat, nat>, bs': seq<Branch>, m': map<nat, nat>, bs'': seq<Branch>, m'': map<nat, nat>)
    requires Recorded(md, es, a, bs, m, bs', m') && Recorded(md, es, b, bs', m', bs'', m'')
    ensures Recorded(md, es, a + b, bs, m, bs'', m'')
  {
    hide Branches, Attributes, Fits;
    FitsBoth(es, a, b);
    BranchesConcat(md, es, a, b);
    AttributesConcat(m, es, a, b, |bs|);
    BranchesCount(md, es, a);
    assert bs + (Branches(md, es, a) + Branches(md, es, b)) == (bs + Branches(md, es, a)) + Branches(md, es, b);
  }

  lemma RecordedNothing(md: Mode, es: seq<Sig>, bs: seq<Branch>, m: map<nat, nat>)
    ensures Recorded(md, es, [], bs, m, bs, m)
  {
    assert bs + [] == bs;
  }

  lemma {:induction false} RecordedOne(md: Mode, es: seq<Sig>, lo: nat, hi: nat, bs: seq<Branch>, m: map<nat, nat>)
    requires lo <= hi <= |es| && lo < |es| && es[lo].Plain?
    ensures Recorded(md, es, [(lo, hi)], bs, m, bs + [BranchOf(md, es, lo, hi, es[lo].depth)], Attribute(m, es, lo, hi, |bs|))
  {
    hide BranchOf, Attribute;
    var one := [(lo, hi)];
    assert one[1..] == [];
    assert Branches(md, es, one) == [BranchOf(md, es, lo, hi, es[lo].depth)] + Branches(md, es, one[1..]);
    assert Attributes(m, es, one, |bs|) == Attributes(Attribute(m, es, lo, hi, |bs|), es, one[1..], |bs| + 1);
  }

  // ---------------------------------------------------------------- the parser

  /** The locals of `core`'s loop. */
  class CoreReader {
    const md: Mode
    var ex: ExprScan?
    var where: ClauseScan
    var sawFrom: bool
    var whereKwEnd: int
    var tailStart: int
    var end: int

    constructor (md: Mode)
      ensures this.md == md && ex == null && State() == CORE
    {
      this.md := md;
      ex, where, sawFrom, whereKwEnd, tailStart, end := null, NOT_FOUND, false, -1, -1, -1;
    }

    ghost predicate Mine()
      reads this, ex
    {
      ex != null ==> ex.md == md
    }

    function State(): CoreState
      reads this, ex
    {
      CoreState(if ex == null then None else Some(ex.State()), where, sawFrom, whereKwEnd, tailStart, end)
    }

    method Settled(ends: bool)
      requires ex != null
      modifies this`where, this`ex
      ensures State() == Settle(old(State()), old(ex.State()), ends)
      ensures ex == null || ex == old(ex)
    {
      if ends {
        where := Concluded(ex.State());
        ex := null;
      }
    }

    method Step(e: Sig, d: nat)
      requires Mine()
      modifies this, ex
      ensures Mine() && State() == StepCore(md, old(State()), e, d)
      ensures ex == null || ex == old(ex) || fresh(ex)
    {
      hide StepScan, HoleScan, Keyword, OpenSlot, Concluded;
      if e.Block? {
        if ex != null {
          var ends := ex.Construct(e.boundary, e.end);
          Settled(ends);
        }
        Boundary(e);
      } else {
        if ex != null {
          var ends := ex.Step(e.t, e.depth == d, e.dotted);
          Settled(ends);
        }
        AfterToken(e, d);
      }
    }

    method AfterToken(e: Sig, d: nat)
      requires e.Plain? && Mine()
      modifies this`sawFrom, this`ex, this`whereKwEnd, this`tailStart, this`end
      ensures Mine() && (ex == null || ex == old(ex) || fresh(ex))
      ensures
        var st := old(State());
        State() == (if st.ex.None? && e.depth == d && e.t.kind.Ident? && !e.dotted then Keyword(st, e.t) else st).(end := EndOf(e.t))
    {
      hide Keyword;
      if ex == null && e.depth == d && e.t.kind.Ident? && !e.dotted {
        KeywordAt(e.t);
      }
      end := EndOf(e.t);
    }

    method Boundary(e: Sig)
      requires e.Block?
      modifies this`tailStart, this`end
      ensures State() == (if OpenSlot(old(State())) && e.boundary then old(State()).(tailStart := e.start) else old(State())).(end := e.end)
    {
      if ex == null && sawFrom && whereKwEnd < 0 && tailStart < 0 && e.boundary {
        tailStart := e.start;
      }
      end := e.end;
    }

    method KeywordAt(t: Tok)
      requires ex == null
      modifies this`sawFrom, this`ex, this`whereKwEnd, this`tailStart
      ensures State() == Keyword(old(State()), t)
      ensures ex == null || (fresh(ex) && ex.md == md)
    {
      var w := Word(t);
      if w == "FROM" {
        sawFrom := true;
      } else if w == "WHERE" && whereKwEnd < 0 {
        ex := new ExprScan(md);
        whereKwEnd := EndOf(t);
      } else if sawFrom && whereKwEnd < 0 && tailStart < 0 && w in CORETAILS {
        tailStart := t.at;
      }
    }
  }

  class SetOpParser {
    const md: Mode
    const elems: seq<Sig>
    var i: nat
    var branches: seq<Branch>
    var branchOf: map<nat, nat>
    var failed: bool

    constructor (md: Mode, elems: seq<Sig>)
      ensures this.md == md && this.elems == elems && i == 0 && branches == [] && branchOf == map[] && !failed
    {
      this.md, this.elems := md, elems;
      i, branches, branchOf, failed := 0, [], map[], false;
    }

    /** `skipParen`. */
    method SkipParen(d: nat)
      requires i < |elems| && !failed
      modifies this`i, this`failed
      ensures failed <==> ParenEnd(elems, old(i) + 1, d).None?
      ensures !failed ==> i == ParenEnd(elems, old(i) + 1, d).value
    {
      i := i + 1;
      while i < |elems|
        invariant old(i) < i <= |elems| && !failed
        invariant ParenEnd(elems, i, d) == ParenEnd(elems, old(i) + 1, d)
      {
        var e := elems[i];
        if e.Plain? && e.depth == d && e.t.kind.RParen? {
          i := i + 1;
          return;
        }
        i := i + 1;
      }
      failed := true;
    }

    method SkipCte(d: nat)
      requires i <= |elems| && !failed
      modifies this`i, this`failed
      ensures failed <==> CteEnd(elems, old(i), d).None?
      ensures !failed ==> i == CteEnd(elems, old(i), d).value
    {
      hide ParenEnd, IsWord, CteBodyEnd;
      if !IsKind(elems, i, Ident) && !IsKind(elems, i, QuotedIdent) {
        failed := true;
        return;
      }
      i := i + 1;
      if IsKind(elems, i, LParen) {
        SkipParen(d);
        if failed {
          return;
        }
      }
      if !IsWord(elems, i, "AS") {
        failed := true;
        return;
      }
      InRange(elems, i, "AS");
      i := i + 1;
      SkipCteBody(d);
    }

    method SkipCteBody(d: nat)
      requires i <= |elems| && !failed
      modifies this`i, this`failed
      ensures failed <==> CteBodyEnd(elems, old(i), d).None?
      ensures !failed ==> i == CteBodyEnd(elems, old(i), d).value
    {
      hide ParenEnd;
      if IsWord(elems, i, "NOT") {
        i := i + 1;
      }
      if IsWord(elems, i, "MATERIALIZED") {
        i := i + 1;
      }
      if !IsKind(elems, i, LParen) {
        failed := true;
        return;
      }
      SkipParen(d);
    }

    /** `skipWith`. */
    method SkipWith(d: nat)
      requires i < |elems| && !failed
      modifies this`i, this`failed
      ensures failed <==> WithEnd(elems, old(i), d).None?
      ensures !failed ==> i == WithEnd(elems, old(i), d).value
    {
      hide CteEnd;
      i := i + 1;
      if IsWord(elems, i, "RECURSIVE") {
        i := i + 1;
      }
      while true
        invariant i <= |elems| && !failed
        invariant CtesEnd(elems, i, d) == WithEnd(elems, old(i), d)
        decreases |elems| - i
      {
        SkipCte(d);
        if failed {
          return;
        }
        if !(IsKind(elems, i, Comma) && elems[i].depth == d) {
          return;
        }
        i := i + 1;
      }
    }

    /** `core`. */
    method Core(d: nat)
      requires i < |elems| && elems[i].Plain? && elems[i].depth == d
      modifies this`i, this`branches, this`branchOf
      ensures i == CoreEnd(elems, old(i), d)
      ensures Recorded(md, elems, [(old(i), i)], old(branches), old(branchOf), branches, branchOf)
    {
      hide Recorded, EndsCore, BranchOf, StepCore, Upper;
      ghost var lo, hi := i, CoreEnd(elems, i, d);
      var idx := |branches|;
      var leadKw := if elems[i].t.kind.Ident? then Word(elems[i].t) else "";
      var core := new CoreReader(md);
      var attributed: map<nat, nat> := branchOf;
      while i < |elems| && !EndsCore(elems[i], d)
        invariant lo <= i <= |elems| && fresh(core) && core.Mine() && core.md == md && (core.ex != null ==> fresh(core.ex))
        invariant CoreEnd(elems, i, d) == hi
        invariant RunCore(md, CORE, elems, lo, hi, d) == RunCore(md, core.State(), elems, i, hi, d)
        invariant Attribute(branchOf, elems, lo, hi, idx) == Attribute(attributed, elems, i, hi, idx)
        invariant branchOf == old(branchOf) && branches == old(branches)
      {
        hide RunCore, Attribute;
        CoreGoesOn(md, core.State(), elems, i, lo, d, attributed, idx);
        var e := elems[i];
        if e.Plain? && !e.synth {
          attributed := attributed[e.t.at := idx];
        }
        core.Step(e, d);
        i := i + 1;
      }
      var where := core.where;
      if core.ex != null {
        where := Concluded(core.ex.State());
      }
      CoreIsRun(md, elems, lo, i, d);
      RecordedOne(md, elems, lo, i, branches, branchOf);
      branches := branches + [Branch(leadKw, where, core.whereKwEnd, core.tailStart, core.end)];
      branchOf := attributed;
    }

    /** `operand`. */
    method Operand(d: nat)
      requires i <= |elems| && !failed
      modifies this
      ensures failed <==> OperandFrom(elems, old(i), d).None?
      ensures !failed ==> i == OperandFrom(elems, old(i), d).value.i
      ensures !failed ==> Recorded(md, elems, OperandFrom(elems, old(i), d).value.cores, old(branches), old(branchOf), branches, branchOf)
      decreases |elems| - i, 1
    {
      hide Recorded, CoreEnd;
      if i == |elems| || elems[i].Block? || elems[i].depth != d {
        failed := true;
        return;
      }
      if elems[i].t.kind.LParen? {
        i := i + 1;
        Query(d + 1);
        if failed {
          return;
        }
        if !IsKind(elems, i, RParen) || elems[i].depth != d {
          failed := true;
          return;
        }
        i := i + 1;
        return;
      }
      Core(d);
    }

    /** `query`. */
    method Query(d: nat)
      requires i <= |elems| && !failed
      modifies this
      ensures failed <==> QueryFrom(elems, old(i), d).None?
      ensures !failed ==> i == QueryFrom(elems, old(i), d).value.i
      ensures !failed ==> Recorded(md, elems, QueryFrom(elems, old(i), d).value.cores, old(branches), old(branchOf), branches, branchOf)
      decreases |elems| - i, 3
    {
      hide Recorded, WithEnd, OperandFrom, EndsQuery, IsWord, TailEnd;
      WithInRange(elems, i);
      if IsWord(elems, i, "WITH") {
        SkipWith(d);
        if failed {
          return;
        }
      }
      ghost var start := i;
      Operand(d);
      if failed {
        return;
      }
      ghost var first, afterFirst, bs, m := OperandFrom(elems, start, d).value.cores, i, branches, branchOf;
      More(d);
      if failed {
        return;
      }
      RecordedThen(md, elems, first, MoreFrom(elems, afterFirst, d).value.cores, old(branches), old(branchOf), bs, m, branches, branchOf);
      QueryUnfolds(elems, old(i), start, d);
      hide QueryFrom, MoreFrom;
      SkipTail(d);
    }

    method SkipTail(d: nat)
      requires i <= |elems|
      modifies this`i
      ensures i == TailEnd(elems, old(i), d)
    {
      while i < |elems| && !EndsQuery(elems[i], d)
        invariant i <= |elems| && TailEnd(elems, i, d) == TailEnd(elems, old(i), d)
      {
        i := i + 1;
      }
    }

    /** The loop of `query` over set operators. */
    method More(d: nat)
      requires i <= |elems| && !failed
      modifies this
      ensures failed <==> MoreFrom(elems, old(i), d).None?
      ensures !failed ==> i == MoreFrom(elems, old(i), d).value.i
      ensures !failed ==> Recorded(md, elems, MoreFrom(elems, old(i), d).value.cores, old(branches), old(branchOf), branches, branchOf)
      decreases |elems| - i, 2
    {
      hide Recorded, OperandFrom, SetOperator;
      ghost var done: seq<(nat, nat)> := [];
      RecordedNothing(md, elems, branches, branchOf);
      while i < |elems| && SetOperator(elems[i], d)
        invariant old(i) <= i <= |elems| && !failed
        invariant Recorded(md, elems, done, old(branches), old(branchOf), branches, branchOf)
        invariant
          var whole, rest := MoreFrom(elems, old(i), d), MoreFrom(elems, i, d);
          (whole.None? <==> rest.None?) && (whole.Some? ==> whole.value.i == rest.value.i && whole.value.cores == done + rest.value.cores)
        decreases |elems| - i
      {
        ghost var at, bs, m := i, branches, branchOf;
        i := i + 1;
        if IsWord(elems, i, "ALL") || IsWord(elems, i, "DISTINCT") {
          i := i + 1;
        }
        ghost var j := i;
        Operand(d);
        if failed {
          return;
        }
        ghost var one := OperandFrom(elems, j, d).value;
        RecordedThen(md, elems, done, one.cores, old(branches), old(branchOf), bs, m, branches, branchOf);
        MoreMoves(elems, at, j, d, done);
        done := done + one.cores;
      }
      assert MoreFrom(elems, i, d) == Some(Seen(i, []));
      assert done + [] == done;
    }
  }

  lemma InRange(es: seq<Sig>, i: nat, w: string)
    requires IsWord(es, i, w)
    ensures i < |es|
  {
  }

  lemma WithInRange(es: seq<Sig>, i: nat)
    ensures IsWord(es, i, "WITH") ==> i < |es|
  {
  }

  lemma {:induction false} QueryUnfolds(es: seq<Sig>, i: nat, start: nat, d: nat)
    requires i <= start <= |es| && Some(start) == if IsWord(es, i, "WITH") then WithEnd(es, i, d) else Some(i)
    requires OperandFrom(es, start, d).Some? && MoreFrom(es, OperandFrom(es, start, d).value.i, d).Some?
    ensures
      var first := OperandFrom(es, start, d).value;
      var more := MoreFrom(es, first.i, d).value;
      QueryFrom(es, i, d) == Some(Seen(TailEnd(es, more.i, d), first.cores + more.cores))
  {
    hide OperandFrom, MoreFrom, WithEnd, IsWord, TailEnd;
  }

  lemma {:induction false} MoreMoves(es: seq<Sig>, i: nat, j: nat, d: nat, done: seq<(nat, nat)>)
    requires i < |es| && SetOperator(es[i], d)
    requires j == if IsWord(es, i + 1, "ALL") || IsWord(es, i + 1, "DISTINCT") then i + 2 else i + 1
    requires j <= |es| && OperandFrom(es, j, d).Some?
    ensures
      var one := OperandFrom(es, j, d).value;
      var whole, rest := MoreFrom(es, i, d), MoreFrom(es, one.i, d);
      (whole.None? <==> rest.None?) &&
      (whole.Some? ==> whole.value.i == rest.value.i && done + whole.value.cores == (done + one.cores) + rest.value.cores)
  {
    hide OperandFrom, SetOperator;
    var one := OperandFrom(es, j, d).value;
    var rest := MoreFrom(es, one.i, d);
    if rest.Some? {
      assert done + (one.cores + rest.value.cores) == (done + one.cores) + rest.value.cores;
    }
  }

  lemma CoreGoesOn(md: Mode, st: CoreState, es: seq<Sig>, i: nat, lo: nat, d: nat, m: map<nat, nat>, k: nat)
    requires lo <= i < |es| && !EndsCore(es[i], d) && CoreEnd(es, i, d) == CoreEnd(es, lo, d)
    ensures CoreEnd(es, i + 1, d) == CoreEnd(es, lo, d) && i < CoreEnd(es, lo, d)
    ensures RunCore(md, st, es, i, CoreEnd(es, lo, d), d) == RunCore(md, StepCore(md, st, es[i], d), es, i + 1, CoreEnd(es, lo, d), d)
    ensures
      Attribute(m, es, i, CoreEnd(es, lo, d), k) ==
      Attribute(if es[i].Plain? && !es[i].synth then m[es[i].t.at := k] else m, es, i + 1, CoreEnd(es, lo, d), k)
  {
    hide StepCore, EndsCore;
  }

  lemma {:induction false} CoreIsRun(md: Mode, es: seq<Sig>, lo: nat, hi: nat, d: nat)
    requires lo <= hi <= |es| && lo < |es| && es[lo].Plain? && es[lo].depth == d
    ensures
      var st := RunCore(md, CORE, es, lo, hi, d);
      BranchOf(md, es, lo, hi, d) == Branch(LeadOf(es[lo]), if st.ex.Some? then Concluded(st.ex.value) else st.where, st.whereKwEnd, st.tailStart, st.end)
  {
    hide RunCore;
  }

  datatype SetOpScan = SetOpScan(ok: bool, branches: seq<Branch>, branchOf: map<nat, nat>)

  /** `scanSetOp`. */
  method ScanSetOp(md: Mode, els: seq<In>) returns (out: SetOpScan)
    ensures out.ok <==> (var f := Flatten(els, Place(0, false)); f.Some? && f.value.1.depth == 0 && Cores(f.value.0).Some?)
    ensures out.ok ==>
      var es := Flatten(els, Place(0, false)).value.0;
      Recorded(md, es, Cores(es).value, [], map[], out.branches, out.branchOf)
  {
    hide Recorded, QueryFrom;
    out := SetOpScan(false, [], map[]);
    var elems := SetOpElems(els);
    if elems.None? {
      return;
    }
    var p := new SetOpParser(md, elems.value);
    p.Query(0);
    if p.failed {
      return;
    }
    var j := p.i;
    while j < |p.elems|
      invariant p.i <= j <= |p.elems| && forall k :: p.i <= k < j ==> p.elems[k].Plain? && p.elems[k].t.kind.Semicolon?
    {
      if p.elems[j].Block? || !p.elems[j].t.kind.Semicolon? {
        return;
      }
      j := j + 1;
    }
    out := SetOpScan(true, p.branches, p.branchOf);
  }
}
