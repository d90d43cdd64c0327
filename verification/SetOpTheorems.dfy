/**
 What the split of a set operation returns: on any input its cores are disjoint and in
 order, and the attribution is exact; on a statement of the grammar the cores are the leaf
 queries, and each one's WHERE is read as if it stood alone (internal/policy/setop.go).
 */
module SetOpTheorems {
  import opened Core
  import opened Lexing
  import opened SqlTokens
  import opened ClauseScanning
  import opened ClauseTheorems
  import opened SetOpScanning

  // ---------------------------------------------------------------- on any input

  lemma {:induction false} OrderedApart(cores: seq<(nat, nat)>, lo: nat, hi: nat)
    requires Ordered(cores, lo, hi)
    ensures forall k :: 0 <= k < |cores| ==> lo <= cores[k].0 <= cores[k].1 <= hi
    ensures forall j, k :: 0 <= j < k < |cores| ==> cores[j].1 <= cores[k].0
    decreases |cores|
  {
    if cores != [] {
      OrderedApart(cores[1..], cores[0].1, hi);
      OrderedReach(cores, lo, hi);
      assert forall k :: 1 <= k < |cores| ==> cores[k] == cores[1..][k - 1];
    }
  }

  lemma {:induction false} OrderedReach(cores: seq<(nat, nat)>, lo: nat, hi: nat)
    requires Ordered(cores, lo, hi)
    ensures lo <= hi && (cores != [] ==> cores[0].1 <= hi)
    decreases |cores|
  {
    if cores != [] {
      OrderedReach(cores[1..], cores[0].1, hi);
    }
  }

  /** A core starts at a token and runs to the first end at that token's depth. */
  ghost predicate Whole(es: seq<Sig>, cores: seq<(nat, nat)>) {
    forall c <- cores :: c.0 < |es| && es[c.0].Plain? && !es[c.0].t.kind.LParen? && c.1 == CoreEnd(es, c.0, es[c.0].depth)
  }

  lemma WholeBoth(es: seq<Sig>, a: seq<(nat, nat)>, b: seq<(nat, nat)>)
    requires Whole(es, a) && Whole(es, b)
    ensures Whole(es, a + b)
  {
    hide CoreEnd;
  }

  lemma {:induction false} QueryWhole(es: seq<Sig>, i: nat, d: nat)
    requires i <= |es| && QueryFrom(es, i, d).Some?
    ensures Whole(es, QueryFrom(es, i, d).value.cores)
    decreases |es| - i, 3
  {
    hide Whole, OperandFrom, MoreFrom, WithEnd, IsWord, TailEnd;
    var start := if IsWord(es, i, "WITH") then WithEnd(es, i, d) else Some(i);
    OperandWhole(es, start.value, d);
    MoreWhole(es, OperandFrom(es, start.value, d).value.i, d);
    WholeBoth(es, OperandFrom(es, start.value, d).value.cores, MoreFrom(es, OperandFrom(es, start.value, d).value.i, d).value.cores);
  }

  lemma {:induction false} MoreWhole(es: seq<Sig>, i: nat, d: nat)
    requires i <= |es| && MoreFrom(es, i, d).Some?
    ensures Whole(es, MoreFrom(es, i, d).value.cores)
    decreases |es| - i, 2
  {
    if i == |es| || !SetOperator(es[i], d) {
    } else {
      var j := if IsWord(es, i + 1, "ALL") || IsWord(es, i + 1, "DISTINCT") then i + 2 else i + 1;
      OperandWhole(es, j, d);
      MoreWhole(es, OperandFrom(es, j, d).value.i, d);
      hide Whole, OperandFrom;
      WholeBoth(es, OperandFrom(es, j, d).value.cores, MoreFrom(es, OperandFrom(es, j, d).value.i, d).value.cores);
    }
  }

  lemma {:induction false} OperandWhole(es: seq<Sig>, i: nat, d: nat)
    requires i <= |es| && OperandFrom(es, i, d).Some?
    ensures Whole(es, OperandFrom(es, i, d).value.cores)
    decreases |es| - i, 1
  {
    hide CoreEnd, QueryFrom;
    if es[i].t.kind.LParen? {
      QueryWhole(es, i + 1, d + 1);
    }
  }

  /** Skeleton text that is not woven. */
  predicate Own(e: Sig) { e.Plain? && !e.synth }

  predicate OffsetsDistinct(es: seq<Sig>) {
    forall i, j :: 0 <= i < j < |es| && Own(es[i]) && Own(es[j]) ==> es[i].t.at != es[j].t.at
  }

  predicate Touches(es: seq<Sig>, lo: nat, hi: nat, a: nat)
    requires hi <= |es|
  {
    exists j :: lo <= j < hi && Own(es[j]) && es[j].t.at == a
  }

  lemma {:induction false} AttributeAt(m: map<nat, nat>, es: seq<Sig>, lo: nat, hi: nat, k: nat, a: nat)
    requires lo <= hi <= |es|
    ensures
      var r := Attribute(m, es, lo, hi, k);
      if Touches(es, lo, hi, a) then a in r && r[a] == k
      else (a in r <==> a in m) && (a in m ==> r[a] == m[a])
    decreases hi - lo
  {
    if lo < hi {
      var m' := if es[lo].Plain? && !es[lo].synth then m[es[lo].t.at := k] else m;
      AttributeAt(m', es, lo + 1, hi, k, a);
      assert Touches(es, lo, hi, a) <==> (Own(es[lo]) && es[lo].t.at == a) || Touches(es, lo + 1, hi, a);
    }
  }

  lemma {:induction false} AttributesMiss(m: map<nat, nat>, es: seq<Sig>, cores: seq<(nat, nat)>, k: nat, a: nat)
    requires Fits(es, cores) && forall c <- cores :: !Touches(es, c.0, c.1, a)
    ensures
      var r := Attributes(m, es, cores, k);
      (a in r <==> a in m) && (a in m ==> r[a] == m[a])
    decreases |cores|
  {
    hide Touches, Attribute;
    if cores != [] {
      assert cores[0] in cores;
      AttributeAt(m, es, cores[0].0, cores[0].1, k, a);
      AttributesMiss(Attribute(m, es, cores[0].0, cores[0].1, k), es, cores[1..], k + 1, a);
    }
  }

  lemma {:induction false} AttributesHit(m: map<nat, nat>, es: seq<Sig>, cores: seq<(nat, nat)>, k: nat, a: nat, c: nat)
    requires Fits(es, cores) && c < |cores| && cores[c] in cores && Touches(es, cores[c].0, cores[c].1, a)
    requires forall j :: c < j < |cores| ==> cores[j] in cores && !Touches(es, cores[j].0, cores[j].1, a)
    ensures var r := Attributes(m, es, cores, k); a in r && r[a] == k + c
    decreases |cores|
  {
    hide Touches, Attribute;
    assert cores[0] in cores;
    var m' := Attribute(m, es, cores[0].0, cores[0].1, k);
    AttributeAt(m, es, cores[0].0, cores[0].1, k, a);
    if c == 0 {
      assert forall x <- cores[1..] :: !Touches(es, x.0, x.1, a) by {
        forall x | x in cores[1..] ensures !Touches(es, x.0, x.1, a) {
          var j :| 0 <= j < |cores[1..]| && cores[1..][j] == x;
          assert x == cores[j + 1];
        }
      }
      AttributesMiss(m', es, cores[1..], k + 1, a);
    } else {
      assert forall j :: 0 <= j < |cores[1..]| ==> cores[1..][j] == cores[j + 1];
      AttributesHit(m', es, cores[1..], k + 1, a, c - 1);
    }
  }

  /** Core `k` has an unwoven token at offset `a`. */
  predicate InCore(es: seq<Sig>, cores: seq<(nat, nat)>, k: nat, a: nat) {
    k < |cores| && exists j :: cores[k].0 <= j < cores[k].1 && j < |es| && Own(es[j]) && es[j].t.at == a
  }

  lemma {:induction false} OneCore(es: seq<Sig>, cores: seq<(nat, nat)>, hi: nat, j: nat, k: nat, a: nat)
    requires Ordered(cores, 0, hi) && hi <= |es| && OffsetsDistinct(es) && InCore(es, cores, j, a) && InCore(es, cores, k, a)
    ensures j == k
  {
    OrderedApart(cores, 0, hi);
    var x :| cores[j].0 <= x < cores[j].1 && x < |es| && Own(es[x]) && es[x].t.at == a;
    var y :| cores[k].0 <= y < cores[k].1 && y < |es| && Own(es[y]) && es[y].t.at == a;
    assert x == y;
  }

  lemma {:induction false} AttributionAt(es: seq<Sig>, cores: seq<(nat, nat)>, hi: nat, a: nat)
    requires Ordered(cores, 0, hi) && hi <= |es| && OffsetsDistinct(es) && Fits(es, cores)
    ensures
      var m := Attributes(map[], es, cores, 0);
      (a in m <==> exists k: nat :: InCore(es, cores, k, a)) && (a in m ==> InCore(es, cores, m[a], a))
  {
    hide Attributes, OffsetsDistinct, Ordered;
    if k: nat :| InCore(es, cores, k, a) {
      forall j | k < j < |cores| ensures cores[j] in cores && !Touches(es, cores[j].0, cores[j].1, a) {
        if Touches(es, cores[j].0, cores[j].1, a) {
          assert InCore(es, cores, j, a);
          OneCore(es, cores, hi, j, k, a);
        }
      }
      assert Touches(es, cores[k].0, cores[k].1, a);
      AttributesHit(map[], es, cores, 0, a, k);
    } else {
      forall c | c in cores ensures !Touches(es, c.0, c.1, a) {
        var k :| 0 <= k < |cores| && cores[k] == c;
        assert !InCore(es, cores, k, a);
      }
      AttributesMiss(map[], es, cores, 0, a);
    }
  }

  lemma {:induction false} AttributionExact(es: seq<Sig>, cores: seq<(nat, nat)>, hi: nat)
    requires Ordered(cores, 0, hi) && hi <= |es| && OffsetsDistinct(es) && Fits(es, cores)
    ensures
      var m := Attributes(map[], es, cores, 0);
      (forall a: nat :: a in m <==> exists k: nat :: InCore(es, cores, k, a)) &&
      forall a: nat, k: nat :: a in m ==> (m[a] == k <==> InCore(es, cores, k, a))
  {
    hide Ordered, OffsetsDistinct, Attributes, Fits, InCore;
    var m := Attributes(map[], es, cores, 0);
    forall a: nat ensures (a in m <==> exists k: nat :: InCore(es, cores, k, a)) && (a in m ==> InCore(es, cores, m[a], a)) {
      AttributionAt(es, cores, hi, a);
    }
    forall a: nat, k: nat | a in m && InCore(es, cores, k, a) ensures m[a] == k {
      OneCore(es, cores, hi, m[a], k, a);
    }
  }

  /** Whatever the input: when the split succeeds, its cores are disjoint intervals in
      document order, each running from a token to the first end at that token's depth; it
      has one branch per core; and an offset is attributed to a core exactly when that core,
      and then no other, has an unwoven token there. */
  lemma SplitSound(md: Mode, es: seq<Sig>, cores: seq<(nat, nat)>, bs: seq<Branch>, m: map<nat, nat>)
    requires Cores(es) == Some(cores) && Recorded(md, es, cores, [], map[], bs, m) && OffsetsDistinct(es)
    ensures |bs| == |cores| && Whole(es, cores)
    ensures forall j, k :: 0 <= j < k < |cores| ==> cores[j].0 <= cores[j].1 <= cores[k].0 <= cores[k].1 <= |es|
    ensures forall a: nat :: a in m <==> exists k: nat :: InCore(es, cores, k, a)
    ensures forall a: nat, k: nat :: a in m ==> (m[a] == k <==> InCore(es, cores, k, a))
  {
    hide *;
    RecordedParts(md, es, cores, bs, m);
    var hi := SplitFound(es, cores);
    OrderedApart(cores, 0, hi);
    BranchesCount(md, es, cores);
    AttributionExact(es, cores, hi);
  }

  lemma SplitFound(es: seq<Sig>, cores: seq<(nat, nat)>) returns (hi: nat)
    requires Cores(es) == Some(cores)
    ensures Ordered(cores, 0, hi) && hi <= |es| && Whole(es, cores)
  {
    hide QueryFrom, Ordered, Whole;
    QueryWhole(es, 0, 0);
    hi := QueryFrom(es, 0, 0).value.i;
  }

  lemma {:induction false} RecordedParts(md: Mode, es: seq<Sig>, cores: seq<(nat, nat)>, bs: seq<Branch>, m: map<nat, nat>)
    requires Recorded(md, es, cores, [], map[], bs, m)
    ensures Fits(es, cores) && bs == Branches(md, es, cores) && m == Attributes(map[], es, cores, 0)
  {
    hide Branches, Attributes, Fits;
  }

  // ---------------------------------------------------------------- the grammar

  /** `[WITH cte {, cte}] operand {setop [ALL|DISTINCT] operand} tail`. */
  datatype Query = Query(with: Option<With>, first: Operand, more: More, tail: seq<In>)

  datatype More = Done | Then(op: In, quant: Option<In>, operand: Operand, more: More)

  datatype Operand = Nested(open: In, q: Query, close: In) | Leaf(core: seq<In>)

  datatype With = With(kw: In, recursive: Option<In>, ctes: Ctes)

  datatype Ctes = Last(cte: Cte) | Another(cte: Cte, comma: In, rest: Ctes)

  datatype Cte = Cte(name: In, cols: Option<Parens>, as_: In, not_: Option<In>, materialized: Option<In>, body: Parens)

  datatype Parens = Parens(open: In, inner: seq<In>, close: In)

  function Opt(o: Option<In>): seq<In> { if o.Some? then [o.value] else [] }

  function ParensSpell(p: Parens): seq<In> { [p.open] + p.inner + [p.close] }

  function CteSpell(c: Cte): seq<In> {
    [c.name] + (if c.cols.Some? then ParensSpell(c.cols.value) else []) + [c.as_] + CteBodySpell(c)
  }

  function CteBodySpell(c: Cte): seq<In> { Opt(c.not_) + Opt(c.materialized) + ParensSpell(c.body) }

  function CtesSpell(cs: Ctes): seq<In> {
    match cs
    case Last(c) => CteSpell(c)
    case Another(c, comma, rest) => CteSpell(c) + [comma] + CtesSpell(rest)
  }

  function WithSpell(w: With): seq<In> { [w.kw] + Opt(w.recursive) + CtesSpell(w.ctes) }

  function Spell(q: Query): seq<In> {
    (if q.with.Some? then WithSpell(q.with.value) else []) + (OperandSpell(q.first) + (MoreSpell(q.more) + q.tail))
  }

  function OperandSpell(o: Operand): seq<In> {
    match o
    case Nested(open, q, close) => [open] + Spell(q) + [close]
    case Leaf(core) => core
  }

  function MoreSpell(m: More): seq<In> {
    match m
    case Done => []
    case Then(op, quant, operand, more) => [op] + Opt(quant) + (OperandSpell(operand) + MoreSpell(more))
  }

  /** The leaf queries, in document order, and their extents when the spelling starts at
      `i`. */
  function Leaves(q: Query): seq<seq<In>> { OperandLeaves(q.first) + MoreLeaves(q.more) }

  function OperandLeaves(o: Operand): seq<seq<In>> {
    match o
    case Nested(_, q, _) => Leaves(q)
    case Leaf(core) => [core]
  }

  function MoreLeaves(m: More): seq<seq<In>> {
    match m
    case Done => []
    case Then(_, _, operand, more) => OperandLeaves(operand) + MoreLeaves(more)
  }

  function Extents(q: Query, i: nat): seq<(nat, nat)> {
    var j := i + if q.with.Some? then |WithSpell(q.with.value)| else 0;
    OperandExtents(q.first, j) + MoreExtents(q.more, j + |OperandSpell(q.first)|)
  }

  function OperandExtents(o: Operand, i: nat): seq<(nat, nat)> {
    match o
    case Nested(_, q, _) => Extents(q, i + 1)
    case Leaf(core) => [(i, i + |core|)]
  }

  function MoreExtents(m: More, i: nat): seq<(nat, nat)> {
    match m
    case Done => []
    case Then(_, quant, operand, more) =>
      var j := i + 1 + |Opt(quant)|;
      OperandExtents(operand, j) + MoreExtents(more, j + |OperandSpell(operand)|)
  }

  // ---------------------------------------------------------------- well-formedness

  predicate HasKind(el: In, k: TokenKind) { el.Token? && el.t.kind == k }

  predicate HasWord(el: In, w: string) { el.Token? && el.t.kind.Ident? && Word(el.t) == w }

  predicate SetWord(el: In) { el.Token? && el.t.kind.Ident? && Word(el.t) in SETOPS }

  /** Parentheses match, `depth` of them still open. */
  predicate Balanced(els: seq<In>, depth: nat) {
    if els == [] then depth == 0
    else if HasKind(els[0], RParen) then depth > 0 && Balanced(els[1..], depth - 1)
    else Balanced(els[1..], if HasKind(els[0], LParen) then depth + 1 else depth)
  }

  /** No semicolon outside parentheses, and, where `ops` asks for it, no set operator; the
      last token is no dot. */
  predicate Quiet(els: seq<In>, depth: nat, dot: bool, ops: bool) {
    if els == [] then depth == 0 && !dot
    else if HasKind(els[0], RParen) then depth > 0 && Quiet(els[1..], depth - 1, false, ops)
    else
      !(depth == 0 && HasKind(els[0], Semicolon)) && !(ops && depth == 0 && !dot && SetWord(els[0])) &&
      Quiet(els[1..], if HasKind(els[0], LParen) then depth + 1 else depth, els[0].Token? && IsDot(els[0].t), ops)
  }

  predicate WfParens(p: Parens) { HasKind(p.open, LParen) && Balanced(p.inner, 0) && HasKind(p.close, RParen) }

  predicate OptWord(o: Option<In>, w: string) { o.Some? ==> HasWord(o.value, w) }

  predicate WfCte(c: Cte) {
    (HasKind(c.name, Ident) || HasKind(c.name, QuotedIdent)) && (c.cols.Some? ==> WfParens(c.cols.value)) &&
    HasWord(c.as_, "AS") && OptWord(c.not_, "NOT") && OptWord(c.materialized, "MATERIALIZED") && WfParens(c.body)
  }

  predicate WfCtes(cs: Ctes) {
    match cs
    case Last(c) => WfCte(c)
    case Another(c, comma, rest) => WfCte(c) && HasKind(comma, Comma) && WfCtes(rest)
  }

  /** A first CTE named RECURSIVE would be read as the keyword. */
  predicate WfWith(w: With) {
    HasWord(w.kw, "WITH") && OptWord(w.recursive, "RECURSIVE") && WfCtes(w.ctes) &&
    (w.recursive.None? ==> !HasWord(w.ctes.cte.name, "RECURSIVE"))
  }

  /** A core is more than nothing, starts with a token that opens nothing, and holds no
      semicolon and no set operator of its own. */
  predicate WfCore(core: seq<In>) {
    core != [] && core[0].Token? && !core[0].t.kind.LParen? && !core[0].t.kind.Comma? && Quiet(core, 0, false, true) &&
    !HasWord(core[0], "WITH") && !HasWord(core[0], "ALL") && !HasWord(core[0], "DISTINCT")
  }

  /** A tail behind a bare core is part of that core. */
  predicate WfQuery(q: Query) {
    (q.with.Some? ==> WfWith(q.with.value)) && WfOperand(q.first) && WfMore(q.more) &&
    Quiet(q.tail, 0, false, false) && (q.tail != [] ==> LastNested(q.first, q.more) && !SetWord(q.tail[0]))
  }

  predicate LastNested(o: Operand, m: More)
    decreases m
  {
    if m.Then? then LastNested(m.operand, m.more) else o.Nested?
  }

  predicate WfOperand(o: Operand) {
    match o
    case Nested(open, q, close) => HasKind(open, LParen) && WfQuery(q) && HasKind(close, RParen)
    case Leaf(core) => WfCore(core)
  }

  predicate WfMore(m: More) {
    match m
    case Done => true
    case Then(op, quant, operand, more) =>
      SetWord(op) && (quant.Some? ==> HasWord(quant.value, "ALL") || HasWord(quant.value, "DISTINCT")) &&
      WfOperand(operand) && WfMore(more)
  }

  // ---------------------------------------------------------------- where elements stand

  function After(els: seq<In>, p: Place): Option<Place> {
    if els == [] then Some(p)
    else
      var one := Placed(els[0], p);
      if one.None? then None else After(els[1..], one.value.1)
  }

  /** The elements stand at `i`. */
  predicate Stands(es: seq<Sig>, i: nat, els: seq<In>, p: Place)
    decreases |els|
  {
    if els == [] then i <= |es|
    else
      var one := Placed(els[0], p);
      i < |es| && one.Some? && es[i] == one.value.0 && Stands(es, i + 1, els[1..], one.value.1)
  }

  lemma {:induction false} AfterConcat(a: seq<In>, b: seq<In>, p: Place)
    ensures After(a + b, p) == if After(a, p).None? then None else After(b, After(a, p).value)
    decreases |a|
  {
    hide Placed;
    if a == [] {
      assert a + b == b;
    } else {
      assert (a + b)[0] == a[0] && (a + b)[1..] == a[1..] + b;
      if Placed(a[0], p).Some? {
        AfterConcat(a[1..], b, Placed(a[0], p).value.1);
      }
    }
  }

  lemma {:induction false} StandsSplit(es: seq<Sig>, i: nat, a: seq<In>, b: seq<In>, p: Place)
    requires Stands(es, i, a + b, p)
    ensures Stands(es, i, a, p) && After(a, p).Some? && Stands(es, i + |a|, b, After(a, p).value)
    decreases |a|
  {
    hide Placed;
    if a == [] {
      assert a + b == b;
      StandsInside(es, i, b, p);
    } else {
      assert (a + b)[0] == a[0] && (a + b)[1..] == a[1..] + b;
      StandsSplit(es, i + 1, a[1..], b, Placed(a[0], p).value.1);
    }
  }

  lemma {:induction false} StandsInside(es: seq<Sig>, i: nat, els: seq<In>, p: Place)
    requires Stands(es, i, els, p)
    ensures i + |els| <= |es|
    decreases |els|
  {
    hide Placed;
    if els != [] {
      StandsInside(es, i + 1, els[1..], Placed(els[0], p).value.1);
    }
  }

  lemma {:induction false} FlatStands(els: seq<In>, p: Place, before: seq<Sig>)
    requires After(els, p).Some?
    ensures Flatten(els, p).Some? && Flatten(els, p).value.1 == After(els, p).value && |Flatten(els, p).value.0| == |els|
    ensures Stands(before + Flatten(els, p).value.0, |before|, els, p)
    decreases |els|
  {
    hide Placed;
    if els != [] {
      var one := Placed(els[0], p).value;
      FlatStands(els[1..], one.1, before + [one.0]);
      var rest := Flatten(els[1..], one.1).value.0;
      assert (before + [one.0]) + rest == before + ([one.0] + rest);
    }
  }

  // ---------------------------------------------------------------- parentheses

  lemma {:induction false} BalancedAfter(els: seq<In>, k: nat, d: nat, dot: bool)
    requires Balanced(els, k)
    ensures After(els, Place(d + k, dot)).Some? && After(els, Place(d + k, dot)).value.depth == d
    decreases |els|
  {
    if els != [] {
      var one := Placed(els[0], Place(d + k, dot)).value;
      BalancedAfter(els[1..], one.1.depth - d, d, one.1.dot);
    }
  }

  /** Inside its parentheses a body never shows the closing one. */
  lemma {:induction false} BalancedSkips(es: seq<Sig>, i: nat, els: seq<In>, k: nat, d: nat, dot: bool)
    requires Balanced(els, k) && Stands(es, i, els, Place(d + 1 + k, dot))
    ensures i + |els| <= |es| && ParenEnd(es, i, d) == ParenEnd(es, i + |els|, d)
    decreases |els|
  {
    if els != [] {
      var one := Placed(els[0], Place(d + 1 + k, dot)).value;
      BalancedSkips(es, i + 1, els[1..], one.1.depth - d - 1, d, one.1.dot);
    }
  }

  lemma ParensAfter(p: Parens, d: nat)
    requires WfParens(p)
    ensures After(ParensSpell(p), Place(d, false)) == Some(Place(d, false))
  {
    hide Balanced;
    var open, close := [p.open], [p.close];
    BalancedAfter(p.inner, 0, d + 1, false);
    AfterConcat(open + p.inner, close, Place(d, false));
    AfterConcat(open, p.inner, Place(d, false));
    assert open[1..] == [] && close[1..] == [];
  }

  lemma {:induction false} ParensSkipped(es: seq<Sig>, i: nat, p: Parens, d: nat)
    requires WfParens(p) && Stands(es, i, ParensSpell(p), Place(d, false))
    ensures IsKind(es, i, LParen) && ParenEnd(es, i + 1, d) == Some(i + |ParensSpell(p)|)
  {
    hide Balanced;
    var open, close := [p.open], [p.close];
    BalancedAfter(p.inner, 0, d + 1, false);
    StandsSplit(es, i, open + p.inner, close, Place(d, false));
    StandsSplit(es, i, open, p.inner, Place(d, false));
    AfterConcat(open, p.inner, Place(d, false));
    assert open[1..] == [] && close[1..] == [];
    BalancedSkips(es, i + 1, p.inner, 0, d, false);
  }

  lemma OneAfter(x: In, d: nat)
    requires x.Token? && !x.t.kind.LParen? && !x.t.kind.RParen? && !IsDot(x.t)
    ensures After([x], Place(d, false)) == Some(Place(d, false))
  {
    assert [x][1..] == [];
  }

  lemma {:induction false} OneStands(es: seq<Sig>, i: nat, x: In, d: nat)
    requires Stands(es, i, [x], Place(d, false)) && x.Token? && !x.t.kind.RParen?
    ensures i < |es| && es[i] == Plain(x.t, x.synth, d, false)
  {
  }

  /** An optional keyword is skipped when it is there. */
  lemma {:induction false} OptReads(es: seq<Sig>, i: nat, o: Option<In>, w: string, rest: seq<In>, d: nat)
    requires OptWord(o, w) && Stands(es, i, Opt(o) + rest, Place(d, false))
    requires rest != [] && (o.None? ==> !HasWord(rest[0], w))
    ensures (if IsWord(es, i, w) then i + 1 else i) == i + |Opt(o)|
    ensures After(Opt(o), Place(d, false)) == Some(Place(d, false)) && Stands(es, i + |Opt(o)|, rest, Place(d, false))
  {
    hide Word;
    if o.Some? {
      OneAfter(o.value, d);
      StandsSplit(es, i, [o.value], rest, Place(d, false));
      OneStands(es, i, o.value, d);
    } else {
      assert Opt(o) + rest == rest;
      FirstStands(es, i, rest, d);
    }
  }

  lemma {:induction false} FirstStands(es: seq<Sig>, i: nat, els: seq<In>, d: nat)
    requires els != [] && Stands(es, i, els, Place(d, false))
    ensures i < |es|
    ensures els[0].Token? ==> es[i].Plain? && es[i].t == els[0].t && !es[i].dotted && (!els[0].t.kind.RParen? ==> es[i].depth == d)
    ensures els[0].Construct? ==> es[i].Block?
  {
  }

  /** `[NOT] [MATERIALIZED] (body)`. */
  lemma {:induction false} CteBodyReads(es: seq<Sig>, i: nat, c: Cte, d: nat)
    requires WfCte(c) && Stands(es, i, CteBodySpell(c), Place(d, false))
    ensures CteBodyEnd(es, i, d) == Some(i + |CteBodySpell(c)|)
    ensures After(CteBodySpell(c), Place(d, false)) == Some(Place(d, false))
  {
    hide WfParens, Upper, ParenEnd, After, Stands, Balanced;
    var n, m, b := Opt(c.not_), Opt(c.materialized), ParensSpell(c.body);
    assert n + m + b == n + (m + b);
    ParensHead(c.body);
    assert (m + b)[0] == if m != [] then m[0] else b[0];
    OptReads(es, i, c.not_, "NOT", m + b, d);
    OptReads(es, i + |n|, c.materialized, "MATERIALIZED", b, d);
    ParensSkipped(es, i + |n| + |m|, c.body, d);
    ParensAfter(c.body, d);
    AfterConcat(n + m, b, Place(d, false));
    AfterConcat(n, m, Place(d, false));
  }

  lemma ParensHead(p: Parens)
    requires WfParens(p)
    ensures ParensSpell(p) != [] && forall w :: !HasWord(ParensSpell(p)[0], w)
    ensures !HasKind(ParensSpell(p)[0], Comma) && HasKind(ParensSpell(p)[0], LParen)
  {
    hide Balanced;
  }

  lemma {:induction false} CteReads(es: seq<Sig>, i: nat, c: Cte, d: nat)
    requires WfCte(c) && Stands(es, i, CteSpell(c), Place(d, false))
    ensures CteEnd(es, i, d) == Some(i + |CteSpell(c)|)
    ensures After(CteSpell(c), Place(d, false)) == Some(Place(d, false))
  {
    hide WfParens, Upper, ParenEnd, After, Stands, Balanced, CteBodyEnd, CteBodySpell;
    var name, cols, as_, body := [c.name], if c.cols.Some? then ParensSpell(c.cols.value) else [], [c.as_], CteBodySpell(c);
    assert CteSpell(c) == name + (cols + (as_ + body));
    StandsSplit(es, i, name, cols + (as_ + body), Place(d, false));
    OneAfter(c.name, d);
    OneStands(es, i, c.name, d);
    StandsSplit(es, i + 1, cols, as_ + body, Place(d, false));
    if c.cols.Some? {
      ParensSkipped(es, i + 1, c.cols.value, d);
      ParensAfter(c.cols.value, d);
    } else {
      NothingAfter(Place(d, false));
    }
    var j := i + 1 + |cols|;
    StandsSplit(es, j, as_, body, Place(d, false));
    OneAfter(c.as_, d);
    OneStands(es, j, c.as_, d);
    CteBodyReads(es, j + 1, c, d);
    AfterConcat(name, cols + (as_ + body), Place(d, false));
    AfterConcat(cols, as_ + body, Place(d, false));
    AfterConcat(as_, body, Place(d, false));
  }

  lemma {:induction false} NothingAfter(p: Place)
    ensures After([], p) == Some(p)
  {
  }

  lemma {:induction false} CtesRead(es: seq<Sig>, i: nat, cs: Ctes, d: nat)
    requires WfCtes(cs) && Stands(es, i, CtesSpell(cs), Place(d, false))
    requires var end := i + |CtesSpell(cs)|; IsKind(es, end, Comma) ==> es[end].depth != d
    ensures CtesEnd(es, i, d) == Some(i + |CtesSpell(cs)|)
    ensures After(CtesSpell(cs), Place(d, false)) == Some(Place(d, false))
    decreases cs
  {
    hide WfCte, CteEnd, CteSpell, After, Stands;
    match cs
    case Last(c) => CteReads(es, i, c, d);
    case Another(c, comma, rest) =>
      var head := CteSpell(c);
      assert CtesSpell(cs) == head + ([comma] + CtesSpell(rest));
      StandsSplit(es, i, head, [comma] + CtesSpell(rest), Place(d, false));
      CteReads(es, i, c, d);
      StandsSplit(es, i + |head|, [comma], CtesSpell(rest), Place(d, false));
      OneAfter(comma, d);
      OneStands(es, i + |head|, comma, d);
      CtesRead(es, i + |head| + 1, rest, d);
      AfterConcat(head, [comma] + CtesSpell(rest), Place(d, false));
      AfterConcat([comma], CtesSpell(rest), Place(d, false));
  }

  lemma {:induction false} CtesHead(cs: Ctes)
    requires WfCtes(cs)
    ensures CtesSpell(cs) != [] && CtesSpell(cs)[0] == cs.cte.name
  {
    hide WfCte;
  }

  /** What follows a WITH clause is an operand, hence no comma. */
  lemma {:induction false} WithReads(es: seq<Sig>, i: nat, w: With, d: nat)
    requires WfWith(w) && Stands(es, i, WithSpell(w), Place(d, false))
    requires var end := i + |WithSpell(w)|; IsKind(es, end, Comma) ==> es[end].depth != d
    ensures IsWord(es, i, "WITH") && WithEnd(es, i, d) == Some(i + |WithSpell(w)|)
    ensures After(WithSpell(w), Place(d, false)) == Some(Place(d, false))
  {
    hide Upper, WfCtes, CtesEnd, CtesSpell, After, Stands;
    var kw, rec, ctes := [w.kw], Opt(w.recursive), CtesSpell(w.ctes);
    assert WithSpell(w) == kw + (rec + ctes);
    StandsSplit(es, i, kw, rec + ctes, Place(d, false));
    OneAfter(w.kw, d);
    OneStands(es, i, w.kw, d);
    CtesHead(w.ctes);
    OptReads(es, i + 1, w.recursive, "RECURSIVE", ctes, d);
    CtesRead(es, i + 1 + |rec|, w.ctes, d);
    AfterConcat(kw, rec + ctes, Place(d, false));
    AfterConcat(rec, ctes, Place(d, false));
  }

  // ---------------------------------------------------------------- cores and tails

  lemma {:induction false} QuietAfter(els: seq<In>, k: nat, dot: bool, ops: bool, d: nat)
    requires Quiet(els, k, dot, ops)
    ensures After(els, Place(d + k, dot)) == Some(Place(d, false))
    decreases |els|
  {
    hide SetWord;
    if els != [] {
      var one := Placed(els[0], Place(d + k, dot)).value;
      QuietAfter(els[1..], one.1.depth - d, one.1.dot, ops, d);
    }
  }

  lemma QuietStep(es: seq<Sig>, i: nat, els: seq<In>, k: nat, dot: bool, ops: bool, d: nat)
    requires els != [] && Quiet(els, k, dot, ops) && Stands(es, i, els, Place(d + k, dot))
    ensures i < |es| && !EndsQuery(es[i], d) && (ops ==> !SetOperator(es[i], d))
    ensures
      var one := Placed(els[0], Place(d + k, dot));
      one.Some? && one.value.1.depth >= d && Quiet(els[1..], one.value.1.depth - d, one.value.1.dot, ops) && Stands(es, i + 1, els[1..], one.value.1)
  {
    hide Upper;
  }

  /** A core runs on to what follows it. */
  lemma {:induction false} QuietCore(es: seq<Sig>, i: nat, els: seq<In>, k: nat, dot: bool, d: nat)
    requires Quiet(els, k, dot, true) && Stands(es, i, els, Place(d + k, dot))
    ensures i + |els| <= |es| && CoreEnd(es, i, d) == CoreEnd(es, i + |els|, d)
    decreases |els|
  {
    hide EndsQuery, SetOperator, Quiet, Stands, Placed;
    if els != [] {
      QuietStep(es, i, els, k, dot, true, d);
      var one := Placed(els[0], Place(d + k, dot)).value;
      QuietCore(es, i + 1, els[1..], one.1.depth - d, one.1.dot, d);
    } else {
      StandsInside(es, i, els, Place(d + k, dot));
    }
  }

  lemma {:induction false} QuietTail(es: seq<Sig>, i: nat, els: seq<In>, k: nat, dot: bool, d: nat)
    requires Quiet(els, k, dot, false) && Stands(es, i, els, Place(d + k, dot))
    ensures i + |els| <= |es| && TailEnd(es, i, d) == TailEnd(es, i + |els|, d)
    decreases |els|
  {
    hide EndsQuery, SetOperator, Quiet, Stands, Placed;
    if els != [] {
      QuietStep(es, i, els, k, dot, false, d);
      var one := Placed(els[0], Place(d + k, dot)).value;
      QuietTail(es, i + 1, els[1..], one.1.depth - d, one.1.dot, d);
    } else {
      StandsInside(es, i, els, Place(d + k, dot));
    }
  }

  // ---------------------------------------------------------------- the whole grammar

  /** The statement or the enclosing parenthesis ends here. */
  predicate Over(es: seq<Sig>, i: nat, d: nat) { i <= |es| && (i < |es| ==> EndsQuery(es[i], d)) }

  /** Behind an operand: the end, a set operator, or, if the operand is in parentheses, a
      tail that does not start with a set operator. */
  predicate Behind(es: seq<Sig>, i: nat, o: Operand, d: nat) { i <= |es| && (i < |es| && o.Leaf? ==> EndsCore(es[i], d)) }

  lemma {:induction false} OperandAfter(o: Operand, d: nat)
    requires WfOperand(o)
    ensures After(OperandSpell(o), Place(d, false)) == Some(Place(d, false))
    decreases o
  {
    match o
    case Leaf(core) => QuietAfter(core, 0, false, true, d);
    case Nested(open, q, close) =>
      QueryAfter(q, d + 1);
      hide Spell, WfQuery;
      assert [open][1..] == [] && [close][1..] == [];
      AfterConcat([open] + Spell(q), [close], Place(d, false));
      AfterConcat([open], Spell(q), Place(d, false));
  }

  lemma {:induction false} MoreAfter(m: More, d: nat)
    requires WfMore(m)
    ensures After(MoreSpell(m), Place(d, false)) == Some(Place(d, false))
    decreases m
  {
    match m
    case Done =>
    case Then(op, quant, operand, more) =>
      OperandAfter(operand, d);
      MoreAfter(more, d);
      OneAfter(op, d);
      if quant.Some? { OneAfter(quant.value, d); } else { NothingAfter(Place(d, false)); }
      hide After, OperandSpell, MoreSpell, WfOperand, WfMore;
      AfterConcat([op] + Opt(quant), OperandSpell(operand) + MoreSpell(more), Place(d, false));
      AfterConcat([op], Opt(quant), Place(d, false));
      AfterConcat(OperandSpell(operand), MoreSpell(more), Place(d, false));
      MoreUnfolds(op, quant, operand, more);
  }

  lemma {:induction false} MoreUnfolds(op: In, quant: Option<In>, operand: Operand, more: More)
    ensures MoreSpell(Then(op, quant, operand, more)) == [op] + Opt(quant) + (OperandSpell(operand) + MoreSpell(more))
  {
  }

  lemma {:induction false} QueryAfter(q: Query, d: nat)
    requires WfQuery(q)
    ensures After(Spell(q), Place(d, false)) == Some(Place(d, false))
    decreases q
  {
    OperandAfter(q.first, d);
    MoreAfter(q.more, d);
    QuietAfter(q.tail, 0, false, false, d);
    var w := if q.with.Some? then WithSpell(q.with.value) else [];
    if q.with.Some? { WithAfter(q.with.value, d); } else { NothingAfter(Place(d, false)); }
    hide After, OperandSpell, MoreSpell, WfOperand, WfMore, WithSpell, Quiet;
    AfterConcat(w, OperandSpell(q.first) + (MoreSpell(q.more) + q.tail), Place(d, false));
    AfterConcat(OperandSpell(q.first), MoreSpell(q.more) + q.tail, Place(d, false));
    AfterConcat(MoreSpell(q.more), q.tail, Place(d, false));
  }

  lemma WithAfter(w: With, d: nat)
    requires WfWith(w)
    ensures After(WithSpell(w), Place(d, false)) == Some(Place(d, false))
  {
    hide After, Upper;
    OneAfter(w.kw, d);
    if w.recursive.Some? { OneAfter(w.recursive.value, d); } else { NothingAfter(Place(d, false)); }
    CtesAfter(w.ctes, d);
    AfterConcat([w.kw] + Opt(w.recursive), CtesSpell(w.ctes), Place(d, false));
    AfterConcat([w.kw], Opt(w.recursive), Place(d, false));
  }

  lemma {:induction false} CtesAfter(cs: Ctes, d: nat)
    requires WfCtes(cs)
    ensures After(CtesSpell(cs), Place(d, false)) == Some(Place(d, false))
  {
    hide After, WfCte, CteSpell;
    CteAfter(cs.cte, d);
    match cs
    case Last(_) =>
    case Another(c, comma, rest) =>
      OneAfter(comma, d);
      CtesAfter(rest, d);
      AfterConcat(CteSpell(c) + [comma], CtesSpell(rest), Place(d, false));
      AfterConcat(CteSpell(c), [comma], Place(d, false));
  }

  lemma CteAfter(c: Cte, d: nat)
    requires WfCte(c)
    ensures After(CteSpell(c), Place(d, false)) == Some(Place(d, false))
  {
    hide After, Upper, WfParens;
    var p := Place(d, false);
    var cols := if c.cols.Some? then ParensSpell(c.cols.value) else [];
    NothingAfter(p);
    OneAfter(c.name, d);
    OneAfter(c.as_, d);
    if c.cols.Some? { ParensAfter(c.cols.value, d); }
    if c.not_.Some? { OneAfter(c.not_.value, d); }
    if c.materialized.Some? { OneAfter(c.materialized.value, d); }
    ParensAfter(c.body, d);
    AfterConcat([c.name] + cols + [c.as_], CteBodySpell(c), p);
    AfterConcat([c.name] + cols, [c.as_], p);
    AfterConcat([c.name], cols, p);
    AfterConcat(Opt(c.not_) + Opt(c.materialized), ParensSpell(c.body), p);
    AfterConcat(Opt(c.not_), Opt(c.materialized), p);
  }

  // ---------------------------------------------------------------- exactness

  lemma {:induction false} LeafReads(es: seq<Sig>, i: nat, core: seq<In>, d: nat)
    requires WfCore(core) && Stands(es, i, core, Place(d, false)) && Behind(es, i + |core|, Leaf(core), d)
    ensures i < |es| && OperandFrom(es, i, d) == Some(Seen(i + |core|, [(i, i + |core|)]))
  {
    hide EndsCore, Upper;
    FirstStands(es, i, core, d);
    QuietCore(es, i, core, 0, false, d);
  }

  lemma {:induction false} NestedReads(es: seq<Sig>, i: nat, end: nat, cores: seq<(nat, nat)>, d: nat)
    requires i < |es| && IsKind(es, i, LParen) && es[i].depth == d && IsKind(es, end, RParen) && es[end].depth == d
    requires QueryFrom(es, i + 1, d + 1) == Some(Seen(end, cores))
    ensures OperandFrom(es, i, d) == Some(Seen(end + 1, cores))
  {
    hide QueryFrom, CoreEnd;
  }

  lemma {:induction false} OperandReads(es: seq<Sig>, i: nat, o: Operand, d: nat)
    requires WfOperand(o) && Stands(es, i, OperandSpell(o), Place(d, false)) && Behind(es, i + |OperandSpell(o)|, o, d)
    ensures i < |es| && OperandFrom(es, i, d) == Some(Seen(i + |OperandSpell(o)|, OperandExtents(o, i)))
    decreases o
  {
    hide OperandFrom, QueryFrom, Spell, Stands, WfQuery, WfCore, EndsQuery, Extents;
    match o
    case Leaf(core) =>
      LeafReads(es, i, core, d);
    case Nested(open, q, close) =>
      NestedStands(es, i, open, q, close, d);
      QueryReads(es, i + 1, q, d + 1);
      NestedReads(es, i, i + 1 + |Spell(q)|, Extents(q, i + 1), d);
  }

  lemma NestedStands(es: seq<Sig>, i: nat, open: In, q: Query, close: In, d: nat)
    requires HasKind(open, LParen) && WfQuery(q) && HasKind(close, RParen) && Stands(es, i, [open] + Spell(q) + [close], Place(d, false))
    ensures
      var end := i + 1 + |Spell(q)|;
      end < |es| && IsKind(es, i, LParen) && es[i].depth == d &&
      Stands(es, i + 1, Spell(q), Place(d + 1, false)) && IsKind(es, end, RParen) && es[end].depth == d && Over(es, end, d + 1)
  {
    hide Spell, WfQuery;
    QueryAfter(q, d + 1);
    StandsSplit(es, i, [open] + Spell(q), [close], Place(d, false));
    StandsSplit(es, i, [open], Spell(q), Place(d, false));
    AfterConcat([open], Spell(q), Place(d, false));
    assert [open][1..] == [];
  }

  /** What a set operator or a tail finds in front of it. */
  lemma {:induction false} MoreBehind(es: seq<Sig>, i: nat, o: Operand, m: More, tail: seq<In>, d: nat)
    requires WfMore(m) && Stands(es, i, MoreSpell(m) + tail, Place(d, false)) && Over(es, i + |MoreSpell(m)| + |tail|, d)
    requires tail != [] ==> LastNested(o, m)
    ensures Behind(es, i, o, d)
  {
    hide Upper, EndsQuery;
    StandsInside(es, i, MoreSpell(m) + tail, Place(d, false));
    match m
    case Done => assert MoreSpell(m) + tail == tail;
    case Then(op, quant, operand, more) =>
      MoreUnfolds(op, quant, operand, more);
      hide OperandSpell, MoreSpell, WfOperand, WfMore;
      assert (MoreSpell(m) + tail)[0] == op;
      FirstStands(es, i, MoreSpell(m) + tail, d);
  }

  lemma {:induction false} MoreReads(es: seq<Sig>, i: nat, m: More, tail: seq<In>, d: nat)
    requires WfMore(m) && Stands(es, i, MoreSpell(m) + tail, Place(d, false)) && Over(es, i + |MoreSpell(m)| + |tail|, d)
    requires (tail != [] ==> !SetWord(tail[0])) && (m.Then? && tail != [] ==> LastNested(m.operand, m.more))
    ensures MoreFrom(es, i, d) == Some(Seen(i + |MoreSpell(m)|, MoreExtents(m, i)))
    decreases m
  {
    hide *;
    if m.Then? {
      var j := i + 1 + |Opt(m.quant)|;
      var k := j + |OperandSpell(m.operand)|;
      MorePlaces(es, i, m, tail, d);
      LastMoves(m, tail);
      MoreBehind(es, k, m.operand, m.more, tail, d);
      OperandReads(es, j, m.operand, d);
      MoreReads(es, k, m.more, tail, d);
      MoreMoves(es, i, j, d, []);
      MoreExtended(m, i);
      assert [] + OperandExtents(m.operand, j) == OperandExtents(m.operand, j);
      NothingBefore(MoreFrom(es, i, d).value.cores);
    } else {
      DoneReads(es, i, m, tail, d);
    }
  }

  lemma LastMoves(m: More, tail: seq<In>)
    requires m.Then? && (tail != [] ==> LastNested(m.operand, m.more))
    ensures m.more.Then? && tail != [] ==> LastNested(m.more.operand, m.more.more)
  {
  }

  lemma NothingBefore(cores: seq<(nat, nat)>)
    ensures [] + cores == cores
  {
  }

  lemma {:induction false} DoneReads(es: seq<Sig>, i: nat, m: More, tail: seq<In>, d: nat)
    requires m.Done? && Stands(es, i, MoreSpell(m) + tail, Place(d, false)) && Over(es, i + |MoreSpell(m)| + |tail|, d) && (tail != [] ==> !SetWord(tail[0]))
    ensures i <= |es| && MoreFrom(es, i, d) == Some(Seen(i + |MoreSpell(m)|, MoreExtents(m, i)))
  {
    hide SetOperator, EndsQuery, Stands;
    assert MoreSpell(m) + tail == tail;
    StandsInside(es, i, tail, Place(d, false));
    NoOperator(es, i, tail, d);
  }

  /** The parts of a further operand where they stand. */
  lemma MorePlaces(es: seq<Sig>, i: nat, m: More, tail: seq<In>, d: nat)
    requires m.Then? && WfMore(m) && Stands(es, i, MoreSpell(m) + tail, Place(d, false))
    ensures WfOperand(m.operand) && WfMore(m.more)
    ensures
      var j := i + 1 + |Opt(m.quant)|;
      var k := j + |OperandSpell(m.operand)|;
      i < |es| && k <= |es| && SetOperator(es[i], d) &&
      (if IsWord(es, i + 1, "ALL") || IsWord(es, i + 1, "DISTINCT") then i + 2 else i + 1) == j &&
      Stands(es, j, OperandSpell(m.operand), Place(d, false)) && Stands(es, k, MoreSpell(m.more) + tail, Place(d, false)) &&
      i + |MoreSpell(m)| == k + |MoreSpell(m.more)|
  {
    hide *;
    MoreParts(m);
    var o, r := OperandSpell(m.operand), MoreSpell(m.more);
    var head := [m.op] + Opt(m.quant);
    assert MoreSpell(m) + tail == head + (o + (r + tail));
    OperatorReads(es, i, m.op, m.quant, o + (r + tail), m.operand, d);
    OperandThen(es, i + |head|, m.operand, r + tail, d);
  }

  lemma {:induction false} OperandThen(es: seq<Sig>, j: nat, o: Operand, rest: seq<In>, d: nat)
    requires WfOperand(o) && Stands(es, j, OperandSpell(o) + rest, Place(d, false))
    ensures Stands(es, j, OperandSpell(o), Place(d, false)) && Stands(es, j + |OperandSpell(o)|, rest, Place(d, false))
    ensures j + |OperandSpell(o)| <= |es|
  {
    hide *;
    StandsSplit(es, j, OperandSpell(o), rest, Place(d, false));
    OperandAfter(o, d);
    StandsInside(es, j, OperandSpell(o), Place(d, false));
  }

  lemma MoreExtended(m: More, i: nat)
    requires m.Then?
    ensures
      var j := i + 1 + |Opt(m.quant)|;
      MoreExtents(m, i) == [] + (OperandExtents(m.operand, j) + MoreExtents(m.more, j + |OperandSpell(m.operand)|))
  {
    hide OperandExtents, OperandSpell;
    var j := i + 1 + |Opt(m.quant)|;
    assert MoreExtents(m, i) == OperandExtents(m.operand, j) + MoreExtents(m.more, j + |OperandSpell(m.operand)|);
  }

  lemma {:induction false} MoreParts(m: More)
    requires m.Then? && WfMore(m)
    ensures MoreSpell(m) == [m.op] + Opt(m.quant) + (OperandSpell(m.operand) + MoreSpell(m.more))
    ensures SetWord(m.op) && (m.quant.Some? ==> HasWord(m.quant.value, "ALL") || HasWord(m.quant.value, "DISTINCT"))
    ensures WfOperand(m.operand) && WfMore(m.more)
  {
    hide Upper;
  }

  lemma {:induction false} NoOperator(es: seq<Sig>, i: nat, tail: seq<In>, d: nat)
    requires Stands(es, i, tail, Place(d, false)) && Over(es, i + |tail|, d) && (tail != [] ==> !SetWord(tail[0]))
    ensures i < |es| ==> !SetOperator(es[i], d)
  {
    hide Upper;
    if tail != [] {
      FirstStands(es, i, tail, d);
    }
  }

  lemma {:induction false} OperatorReads(es: seq<Sig>, i: nat, op: In, quant: Option<In>, rest: seq<In>, operand: Operand, d: nat)
    requires SetWord(op) && (quant.Some? ==> HasWord(quant.value, "ALL") || HasWord(quant.value, "DISTINCT"))
    requires WfOperand(operand) && OperandSpell(operand) <= rest
    requires Stands(es, i, [op] + Opt(quant) + rest, Place(d, false))
    ensures i < |es| && SetOperator(es[i], d) && Stands(es, i + 1 + |Opt(quant)|, rest, Place(d, false))
    ensures (if IsWord(es, i + 1, "ALL") || IsWord(es, i + 1, "DISTINCT") then i + 2 else i + 1) == i + 1 + |Opt(quant)|
  {
    OperandHead(operand);
    assert rest[0] == OperandSpell(operand)[0];
    hide Upper, OperandSpell, WfOperand;
    assert [op] + Opt(quant) + rest == [op] + (Opt(quant) + rest);
    StandsSplit(es, i, [op], Opt(quant) + rest, Place(d, false));
    OneAfter(op, d);
    OneStands(es, i, op, d);
    hide Stands, After;
    QuantReads(es, i + 1, quant, rest, d);
  }

  lemma {:induction false} QuantReads(es: seq<Sig>, i: nat, quant: Option<In>, rest: seq<In>, d: nat)
    requires quant.Some? ==> HasWord(quant.value, "ALL") || HasWord(quant.value, "DISTINCT")
    requires rest != [] && !HasWord(rest[0], "ALL") && !HasWord(rest[0], "DISTINCT") && Stands(es, i, Opt(quant) + rest, Place(d, false))
    ensures (if IsWord(es, i, "ALL") || IsWord(es, i, "DISTINCT") then i + 1 else i) == i + |Opt(quant)|
    ensures Stands(es, i + |Opt(quant)|, rest, Place(d, false))
  {
    hide Upper;
    if quant.Some? {
      StandsSplit(es, i, [quant.value], rest, Place(d, false));
      OneAfter(quant.value, d);
      OneStands(es, i, quant.value, d);
    } else {
      assert Opt(quant) + rest == rest;
      FirstStands(es, i, rest, d);
    }
  }

  lemma {:induction false} OperandHead(o: Operand)
    requires WfOperand(o)
    ensures
      var s := OperandSpell(o);
      s != [] && s[0].Token? && !HasKind(s[0], Comma) && !HasWord(s[0], "WITH") && !HasWord(s[0], "ALL") && !HasWord(s[0], "DISTINCT")
  {
    hide Upper, Quiet, WfQuery;
  }

  lemma {:induction false} QueryReads(es: seq<Sig>, i: nat, q: Query, d: nat)
    requires WfQuery(q) && Stands(es, i, Spell(q), Place(d, false)) && Over(es, i + |Spell(q)|, d)
    ensures QueryFrom(es, i, d) == Some(Seen(i + |Spell(q)|, Extents(q, i)))
    decreases q
  {
    hide *;
    var o, m := OperandSpell(q.first), MoreSpell(q.more);
    QueryParts(es, i, q, d);
    var j := i + if q.with.Some? then |WithSpell(q.with.value)| else 0;
    var k := j + |o|;
    WithSeen(es, i, q, d);
    MoreBehind(es, k, q.first, q.more, q.tail, d);
    OperandReads(es, j, q.first, d);
    MoreReads(es, k, q.more, q.tail, d);
    QuietTail(es, k + |m|, q.tail, 0, false, d);
    TailOver(es, k + |m| + |q.tail|, d);
    QueryUnfolds(es, i, j, d);
    QueryExtended(q, i);
  }

  lemma {:induction false} TailOver(es: seq<Sig>, i: nat, d: nat)
    requires Over(es, i, d)
    ensures i <= |es| && TailEnd(es, i, d) == i
  {
    hide EndsQuery;
  }

  lemma {:induction false} QueryExtended(q: Query, i: nat)
    ensures
      var j := i + if q.with.Some? then |WithSpell(q.with.value)| else 0;
      Extents(q, i) == OperandExtents(q.first, j) + MoreExtents(q.more, j + |OperandSpell(q.first)|)
  {
    hide OperandExtents, MoreExtents, OperandSpell, WithSpell;
  }

  /** The parts of a query where they stand. */
  lemma {:induction false} QueryParts(es: seq<Sig>, i: nat, q: Query, d: nat)
    requires WfQuery(q) && Stands(es, i, Spell(q), Place(d, false))
    ensures WfOperand(q.first) && WfMore(q.more) && Quiet(q.tail, 0, false, false) && (q.with.Some? ==> WfWith(q.with.value))
    ensures (q.tail != [] ==> !SetWord(q.tail[0]) && LastNested(q.first, q.more)) && (q.more.Then? && q.tail != [] ==> LastNested(q.more.operand, q.more.more))
    ensures
      var w := if q.with.Some? then WithSpell(q.with.value) else [];
      var o, m := OperandSpell(q.first), MoreSpell(q.more);
      |Spell(q)| == |w| + |o| + |m| + |q.tail| &&
      Stands(es, i, w, Place(d, false)) && Stands(es, i + |w|, o, Place(d, false)) &&
      Stands(es, i + |w| + |o|, m + q.tail, Place(d, false)) && Stands(es, i + |w| + |o|, m, Place(d, false)) &&
      Stands(es, i + |w| + |o| + |m|, q.tail, Place(d, false))
  {
    hide Stands, After, Quiet, WfWith, WithSpell, Upper, WfOperand, WfMore, OperandSpell, MoreSpell, SetWord;
    var p := Place(d, false);
    var w, o, m := if q.with.Some? then WithSpell(q.with.value) else [], OperandSpell(q.first), MoreSpell(q.more);
    assert Spell(q) == w + (o + (m + q.tail));
    StandsSplit(es, i, w, o + (m + q.tail), p);
    if q.with.Some? { WithAfter(q.with.value, d); } else { NothingAfter(p); }
    StandsSplit(es, i + |w|, o, m + q.tail, p);
    OperandAfter(q.first, d);
    StandsSplit(es, i + |w| + |o|, m, q.tail, p);
    MoreAfter(q.more, d);
  }

  lemma {:induction false} WithSeen(es: seq<Sig>, i: nat, q: Query, d: nat)
    requires q.with.Some? ==> WfWith(q.with.value)
    requires WfOperand(q.first) && Stands(es, i, if q.with.Some? then WithSpell(q.with.value) else [], Place(d, false))
    requires Stands(es, i + (if q.with.Some? then |WithSpell(q.with.value)| else 0), OperandSpell(q.first), Place(d, false))
    ensures
      (if IsWord(es, i, "WITH") then WithEnd(es, i, d) else Some(i)) ==
      Some(i + if q.with.Some? then |WithSpell(q.with.value)| else 0)
  {
    hide WithSpell, WithEnd, OperandSpell, Upper, WfWith;
    OperandHead(q.first);
    hide WfOperand;
    FirstStands(es, i + (if q.with.Some? then |WithSpell(q.with.value)| else 0), OperandSpell(q.first), d);
    hide Stands;
    if q.with.Some? {
      WithReads(es, i, q.with.value, d);
    }
  }

  /** Exactness. A statement of the grammar, with its terminating semicolons, is split into
      its leaf queries, in document order, wherever parentheses put them: the extents are
      those of the leaves, and the leaves stand there. */
  lemma {:induction false} SplitExact(q: Query, semis: seq<In>)
    requires WfQuery(q) && forall x <- semis :: HasKind(x, Semicolon)
    ensures
      var f := Flatten(Spell(q) + semis, Place(0, false));
      f.Some? && f.value.1.depth == 0 && Cores(f.value.0) == Some(Extents(q, 0)) && LeavesStand(f.value.0, Extents(q, 0), Leaves(q))
  {
    hide Spell, WfQuery, Stands, After, Flatten, Extents, Leaves, LeavesStand, QueryFrom;
    var p := Place(0, false);
    QueryAfter(q, 0);
    SemisAfter(semis);
    AfterConcat(Spell(q), semis, p);
    FlatStands(Spell(q) + semis, p, []);
    var es := Flatten(Spell(q) + semis, p).value.0;
    assert [] + es == es;
    StandsSplit(es, 0, Spell(q), semis, p);
    SemisStand(es, |Spell(q)|, semis);
    QueryReads(es, 0, q, 0);
    QueryLeaves(es, 0, q, 0);
  }

  lemma {:induction false} SemisAfter(semis: seq<In>)
    requires forall x <- semis :: HasKind(x, Semicolon)
    ensures After(semis, Place(0, false)) == Some(Place(0, false))
    decreases |semis|
  {
    if semis != [] {
      assert semis[0] in semis;
      SemisAfter(semis[1..]);
    }
  }

  lemma {:induction false} SemisStand(es: seq<Sig>, i: nat, semis: seq<In>)
    requires (forall x <- semis :: HasKind(x, Semicolon)) && Stands(es, i, semis, Place(0, false)) && i + |semis| == |es|
    ensures i <= |es| && OnlySemicolons(es, i) && Over(es, i, 0)
    decreases |semis|
  {
    if semis != [] {
      assert semis[0] in semis;
      SemisStand(es, i + 1, semis[1..]);
    }
  }

  /** Each leaf stands at its extent, at the depth of its first token. */
  ghost predicate LeavesStand(es: seq<Sig>, cores: seq<(nat, nat)>, leaves: seq<seq<In>>) {
    |cores| == |leaves| &&
    forall k :: 0 <= k < |cores| ==> LeafStands(es, cores[k], leaves[k])
  }

  ghost predicate LeafStands(es: seq<Sig>, c: (nat, nat), leaf: seq<In>) {
    WfCore(leaf) && c.1 == c.0 + |leaf| && c.0 < |es| && Stands(es, c.0, leaf, Place(es[c.0].depth, false))
  }

  lemma LeavesBoth(es: seq<Sig>, a: seq<(nat, nat)>, b: seq<(nat, nat)>, la: seq<seq<In>>, lb: seq<seq<In>>)
    requires LeavesStand(es, a, la) && LeavesStand(es, b, lb)
    ensures LeavesStand(es, a + b, la + lb)
  {
    hide LeafStands;
  }

  lemma {:induction false} OperandLeavesStand(es: seq<Sig>, i: nat, o: Operand, d: nat)
    requires WfOperand(o) && Stands(es, i, OperandSpell(o), Place(d, false))
    ensures LeavesStand(es, OperandExtents(o, i), OperandLeaves(o))
    decreases o
  {
    match o
    case Leaf(core) =>
      hide WfCore, Stands;
      LeafAt(es, i, core, d);
    case Nested(open, q, close) =>
      NestedStands(es, i, open, q, close, d);
      QueryLeaves(es, i + 1, q, d + 1);
      hide Spell, LeavesStand;
  }

  lemma {:induction false} LeafAt(es: seq<Sig>, i: nat, core: seq<In>, d: nat)
    requires WfCore(core) && Stands(es, i, core, Place(d, false))
    ensures LeafStands(es, (i, i + |core|), core)
  {
    hide Upper;
    FirstStands(es, i, core, d);
  }

  lemma {:induction false} MoreLeavesStand(es: seq<Sig>, i: nat, m: More, d: nat)
    requires WfMore(m) && Stands(es, i, MoreSpell(m), Place(d, false))
    ensures LeavesStand(es, MoreExtents(m, i), MoreLeaves(m))
    decreases m
  {
    hide OperandSpell, MoreSpell, WfOperand, WfMore, Stands, IsWord, SetOperator, LeavesStand, OperandExtents, OperandLeaves;
    if m.Then? {
      var j := i + 1 + |Opt(m.quant)|;
      var k := j + |OperandSpell(m.operand)|;
      assert MoreSpell(m) + [] == MoreSpell(m) && MoreSpell(m.more) + [] == MoreSpell(m.more);
      MorePlaces(es, i, m, [], d);
      OperandLeavesStand(es, j, m.operand, d);
      MoreLeavesStand(es, k, m.more, d);
      LeavesBoth(es, OperandExtents(m.operand, j), MoreExtents(m.more, k), OperandLeaves(m.operand), MoreLeaves(m.more));
    } else {
      NoLeaves(es);
    }
  }

  lemma NoLeaves(es: seq<Sig>)
    ensures LeavesStand(es, [], [])
  {
  }

  lemma {:induction false} QueryLeaves(es: seq<Sig>, i: nat, q: Query, d: nat)
    requires WfQuery(q) && Stands(es, i, Spell(q), Place(d, false))
    ensures LeavesStand(es, Extents(q, i), Leaves(q))
    decreases q
  {
    hide Stands, Quiet, WfWith, WithSpell, Upper, WfOperand, WfMore, OperandSpell, MoreSpell, Placed, LeavesStand, WfQuery, Spell;
    QueryParts(es, i, q, d);
    var j := i + if q.with.Some? then |WithSpell(q.with.value)| else 0;
    var k := j + |OperandSpell(q.first)|;
    OperandLeavesStand(es, j, q.first, d);
    MoreLeavesStand(es, k, q.more, d);
    LeavesBoth(es, OperandExtents(q.first, j), MoreExtents(q.more, k), OperandLeaves(q.first), MoreLeaves(q.more));
  }

  // ---------------------------------------------------------------- the WHERE of a core

  function ElemOf(el: In): Elem {
    match el
    case Token(t, _) => Tk(t)
    case Construct(id, boundary, _, end) => Hole(id, boundary, end)
  }

  function ElemsOf(els: seq<In>): seq<Elem> { seq(|els|, i requires 0 <= i < |els| => ElemOf(els[i])) }

  /** The reading of a core next to the reading of the same elements as a statement. */
  predicate Tracks(st: CoreState, r: Reader) {
    if r.done then r.ex.Some? && st.ex.None? && st.where == Concluded(r.ex.value) && st.whereKwEnd >= 0
    else st.ex == r.ex && if r.ex.Some? then st.whereKwEnd >= 0 else st.where == NOT_FOUND && st.whereKwEnd < 0
  }

  /** A parenthesis reads the same at either depth. */
  lemma ParenStep(md: Mode, st: Scan, t: Tok, dotted: bool)
    requires t.kind.LParen?
    ensures StepScan(md, st, t, true, dotted) == StepScan(md, st, t, false, dotted)
  {
    hide Append, AfterOperand, Upper;
  }

  lemma TokenTracks(md: Mode, st: CoreState, r: Reader, el: In, e: Sig, d: nat)
    requires Tracks(st, r) && el.Token? && e.Plain? && e.t == el.t
    requires !r.done ==> e.dotted == r.prevDot && !(DepthAfter(r.depth, el.t) == 0 && el.t.kind.Semicolon?)
    requires !r.done ==> (e.depth == d <==> DepthAfter(r.depth, el.t) == 0 || (el.t.kind.LParen? && r.depth == 0))
    ensures Tracks(StepCore(md, st, e, d), if r.done then r else ReadElem(md, r, Tk(el.t)))
  {
    hide StepScan, Upper, Concluded;
    if !r.done && r.ex.Some? && el.t.kind.LParen? {
      ParenStep(md, r.ex.value, el.t, e.dotted);
    }
  }

  lemma BlockTracks(md: Mode, st: CoreState, r: Reader, el: In, e: Sig, d: nat)
    requires Tracks(st, r) && el.Construct? && e.Block? && e.boundary == el.boundary && e.end == el.end
    ensures Tracks(StepCore(md, st, e, d), if r.done then r else ReadElem(md, r, ElemOf(el)))
  {
    hide HoleScan, Concluded;
  }

  lemma {:induction false} RunTracks(md: Mode, es: seq<Sig>, i: nat, els: seq<In>, st: CoreState, r: Reader, k: nat, dot: bool, d: nat)
    requires Tracks(st, r) && Quiet(els, k, dot, true) && Stands(es, i, els, Place(d + k, dot))
    requires !r.done ==> r.depth == k && r.prevDot == dot
    ensures i + |els| <= |es| && Tracks(RunCore(md, st, es, i, i + |els|, d), Read(md, r, ElemsOf(els)))
    decreases |els|
  {
    hide StepCore, ReadElem, Tracks, SetWord;
    StandsInside(es, i, els, Place(d + k, dot));
    if els != [] {
      var one := Placed(els[0], Place(d + k, dot)).value;
      var r' := if r.done then r else ReadElem(md, r, ElemOf(els[0]));
      if els[0].Token? {
        TokenTracks(md, st, r, els[0], es[i], d);
      } else {
        BlockTracks(md, st, r, els[0], es[i], d);
      }
      ReadPlace(md, r, els[0]);
      assert ElemsOf(els)[0] == ElemOf(els[0]) && ElemsOf(els)[1..] == ElemsOf(els[1..]);
      RunTracks(md, es, i + 1, els[1..], StepCore(md, st, es[i], d), r', one.1.depth - d, one.1.dot, d);
    }
  }

  lemma ReadPlace(md: Mode, r: Reader, el: In)
    ensures
      var r' := ReadElem(md, r, ElemOf(el));
      !r'.done ==>
        (el.Token? ==> r'.depth == DepthAfter(r.depth, el.t) && r'.prevDot == IsDot(el.t)) &&
        (el.Construct? ==> r'.depth == r.depth && !r'.prevDot)
  {
    hide StepScan, HoleScan, Upper;
  }

  /** Each branch's WHERE is what `whereClause` reads of that leaf on its own, so that
      everything known of the one scan holds of every branch. */
  lemma {:induction false} BranchWhere(md: Mode, es: seq<Sig>, c: (nat, nat), leaf: seq<In>)
    requires LeafStands(es, c, leaf)
    ensures
      c.1 <= |es| &&
      var b := BranchOf(md, es, c.0, c.1, es[c.0].depth);
      b.where == WhereScan(md, ElemsOf(leaf)) && (b.whereKwEnd >= 0 <==> Read(md, START, ElemsOf(leaf)).ex.Some?)
  {
    hide RunCore, Read, Stands, Quiet, Concluded;
    RunTracks(md, es, c.0, leaf, CORE, START, 0, false, es[c.0].depth);
  }

  /** The branch shows the leaf's first word and the WHERE of the leaf on its own. */
  ghost predicate Shows(md: Mode, b: Branch, leaf: seq<In>) {
    WfCore(leaf) && b.where == WhereScan(md, ElemsOf(leaf)) && b.leadKw == Word(leaf[0].t)
  }

  /** The branches of a statement of the grammar: one per leaf, in order, each with the
      leaf's first word and the leaf's own WHERE. */
  lemma {:induction false} BranchesExact(md: Mode, q: Query, semis: seq<In>, es: seq<Sig>, bs: seq<Branch>, m: map<nat, nat>)
    requires WfQuery(q) && forall x <- semis :: HasKind(x, Semicolon)
    requires Flatten(Spell(q) + semis, Place(0, false)).Some? && Flatten(Spell(q) + semis, Place(0, false)).value.0 == es
    requires Cores(es).Some? && Recorded(md, es, Cores(es).value, [], map[], bs, m)
    ensures |bs| == |Leaves(q)|
    ensures forall k :: 0 <= k < |bs| ==> Shows(md, bs[k], Leaves(q)[k])
  {
    hide *;
    SplitExact(q, semis);
    var cores := Cores(es).value;
    RecordedParts(md, es, cores, bs, m);
    BranchesCount(md, es, cores);
    LeavesCount(es, cores, Leaves(q));
    forall k | 0 <= k < |bs| ensures Shows(md, bs[k], Leaves(q)[k]) {
      BranchShows(md, es, cores[k], Leaves(q)[k]);
    }
  }

  lemma LeavesCount(es: seq<Sig>, cores: seq<(nat, nat)>, leaves: seq<seq<In>>)
    requires LeavesStand(es, cores, leaves)
    ensures |cores| == |leaves| && forall k :: 0 <= k < |cores| ==> LeafStands(es, cores[k], leaves[k])
  {
    hide LeafStands;
  }

  lemma BranchShows(md: Mode, es: seq<Sig>, c: (nat, nat), leaf: seq<In>)
    requires LeafStands(es, c, leaf)
    ensures c.0 <= c.1 <= |es| && c.0 < |es| && Shows(md, BranchOf(md, es, c.0, c.1, es[c.0].depth), leaf)
  {
    hide BranchOf, WfCore, WhereScan, Upper, Stands;
    BranchWhere(md, es, c, leaf);
    BranchLead(md, es, c, leaf);
  }

  lemma BranchLead(md: Mode, es: seq<Sig>, c: (nat, nat), leaf: seq<In>)
    requires LeafStands(es, c, leaf)
    ensures WfCore(leaf) && c.1 <= |es| && BranchOf(md, es, c.0, c.1, es[c.0].depth).leadKw == Word(leaf[0].t)
  {
    hide RunCore, Quiet, Upper;
    StandsInside(es, c.0, leaf, Place(es[c.0].depth, false));
    FirstStands(es, c.0, leaf, es[c.0].depth);
  }

  // ---------------------------------------------------------------- where a core takes its conjuncts

  lemma {:induction false} RunConcat(md: Mode, st: CoreState, es: seq<Sig>, lo: nat, mid: nat, hi: nat, d: nat)
    requires lo <= mid <= hi <= |es|
    ensures RunCore(md, st, es, lo, hi, d) == RunCore(md, RunCore(md, st, es, lo, mid, d), es, mid, hi, d)
    decreases mid - lo
  {
    hide StepCore;
    if lo < mid {
      RunConcat(md, StepCore(md, st, es[lo], d), es, lo + 1, mid, hi, d);
    }
  }

  lemma StepKeepsSlot(md: Mode, st: CoreState, e: Sig, d: nat)
    requires st.whereKwEnd >= 0
    ensures StepCore(md, st, e, d).whereKwEnd == st.whereKwEnd
  {
    hide StepScan, HoleScan, Concluded, Upper;
  }

  lemma {:induction false} RunKeepsSlot(md: Mode, st: CoreState, es: seq<Sig>, lo: nat, hi: nat, d: nat)
    requires lo <= hi <= |es| && st.whereKwEnd >= 0
    ensures RunCore(md, st, es, lo, hi, d).whereKwEnd == st.whereKwEnd
    decreases hi - lo
  {
    hide StepCore;
    if lo < hi {
      StepKeepsSlot(md, st, es[lo], d);
      RunKeepsSlot(md, StepCore(md, st, es[lo], d), es, lo + 1, hi, d);
    }
  }

  lemma {:induction false} QuietFront(a: seq<In>, b: seq<In>, k: nat, dot: bool)
    requires Quiet(a + b, k, dot, true) && Before(ElemsOf(a), k, dot)
    ensures Quiet(a, k, dot, true) && Quiet(b, 0, false, true)
    decreases |a|
  {
    hide SetWord, Upper;
    if a == [] {
      assert a + b == b;
    } else {
      assert (a + b)[0] == a[0] && (a + b)[1..] == a[1..] + b;
      assert ElemsOf(a)[0] == ElemOf(a[0]) && ElemsOf(a)[1..] == ElemsOf(a[1..]);
      if a[0].Token? {
        QuietFront(a[1..], b, DepthAfter(k, a[0].t), IsDot(a[0].t));
      } else {
        QuietFront(a[1..], b, k, false);
      }
    }
  }

  /** A core's conjuncts go behind its own first top-level WHERE. */
  lemma BranchSlot(md: Mode, es: seq<Sig>, c: (nat, nat), pre: seq<In>, where: In, rest: seq<In>)
    requires LeafStands(es, c, pre + [where] + rest) && Before(ElemsOf(pre), 0, false) && HasWord(where, "WHERE")
    ensures c.1 <= |es| && BranchOf(md, es, c.0, c.1, es[c.0].depth).whereKwEnd == EndOf(where.t)
  {
    hide Upper, Before, RunCore, Read, Stands, Quiet;
    var d, p := es[c.0].depth, Place(es[c.0].depth, false);
    var leaf := pre + [where] + rest;
    assert leaf == pre + ([where] + rest);
    StandsInside(es, c.0, leaf, p);
    StandsSplit(es, c.0, pre, [where] + rest, p);
    LeafQuiet(leaf);
    QuietFront(pre, [where] + rest, 0, false);
    QuietAfter(pre, 0, false, true, d);
    RunTracks(md, es, c.0, pre, CORE, START, 0, false, d);
    BeforeRead(md, ElemsOf(pre), 0, false);
    var i := c.0 + |pre|;
    StandsSplit(es, i, [where], rest, p);
    OneStands(es, i, where, d);
    var st := RunCore(md, CORE, es, c.0, i, d);
    WhereStep(md, st, es[i], d);
    RunConcat(md, CORE, es, c.0, i, c.1, d);
    RunConcat(md, st, es, i, i + 1, c.1, d);
    RunOne(md, st, es, i, d);
    RunKeepsSlot(md, StepCore(md, st, es[i], d), es, i + 1, c.1, d);
  }

  lemma {:induction false} LeafQuiet(leaf: seq<In>)
    requires WfCore(leaf)
    ensures Quiet(leaf, 0, false, true)
  {
    hide Quiet, Upper;
  }

  lemma WhereStep(md: Mode, st: CoreState, e: Sig, d: nat)
    requires st.ex.None? && st.whereKwEnd < 0 && e.Plain? && e.t.kind.Ident? && e.depth == d && !e.dotted && Word(e.t) == "WHERE"
    ensures StepCore(md, st, e, d).whereKwEnd == EndOf(e.t)
  {
    hide Upper;
  }

  lemma {:induction false} RunOne(md: Mode, st: CoreState, es: seq<Sig>, i: nat, d: nat)
    requires i < |es|
    ensures RunCore(md, st, es, i, i + 1, d) == StepCore(md, st, es[i], d)
  {
    hide StepCore;
  }
}
