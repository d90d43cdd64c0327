/** Lowering of a scanned template to the runtime fragment table
    (internal/codegen/frags.go). */
module Lowering {
  import opened Core
  import opened Masks
  import opened FilterTree
  import opened Composing
  import opened Lexing
  import opened Templates

  // ---------------------------------------------------------------- parameter tokens

  /** Spans and indices of the known `:name` tokens from `pos`; a lexing failure ends
      the list silently. */
  function SpansFrom(next: Lexer, src: string, index: map<string, int>, pos: nat): (r: (seq<Span>, seq<int>))
    requires WellBehaved(next) && pos <= |src|
    ensures |r.0| == |r.1|
    decreases |src| - pos
  {
    assert StepOk(src, pos, next(src, pos));
    var t := next(src, pos);
    if !t.Token? then ([], [])
    else
      var (spans, idx) := SpansFrom(next, src, index, t.end);
      var name := src[t.start + 1..t.end];
      if t.kind.ParamRef? && name in index then ([Span(t.start, t.end)] + spans, [index[name]] + idx)
      else (spans, idx)
  }

  method ParamSpans(next: Lexer, src: string, index: map<string, int>) returns (spans: seq<Span>, idx: seq<int>)
    requires WellBehaved(next)
    ensures (spans, idx) == SpansFrom(next, src, index, 0)
  {
    spans, idx := [], [];
    var pos: nat := 0;
    assert [] + SpansFrom(next, src, index, 0).0 == SpansFrom(next, src, index, 0).0;
    assert [] + SpansFrom(next, src, index, 0).1 == SpansFrom(next, src, index, 0).1;
    while true
      invariant pos <= |src|
      invariant SpansFrom(next, src, index, 0) == (spans + SpansFrom(next, src, index, pos).0, idx + SpansFrom(next, src, index, pos).1)
      decreases |src| - pos
    {
      assert StepOk(src, pos, next(src, pos));
      var t := next(src, pos);
      if !t.Token? {
        assert spans + [] == spans && idx + [] == idx;
        return;
      }
      if t.kind.ParamRef? && src[t.start + 1..t.end] in index {
        ghost var rest := SpansFrom(next, src, index, t.end);
        assert spans + ([Span(t.start, t.end)] + rest.0) == (spans + [Span(t.start, t.end)]) + rest.0;
        assert idx + ([index[src[t.start + 1..t.end]]] + rest.1) == (idx + [index[src[t.start + 1..t.end]]]) + rest.1;
        spans := spans + [Span(t.start, t.end)];
        idx := idx + [index[src[t.start + 1..t.end]]];
      }
      pos := t.end;
    }
  }

  // ---------------------------------------------------------------- index tables

  /** Positions by name; a repeated name keeps its last position. */
  function IndexMap(names: seq<string>): map<string, int> {
    if names == [] then map[]
    else IndexMap(names[..|names| - 1])[names[|names| - 1] := ToInt16(|names| - 1)]
  }

  method BuildIndex(names: seq<string>) returns (index: map<string, int>)
    ensures index == IndexMap(names)
  {
    index := map[];
    for i := 0 to |names|
      invariant index == IndexMap(names[..i])
    {
      assert names[..i + 1][..i] == names[..i];
      index := index[names[i] := ToInt16(i)];
    }
    assert names[..|names|] == names;
  }

  /** The mask of a guard set; an atom the table does not know counts as bit 0. */
  function GuardMask(atoms: seq<Atom>, guards: seq<Atom>): bv64 {
    if guards == [] then 0
    else
      var g := guards[|guards| - 1];
      WithBit(GuardMask(atoms, guards[..|guards| - 1]), if BitOf(atoms, g).Some? then BitOf(atoms, g).value else 0)
  }

  method BuildMask(atoms: seq<Atom>, guards: seq<Atom>) returns (mask: bv64)
    ensures mask == GuardMask(atoms, guards)
  {
    hide WithBit;
    mask := 0;
    for i := 0 to |guards|
      invariant mask == GuardMask(atoms, guards[..i])
    {
      assert guards[..i + 1][..i] == guards[..i];
      var bit := BitOf(atoms, guards[i]);
      mask := WithBit(mask, if bit.Some? then bit.value else 0);
    }
    assert guards[..|guards|] == guards;
  }

  // ---------------------------------------------------------------- items

  function LowerText(next: Lexer, text: string, index: map<string, int>): Case
    requires WellBehaved(next)
  {
    var (spans, idx) := SpansFrom(next, text, index, 0);
    Case(text, spans, idx)
  }

  function LowerBodies(next: Lexer, bodies: seq<Body>, index: map<string, int>): (cs: seq<Case>)
    requires WellBehaved(next)
    ensures |cs| == |bodies| && forall i :: 0 <= i < |bodies| ==> cs[i] == LowerText(next, bodies[i].text, index)
  {
    seq(|bodies|, i requires 0 <= i < |bodies| => LowerText(next, bodies[i].text, index))
  }

  function LowerPreds(next: Lexer, preds: seq<Predicate>): (cs: seq<Case>)
    requires WellBehaved(next)
    ensures |cs| == |preds| && forall i :: 0 <= i < |preds| ==> cs[i] == LowerText(next, preds[i].body.text, IndexMap(preds[i].params))
  {
    seq(|preds|, i requires 0 <= i < |preds| => LowerText(next, preds[i].body.text, IndexMap(preds[i].params)))
  }

  /** The index a Go map lookup gives: zero when the name is missing. */
  function Lookup(index: map<string, int>, name: string): int { if name in index then index[name] else 0 }

  function LowerItem(p: Profile, q: Template, index: map<string, int>, it: Item): Frag
    requires WellBehaved(p.next)
  {
    match it
    case Skeleton(body, _) => Skel(LowerText(p.next, body.text, index))
    case IfPresent(guards, sep, body, _) => Guarded(LowerText(p.next, body.text, index), GuardMask(q.atoms, guards), sep)
    case ChooseItem(cases, deflt, _) => Choose(LowerBodies(p.next, cases + (if deflt.Some? then [deflt.value] else []), index))
    case InExpr(param, _) =>
      if p.style.Question? then InList(Lookup(index, param), p.inEmpty) else InAny(Lookup(index, param))
    case TreeItem(preds, _) => TreeFrag(LowerPreds(p.next, preds))
    case OrderItem(keys, deflt, _) =>
      OrderBy(LowerBodies(p.next, keys, index),
              if deflt.Some? && deflt.value.text != "" then Some(LowerText(p.next, deflt.value.text, index)) else None)
  }

  function Lower(p: Profile, q: Template, items: seq<Item>): (fs: seq<Frag>)
    requires WellBehaved(p.next)
    ensures |fs| == |items| && forall i :: 0 <= i < |items| ==> fs[i] == LowerItem(p, q, IndexMap(q.paramOrder), items[i])
  {
    seq(|items|, i requires 0 <= i < |items| => LowerItem(p, q, IndexMap(q.paramOrder), items[i]))
  }

  method LowerBodiesLoop(next: Lexer, bodies: seq<Body>, index: map<string, int>) returns (cs: seq<Case>)
    requires WellBehaved(next)
    ensures cs == LowerBodies(next, bodies, index)
  {
    cs := [];
    for i := 0 to |bodies|
      invariant |cs| == i && forall j :: 0 <= j < i ==> cs[j] == LowerText(next, bodies[j].text, index)
    {
      var spans, idx := ParamSpans(next, bodies[i].text, index);
      cs := cs + [Case(bodies[i].text, spans, idx)];
    }
  }

  method LowerPredsLoop(next: Lexer, preds: seq<Predicate>) returns (cs: seq<Case>)
    requires WellBehaved(next)
    ensures cs == LowerPreds(next, preds)
  {
    cs := [];
    for i := 0 to |preds|
      invariant |cs| == i && forall j :: 0 <= j < i ==> cs[j] == LowerText(next, preds[j].body.text, IndexMap(preds[j].params))
    {
      var local := BuildIndex(preds[i].params);
      var spans, idx := ParamSpans(next, preds[i].body.text, local);
      cs := cs + [Case(preds[i].body.text, spans, idx)];
    }
  }

  /** `BuildFrags`. */
  method BuildFrags(p: Profile, q: Template) returns (frags: seq<Frag>)
    requires WellBehaved(p.next)
    ensures frags == Lower(p, q, q.items)
  {
    hide SpansFrom, GuardMask;
    var index := BuildIndex(q.paramOrder);
    frags := [];
    for i := 0 to |q.items|
      invariant |frags| == i && forall j :: 0 <= j < i ==> frags[j] == LowerItem(p, q, index, q.items[j])
    {
      var frag;
      match q.items[i] {
        case Skeleton(body, _) =>
          var spans, idx := ParamSpans(p.next, body.text, index);
          frag := Skel(Case(body.text, spans, idx));
        case IfPresent(guards, sep, body, _) =>
          var mask := BuildMask(q.atoms, guards);
          var spans, idx := ParamSpans(p.next, body.text, index);
          frag := Guarded(Case(body.text, spans, idx), mask, sep);
        case ChooseItem(cases, deflt, _) =>
          var cs := LowerBodiesLoop(p.next, cases + (if deflt.Some? then [deflt.value] else []), index);
          frag := Choose(cs);
        case InExpr(param, _) =>
          frag := if p.style.Question? then InList(Lookup(index, param), p.inEmpty) else InAny(Lookup(index, param));
        case TreeItem(preds, _) =>
          var cs := LowerPredsLoop(p.next, preds);
          frag := TreeFrag(cs);
        case OrderItem(keys, deflt, _) =>
          var cs := LowerBodiesLoop(p.next, keys, index);
          var d := None;
          if deflt.Some? && deflt.value.text != "" {
            var spans, idx := ParamSpans(p.next, deflt.value.text, index);
            d := Some(Case(deflt.value.text, spans, idx));
          }
          frag := OrderBy(cs, d);
      }
      frags := frags + [frag];
    }
  }
}
