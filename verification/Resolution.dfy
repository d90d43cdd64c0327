/**
 Name resolution against optional joins (internal/rules/resolved.go): whether every
 reference binds to the same relation, and every star expands to the same relations, in
 all shapes. The checks read the maximal rendering only.
 */
module Resolution {
  import opened Core
  import opened Templates

  /** A construct's extent in the maximal rendering; only `@if-present` fragments have
      guards. */
  datatype Extent = Extent(start: int, end: int, guards: Option<seq<Atom>>)

  /** A relation of the outermost FROM; `columns` when the catalog knows its table. */
  datatype Relation = Relation(alias: string, table: string, loc: int, columns: Option<seq<string>>)

  datatype ColRef = ColRef(fields: seq<string>, star: bool, loc: int, inSubquery: bool, scope: seq<string>)

  datatype Target = Target(name: string, star: bool, qualifier: string, loc: int)

  datatype Statement = Statement(
    rels: seq<Relation>, refs: seq<ColRef>, targets: seq<Target>, orderBy: set<int>, extents: seq<Extent>, fold: string -> string)

  /** SQLETCH114, SQLETCH115 and SQLETCH117, each with the reference or target it is about. */
  datatype Diag = AmbiguousRef(ref: nat) | ScopeViolation(ref: nat) | StarExpansion(target: nat)

  // ---------------------------------------------------------------- guards

  /** `guardsAt`: those of the first extent that covers the offset. */
  function GuardsAt(extents: seq<Extent>, loc: int): seq<Atom> {
    if loc < 0 || extents == [] then []
    else if extents[0].start <= loc < extents[0].end then
      if extents[0].guards.Some? then extents[0].guards.value else []
    else GuardsAt(extents[1..], loc)
  }

  method FragAt(extents: seq<Extent>, loc: int) returns (guards: seq<Atom>)
    ensures guards == GuardsAt(extents, loc)
  {
    if loc < 0 { return []; }
    for i := 0 to |extents|
      invariant GuardsAt(extents[i..], loc) == GuardsAt(extents, loc)
    {
      assert extents[i..][1..] == extents[i + 1..];
      if extents[i].start <= loc < extents[i].end {
        return if extents[i].guards.Some? then extents[i].guards.value else [];
      }
    }
    return [];
  }

  function RelGuards(q: Statement, i: nat): seq<Atom>
    requires i < |q.rels|
  {
    GuardsAt(q.extents, q.rels[i].loc)
  }

  function RefGuards(q: Statement, k: nat): seq<Atom>
    requires k < |q.refs|
  {
    GuardsAt(q.extents, q.refs[k].loc)
  }

  /** `supersetAtoms`. */
  predicate Covers(super: seq<Atom>, sub: seq<Atom>) { forall g <- sub :: g in super }

  // ---------------------------------------------------------------- names

  function NameOf(r: Relation): string { if r.alias != "" then r.alias else r.table }

  predicate Named(q: Statement, i: nat, folded: string)
    requires i < |q.rels|
  {
    NameOf(q.rels[i]) != "" && q.fold(NameOf(q.rels[i])) == folded
  }

  predicate HasColumn(q: Statement, i: nat, folded: string)
    requires i < |q.rels|
  {
    q.rels[i].columns.Some? && exists c <- q.rels[i].columns.value :: q.fold(c) == folded
  }

  /** `byName`: a map built front to back keeps the last relation of a name. */
  function ByName(q: Statement, n: nat, folded: string): (r: Option<nat>)
    requires n <= |q.rels|
    ensures r.Some? ==> r.value < n && Named(q, r.value, folded)
    ensures r.None? ==> forall i :: 0 <= i < n ==> !Named(q, i, folded)
  {
    if n == 0 then None
    else if Named(q, n - 1, folded) then Some(n - 1)
    else ByName(q, n - 1, folded)
  }

  method IndexNames(q: Statement) returns (byName: map<string, nat>)
    ensures forall s :: (if s in byName then Some(byName[s]) else None) == ByName(q, |q.rels|, s)
  {
    byName := map[];
    for i := 0 to |q.rels|
      invariant forall s :: (if s in byName then Some(byName[s]) else None) == ByName(q, i, s)
    {
      var n := NameOf(q.rels[i]);
      if n != "" {
        byName := byName[q.fold(n) := i];
      }
    }
  }

  /** `columnCandidates`. */
  function Candidates(q: Statement, n: nat, folded: string): (cs: seq<nat>)
    requires n <= |q.rels|
    ensures forall i: nat :: i in cs <==> i < n && HasColumn(q, i, folded)
    ensures forall i, j :: 0 <= i < j < |cs| ==> cs[i] < cs[j]
  {
    if n == 0 then []
    else
      var before := Candidates(q, n - 1, folded);
      assert forall i :: 0 <= i < |before| ==> before[i] in before;
      before + (if HasColumn(q, n - 1, folded) then [n - 1] else [])
  }

  method ColumnCandidates(q: Statement, folded: string) returns (cs: seq<nat>)
    ensures cs == Candidates(q, |q.rels|, folded)
  {
    cs := [];
    for i := 0 to |q.rels|
      invariant cs == Candidates(q, i, folded)
    {
      if q.rels[i].columns.Some? {
        var cols := q.rels[i].columns.value;
        var j := 0;
        while j < |cols| && q.fold(cols[j]) != folded
          invariant 0 <= j <= |cols| && forall c <- cols[..j] :: q.fold(c) != folded
        {
          assert cols[..j + 1] == cols[..j] + [cols[j]];
          j := j + 1;
        }
        assert j == |cols| ==> cols[..j] == cols;
        if j < |cols| {
          assert cols[j] in cols;
          cs := cs + [i];
        }
      }
    }
  }

  // ---------------------------------------------------------------- which references are checked

  function Last(fields: seq<string>): string
    requires fields != []
  {
    fields[|fields| - 1]
  }

  predicate Qualified(r: ColRef) { |r.fields| >= 2 }

  function Qualifier(q: Statement, r: ColRef): string
    requires Qualified(r)
  {
    q.fold(r.fields[|r.fields| - 2])
  }

  /** A nearer subquery scope introduces the qualifier. */
  predicate Shadowed(q: Statement, r: ColRef)
    requires Qualified(r)
  {
    |r.fields| == 2 && exists s <- r.scope :: q.fold(s) == Qualifier(q, r)
  }

  /** A bare name in ORDER BY that is an output name binds to the output. */
  predicate IsOutput(q: Statement, r: ColRef)
    requires |r.fields| == 1
  {
    r.loc >= 0 && r.loc in q.orderBy && exists t <- q.targets :: t.name != "" && q.fold(t.name) == q.fold(r.fields[0])
  }

  /** References to the outermost FROM. */
  predicate Outer(q: Statement, r: ColRef) {
    !r.star && r.fields != [] &&
    if Qualified(r) then !Shadowed(q, r) else !r.inSubquery && !IsOutput(q, r)
  }

  // ---------------------------------------------------------------- the checks

  /** The relation a checked reference resolves to in the maximal rendering. */
  function Resolved(q: Statement, r: ColRef): (rel: Option<nat>)
    requires Outer(q, r)
    ensures rel.Some? ==> rel.value < |q.rels|
  {
    if Qualified(r) then ByName(q, |q.rels|, Qualifier(q, r))
    else
      var cs := Candidates(q, |q.rels|, q.fold(r.fields[0]));
      if |cs| == 1 then
        assert cs[0] in cs;
        Some(cs[0])
      else None
  }

  predicate Ambiguous(q: Statement, r: ColRef) {
    Outer(q, r) && !Qualified(r) && |Candidates(q, |q.rels|, q.fold(r.fields[0]))| > 1
  }

  predicate Violates(q: Statement, k: nat)
    requires k < |q.refs|
  {
    Outer(q, q.refs[k]) &&
    var rel := Resolved(q, q.refs[k]);
    rel.Some? && !Covers(RefGuards(q, k), RelGuards(q, rel.value))
  }

  predicate Expands(q: Statement, t: Target) {
    t.star &&
    if t.qualifier == "" then exists i :: 0 <= i < |q.rels| && RelGuards(q, i) != []
    else
      var rel := ByName(q, |q.rels|, q.fold(t.qualifier));
      rel.Some? && RelGuards(q, rel.value) != []
  }

  /** One reference's turn in the loop. */
  method CheckRef(q: Statement, byName: map<string, nat>, k: nat) returns (found: seq<Diag>)
    requires k < |q.refs| && forall s :: (if s in byName then Some(byName[s]) else None) == ByName(q, |q.rels|, s)
    ensures found == (if Ambiguous(q, q.refs[k]) then [AmbiguousRef(k)] else if Violates(q, k) then [ScopeViolation(k)] else [])
  {
    hide GuardsAt;
    var r := q.refs[k];
    if r.star || r.fields == [] { return []; }
    var rel: Option<nat>;
    if |r.fields| >= 2 {
      var qualifier := q.fold(r.fields[|r.fields| - 2]);
      if |r.fields| == 2 && exists s <- r.scope :: q.fold(s) == qualifier { return []; }
      rel := if qualifier in byName then Some(byName[qualifier]) else None;
    } else {
      if r.inSubquery { return []; }
      var name := q.fold(r.fields[0]);
      if r.loc >= 0 && r.loc in q.orderBy && exists t <- q.targets :: t.name != "" && q.fold(t.name) == name { return []; }
      var cs := ColumnCandidates(q, name);
      if |cs| == 0 { return []; }
      if |cs| > 1 { return [AmbiguousRef(k)]; }
      rel := Some(cs[0]);
      assert cs[0] in cs;
    }
    if rel.None? { return []; }
    var relGuards := FragAt(q.extents, q.rels[rel.value].loc);
    if relGuards == [] { return []; }
    var refGuards := FragAt(q.extents, r.loc);
    if !(forall g <- relGuards :: g in refGuards) { return [ScopeViolation(k)]; }
    return [];
  }

  method CheckStar(q: Statement, byName: map<string, nat>, k: nat) returns (found: seq<Diag>)
    requires k < |q.targets| && forall s :: (if s in byName then Some(byName[s]) else None) == ByName(q, |q.rels|, s)
    ensures found == if Expands(q, q.targets[k]) then [StarExpansion(k)] else []
  {
    hide GuardsAt;
    var t := q.targets[k];
    if !t.star { return []; }
    if t.qualifier == "" {
      for i := 0 to |q.rels|
        invariant forall j :: 0 <= j < i ==> RelGuards(q, j) == []
      {
        var guards := FragAt(q.extents, q.rels[i].loc);
        if guards != [] {
          assert RelGuards(q, i) != [];
          return [StarExpansion(k)];
        }
      }
      return [];
    }
    var folded := q.fold(t.qualifier);
    if folded !in byName { return []; }
    assert ByName(q, |q.rels|, folded) == Some(byName[folded]);
    var guards := FragAt(q.extents, q.rels[byName[folded]].loc);
    return if guards != [] then [StarExpansion(k)] else [];
  }

  /** `CheckResolved`, as far as it decides what binds to what. */
  method CheckResolved(q: Statement) returns (diags: seq<Diag>)
    ensures forall k: nat :: AmbiguousRef(k) in diags <==> k < |q.refs| && Ambiguous(q, q.refs[k])
    ensures forall k: nat :: ScopeViolation(k) in diags <==> k < |q.refs| && Violates(q, k)
    ensures forall k: nat :: StarExpansion(k) in diags <==> k < |q.targets| && Expands(q, q.targets[k])
  {
    hide Ambiguous, Violates, Expands, ByName;
    var byName := IndexNames(q);
    diags := [];
    for i := 0 to |q.refs|
      invariant forall k: nat :: AmbiguousRef(k) in diags <==> k < i && Ambiguous(q, q.refs[k])
      invariant forall k: nat :: ScopeViolation(k) in diags <==> k < i && Violates(q, k)
      invariant forall k: nat :: StarExpansion(k) !in diags
    {
      var found := CheckRef(q, byName, i);
      NotBoth(q, i);
      diags := diags + found;
    }
    for i := 0 to |q.targets|
      invariant forall k: nat :: AmbiguousRef(k) in diags <==> k < |q.refs| && Ambiguous(q, q.refs[k])
      invariant forall k: nat :: ScopeViolation(k) in diags <==> k < |q.refs| && Violates(q, k)
      invariant forall k: nat :: StarExpansion(k) in diags <==> k < i && Expands(q, q.targets[k])
    {
      var found := CheckStar(q, byName, i);
      diags := diags + found;
    }
  }

  lemma NotBoth(q: Statement, k: nat)
    requires k < |q.refs|
    ensures !(Ambiguous(q, q.refs[k]) && Violates(q, k))
  {
    hide GuardsAt;
  }

  // ---------------------------------------------------------------- shapes

  /** A guard set is on when all its atoms are. */
  predicate On(guards: seq<Atom>, on: set<Atom>) { forall g <- guards :: g in on }

  /** The atoms every guard of which is on: the maximal shape. */
  function Of(guards: seq<Atom>): set<Atom> { set g | g in guards }

  predicate RelOn(q: Statement, i: nat, on: set<Atom>)
    requires i < |q.rels|
  {
    On(RelGuards(q, i), on)
  }

  predicate RefOn(q: Statement, k: nat, on: set<Atom>)
    requires k < |q.refs|
  {
    On(RefGuards(q, k), on)
  }

  /** What the database may bind the reference to in a shape: the relations of that shape
      with the qualifier's name, or with the column. It accepts exactly one. */
  function Bound(q: Statement, r: ColRef, on: set<Atom>): set<nat>
    requires Outer(q, r)
  {
    if Qualified(r) then set i | 0 <= i < |q.rels| && RelOn(q, i, on) && Named(q, i, Qualifier(q, r))
    else set i | 0 <= i < |q.rels| && RelOn(q, i, on) && HasColumn(q, i, q.fold(r.fields[0]))
  }

  /** The atoms of all fragments. */
  function AllAtoms(extents: seq<Extent>): set<Atom> {
    if extents == [] then {}
    else (if extents[0].guards.Some? then Of(extents[0].guards.value) else {}) + AllAtoms(extents[1..])
  }

  lemma {:induction false} AtomsCover(extents: seq<Extent>, loc: int)
    ensures On(GuardsAt(extents, loc), AllAtoms(extents))
  {
    if extents != [] {
      AtomsCover(extents[1..], loc);
    }
  }

  /** The one relation the reference binds to in every shape that has the reference. */
  ghost predicate Steady(q: Statement, k: nat, rel: nat)
    requires k < |q.refs| && Outer(q, q.refs[k])
  {
    forall on: set<Atom> :: RefOn(q, k, on) ==> Bound(q, q.refs[k], on) == {rel}
  }

  /** The frontend accepts the maximal rendering only if names of relations are distinct. */
  predicate NamesDistinct(q: Statement) {
    forall i, j :: 0 <= i < j < |q.rels| && NameOf(q.rels[i]) != "" && NameOf(q.rels[j]) != "" ==>
      q.fold(NameOf(q.rels[i])) != q.fold(NameOf(q.rels[j]))
  }

  /** In the maximal shape the candidates are those the checks look at. */
  lemma {:induction false} BoundInAll(q: Statement, r: ColRef)
    requires Outer(q, r)
    ensures
      var all := Bound(q, r, AllAtoms(q.extents));
      if Qualified(r) then
        (ByName(q, |q.rels|, Qualifier(q, r)).None? <==> all == {}) &&
        (NamesDistinct(q) && Resolved(q, r).Some? ==> all == {Resolved(q, r).value})
      else forall i: nat :: i in all <==> i in Candidates(q, |q.rels|, q.fold(r.fields[0]))
  {
    hide GuardsAt, AllAtoms;
    forall i | 0 <= i < |q.rels| ensures RelOn(q, i, AllAtoms(q.extents)) {
      AtomsCover(q.extents, q.rels[i].loc);
    }
    if Qualified(r) {
      var b := ByName(q, |q.rels|, Qualifier(q, r));
      if b.Some? {
        assert b.value in Bound(q, r, AllAtoms(q.extents));
      }
    }
  }

  lemma BoundShrinks(q: Statement, r: ColRef, on: set<Atom>)
    requires Outer(q, r)
    ensures Bound(q, r, on) <= Bound(q, r, AllAtoms(q.extents))
  {
    hide GuardsAt, AllAtoms;
    forall i | 0 <= i < |q.rels| ensures RelOn(q, i, AllAtoms(q.extents)) {
      AtomsCover(q.extents, q.rels[i].loc);
    }
  }

  /** A reference whose fragment carries the relation's guards never loses the relation; any
      other loses it in the shape with just its own guards on. */
  lemma CoveredIsKept(q: Statement, k: nat, rel: nat)
    requires k < |q.refs| && rel < |q.rels|
    ensures Covers(RefGuards(q, k), RelGuards(q, rel)) <==> forall on: set<Atom> :: RefOn(q, k, on) ==> RelOn(q, rel, on)
  {
    hide GuardsAt;
    if forall on: set<Atom> :: RefOn(q, k, on) ==> RelOn(q, rel, on) {
      assert RefOn(q, k, Of(RefGuards(q, k)));
      assert RelOn(q, rel, Of(RefGuards(q, k)));
    }
  }

  /** Shape-independent resolution, exactly. A reference that something in the maximal
      rendering answers to binds to one and the same relation in every shape if and only if
      neither an ambiguity nor a scope violation is reported for it; and that relation is
      the one it binds to in the maximal rendering. */
  lemma ResolutionSteady(q: Statement, k: nat)
    requires NamesDistinct(q) && k < |q.refs| && Outer(q, q.refs[k])
    requires Bound(q, q.refs[k], AllAtoms(q.extents)) != {}
    ensures (!Ambiguous(q, q.refs[k]) && !Violates(q, k)) <==> exists rel: nat :: Steady(q, k, rel)
    ensures !Ambiguous(q, q.refs[k]) && !Violates(q, k) ==>
      Resolved(q, q.refs[k]).Some? && Steady(q, k, Resolved(q, q.refs[k]).value)
  {
    hide GuardsAt, AllAtoms, Bound, ByName, Candidates, NamesDistinct;
    var r := q.refs[k];
    BoundInAll(q, r);
    AtomsCover(q.extents, r.loc);
    if Resolved(q, r).Some? {
      var rel := Resolved(q, r).value;
      ResolvedInRange(q, r);
      SteadyIfKept(q, k, rel);
    } else {
      AmbiguousUnsteady(q, k);
    }
  }

  lemma ResolvedInRange(q: Statement, r: ColRef)
    requires NamesDistinct(q) && Outer(q, r) && Resolved(q, r).Some?
    ensures Resolved(q, r).value < |q.rels| && Bound(q, r, AllAtoms(q.extents)) == {Resolved(q, r).value} && !Ambiguous(q, r)
  {
    hide GuardsAt, AllAtoms, Bound, NamesDistinct;
    BoundInAll(q, r);
    if !Qualified(r) {
      var cs := Candidates(q, |q.rels|, q.fold(r.fields[0]));
      assert cs == [cs[0]] && cs[0] in cs;
    }
  }

  lemma SteadyIfKept(q: Statement, k: nat, rel: nat)
    requires k < |q.refs| && Outer(q, q.refs[k]) && rel < |q.rels| && Bound(q, q.refs[k], AllAtoms(q.extents)) == {rel}
    ensures Covers(RefGuards(q, k), RelGuards(q, rel)) <==> Steady(q, k, rel)
    ensures forall x: nat :: Steady(q, k, x) ==> x == rel
  {
    hide GuardsAt, AllAtoms;
    var r := q.refs[k];
    CoveredIsKept(q, k, rel);
    AtomsCover(q.extents, r.loc);
    forall on: set<Atom> | RefOn(q, k, on)
      ensures Bound(q, r, on) == {rel} <==> RelOn(q, rel, on)
    {
      BoundShrinks(q, r, on);
      BoundOn(q, r, rel, on);
    }
    forall x: nat | Steady(q, k, x) ensures x == rel {
      assert Bound(q, r, AllAtoms(q.extents)) == {x};
      assert x in {rel};
    }
  }

  lemma BoundOn(q: Statement, r: ColRef, rel: nat, on: set<Atom>)
    requires Outer(q, r) && rel in Bound(q, r, AllAtoms(q.extents))
    ensures rel in Bound(q, r, on) <==> RelOn(q, rel, on)
  {
    hide GuardsAt, AllAtoms;
  }

  lemma AmbiguousUnsteady(q: Statement, k: nat)
    requires NamesDistinct(q) && k < |q.refs| && Outer(q, q.refs[k]) && Resolved(q, q.refs[k]).None?
    requires Bound(q, q.refs[k], AllAtoms(q.extents)) != {}
    ensures Ambiguous(q, q.refs[k]) && forall rel: nat :: !Steady(q, k, rel)
  {
    hide GuardsAt, AllAtoms, Bound, ByName, NamesDistinct;
    var r := q.refs[k];
    BoundInAll(q, r);
    AtomsCover(q.extents, r.loc);
    assert !Qualified(r);
    var cs := Candidates(q, |q.rels|, q.fold(r.fields[0]));
    var x :| x in Bound(q, r, AllAtoms(q.extents));
    assert x in cs && |cs| != 0;
    assert cs[0] in cs && cs[1] in cs;
    forall rel: nat ensures !Steady(q, k, rel) {
      assert RefOn(q, k, AllAtoms(q.extents));
      assert cs[0] in Bound(q, r, AllAtoms(q.extents)) && cs[1] in Bound(q, r, AllAtoms(q.extents));
    }
  }

  // ---------------------------------------------------------------- stars

  /** The relations a star takes its columns from in a shape. */
  function Expansion(q: Statement, t: Target, on: set<Atom>): set<nat> {
    if t.qualifier == "" then set i | 0 <= i < |q.rels| && RelOn(q, i, on)
    else set i | 0 <= i < |q.rels| && RelOn(q, i, on) && Named(q, i, q.fold(t.qualifier))
  }

  /** A star expands to the same relations in every shape if and only if it is not
      reported. */
  lemma StarSteady(q: Statement, t: Target)
    requires NamesDistinct(q) && t.star
    ensures !Expands(q, t) <==> forall on: set<Atom> :: Expansion(q, t, on) == Expansion(q, t, AllAtoms(q.extents))
  {
    hide GuardsAt, AllAtoms;
    forall i | 0 <= i < |q.rels| ensures RelOn(q, i, AllAtoms(q.extents)) {
      AtomsCover(q.extents, q.rels[i].loc);
    }
    if Expands(q, t) {
      var i := Guarded(q, t);
      assert i in Expansion(q, t, AllAtoms(q.extents));
      assert RelGuards(q, i)[0] in RelGuards(q, i);
      assert !RelOn(q, i, {});
      assert i !in Expansion(q, t, {});
    } else {
      forall on: set<Atom>, i | i in Expansion(q, t, AllAtoms(q.extents)) ensures i in Expansion(q, t, on) {
        NotGuarded(q, t, i);
      }
      forall on: set<Atom> ensures Expansion(q, t, on) == Expansion(q, t, AllAtoms(q.extents)) {
        assert Expansion(q, t, on) <= Expansion(q, t, AllAtoms(q.extents));
        assert Expansion(q, t, AllAtoms(q.extents)) <= Expansion(q, t, on);
      }
    }
  }

  lemma Guarded(q: Statement, t: Target) returns (i: nat)
    requires Expands(q, t)
    ensures i < |q.rels| && RelGuards(q, i) != [] && (t.qualifier != "" ==> Named(q, i, q.fold(t.qualifier)))
  {
    hide GuardsAt;
    if t.qualifier == "" {
      i :| 0 <= i < |q.rels| && RelGuards(q, i) != [];
    } else {
      i := ByName(q, |q.rels|, q.fold(t.qualifier)).value;
    }
  }

  lemma NotGuarded(q: Statement, t: Target, i: nat)
    requires NamesDistinct(q) && t.star && !Expands(q, t) && i < |q.rels|
    requires t.qualifier != "" ==> Named(q, i, q.fold(t.qualifier))
    ensures RelGuards(q, i) == []
  {
    hide GuardsAt;
    if t.qualifier != "" {
      var b := ByName(q, |q.rels|, q.fold(t.qualifier));
      assert b == Some(i);
    }
  }
}
