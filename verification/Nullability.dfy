/**
 Which base tables a statement exposes, and under which hazards
 (internal/nullability/nullability.go): the plain recursive walk through derived tables
 and CTE definitions, and why it ends.
 */
module Nullability {
  import opened Core

  // ---------------------------------------------------------------- statements

  datatype RelRef = RelRef(schema: string, name: string, only: bool)

  /** What a statement's FROM list holds: a named relation or a derived table. `nullable`
      is the side of an outer join that may be null-extended; `guarded` marks relations of
      optional joins. */
  datatype Source = Source(leaf: Leaf, nullable: bool, guarded: bool)

  datatype Leaf = Named(ref: RelRef) | Derived(body: Stmt)

  /** One query level. `hazard` stands for a set operation, grouping sets or a scalar
      subquery in the projection; `deep` lists every table mentioned at any depth. The
      number is the parse node's identity. */
  datatype Stmt = Stmt(id: nat, defs: seq<Def>, sources: seq<Source>, hazard: bool, deep: seq<RelRef>)

  /** A WITH definition: a query, or a data-modifying statement and the tables it reads. */
  datatype Def = Def(name: string, body: Body, recursive: bool)

  datatype Body = Query(q: Stmt) | Modifies(tables: seq<RelRef>)

  datatype Table = Table(oid: nat, hasChildren: bool)

  /** `LookupQualified`. */
  type Catalog = (string, string) -> Option<Table>

  // ---------------------------------------------------------------- environments

  /** A definition with the environment its own body sees, fixed where it was written. */
  datatype Binding = Binding(def: Def, env: seq<Binding>)

  type Env = seq<Binding>

  /** The binding a name has: the last one made. */
  function Lookup(env: Env, name: string): (b: Option<Binding>)
    ensures b.Some? ==> b.value in env && b.value.def.name == name
    ensures b.None? ==> forall x <- env :: x.def.name != name
  {
    if env == [] then None
    else if env[|env| - 1].def.name == name then Some(env[|env| - 1])
    else Lookup(env[..|env| - 1], name)
  }

  /** The environment of a level: each definition's body sees the outer definitions and the
      ones before it, the level itself sees them all. */
  function Scope(defs: seq<Def>, outer: Env): Env
    decreases |defs|
  {
    if defs == [] then outer else Scope(defs[1..], outer + [Binding(defs[0], outer)])
  }

  /** The loop that builds both environments side by side. */
  method BuildScope(defs: seq<Def>, outer: Env) returns (stmtEnv: Env)
    ensures stmtEnv == Scope(defs, outer)
  {
    stmtEnv := outer;
    var preceding := outer;
    for i := 0 to |defs|
      invariant stmtEnv == preceding && Scope(defs[i..], preceding) == Scope(defs, outer)
    {
      assert defs[i..][0] == defs[i] && defs[i..][1..] == defs[i + 1..];
      var b := Binding(defs[i], preceding);
      preceding := preceding + [b];
      stmtEnv := stmtEnv + [b];
    }
  }

  // ---------------------------------------------------------------- the measure

  /** An upper bound for the walk of a level whose environment weighs `e`: it pays for
      every definition in scope and for every derived table. */
  function Weight(t: Stmt, e: nat): nat
    decreases t, 1
  {
    var inner := DefsWeight(t.defs, e);
    1 + inner + SourcesWeight(t.sources, inner)
  }

  function BodyWeight(b: Body, e: nat): nat
    decreases b, 0
  {
    if b.Query? then Weight(b.q, e) else 0
  }

  function DefsWeight(defs: seq<Def>, e: nat): (r: nat)
    ensures r >= e
    decreases defs, 0
  {
    if defs == [] then e else DefsWeight(defs[1..], e + 1 + BodyWeight(defs[0].body, e))
  }

  function SourcesWeight(ss: seq<Source>, e: nat): nat
    decreases ss, 0
  {
    if ss == [] then 0
    else LeafWeight(ss[0], e) + SourcesWeight(ss[1..], e)
  }

  function LeafWeight(s: Source, e: nat): nat
    decreases s, 0
  {
    match s.leaf
    case Named(_) => 0
    case Derived(q) => 1 + Weight(q, e)
  }

  function EnvWeight(env: Env): nat
    decreases env, 1
  {
    if env == [] then 0 else EnvWeight(env[..|env| - 1]) + BindingWeight(env[|env| - 1])
  }

  function BindingWeight(b: Binding): nat
    decreases b, 0
  {
    1 + BodyWeight(b.def.body, EnvWeight(b.env))
  }

  lemma {:induction false} EnvSnoc(env: Env, b: Binding)
    ensures EnvWeight(env + [b]) == EnvWeight(env) + BindingWeight(b)
  {
    assert (env + [b])[..|env|] == env;
  }

  lemma {:induction false} DefsUnfold(defs: seq<Def>, outer: Env)
    requires defs != []
    ensures DefsWeight(defs, EnvWeight(outer)) == DefsWeight(defs[1..], EnvWeight(outer) + BindingWeight(Binding(defs[0], outer)))
  {
    hide EnvWeight, BodyWeight;
    assert BindingWeight(Binding(defs[0], outer)) == 1 + BodyWeight(defs[0].body, EnvWeight(outer));
  }

  /** The environment of a level weighs exactly what its weight pays for. */
  lemma {:induction false} ScopeWeight(defs: seq<Def>, outer: Env)
    ensures EnvWeight(Scope(defs, outer)) == DefsWeight(defs, EnvWeight(outer))
    decreases |defs|
  {
    if defs != [] {
      DefsUnfold(defs, outer);
      hide BindingWeight, EnvWeight, DefsWeight;
      EnvSnoc(outer, Binding(defs[0], outer));
      ScopeWeight(defs[1..], outer + [Binding(defs[0], outer)]);
    } else {
      NoDefs(EnvWeight(outer));
    }
  }

  lemma {:induction false} NoDefs(e: nat)
    ensures DefsWeight([], e) == e
  {
  }

  lemma {:induction false} MemberWeight(env: Env, b: Binding)
    requires b in env
    ensures BindingWeight(b) <= EnvWeight(env)
    decreases |env|
  {
    hide BindingWeight;
    if b != env[|env| - 1] {
      assert b in env[..|env| - 1];
      MemberWeight(env[..|env| - 1], b);
    }
  }

  lemma {:induction false} SourceWeight(ss: seq<Source>, e: nat, i: nat)
    requires i < |ss| && ss[i].leaf.Derived?
    ensures Weight(ss[i].leaf.body, e) < SourcesWeight(ss, e)
    decreases |ss|
  {
    hide Weight;
    if i > 0 {
      assert ss[1..][i - 1] == ss[i];
      SourceWeight(ss[1..], e, i - 1);
    }
  }

  /** Entering a definition from wherever it is in scope costs less than the level. */
  lemma {:induction false} EnterDefinition(t: Stmt, env: Env, b: Binding)
    requires b in Scope(t.defs, env) && b.def.body.Query?
    ensures Weight(b.def.body.q, EnvWeight(b.env)) < Weight(t, EnvWeight(env))
  {
    ScopeWeight(t.defs, env);
    MemberWeight(Scope(t.defs, env), b);
    hide EnvWeight, DefsWeight, SourcesWeight;
    WeightCovers(t, EnvWeight(env));
  }

  lemma {:induction false} WeightCovers(t: Stmt, e: nat)
    ensures Weight(t, e) > DefsWeight(t.defs, e)
  {
    hide DefsWeight, SourcesWeight;
  }

  /** Entering a derived table, which sees all of the level's environment, costs less too. */
  lemma {:induction false} EnterDerived(t: Stmt, env: Env, i: nat)
    requires i < |t.sources| && t.sources[i].leaf.Derived?
    ensures Weight(t.sources[i].leaf.body, EnvWeight(Scope(t.defs, env))) < Weight(t, EnvWeight(env))
  {
    ScopeWeight(t.defs, env);
    SourceWeight(t.sources, DefsWeight(t.defs, EnvWeight(env)), i);
    hide EnvWeight, DefsWeight, SourcesWeight;
    WeightUnfolds(t, EnvWeight(env));
  }

  lemma {:induction false} WeightUnfolds(t: Stmt, e: nat)
    ensures Weight(t, e) == 1 + DefsWeight(t.defs, e) + SourcesWeight(t.sources, DefsWeight(t.defs, e))
  {
    hide DefsWeight, SourcesWeight;
  }

  // ---------------------------------------------------------------- the plain walk

  /** What the walk notes about a base table. */
  datatype Event = Seen(oid: nat, nullExtended: bool, inherited: bool) | Poisoned(oid: nat)

  function Poison(cat: Catalog, refs: seq<RelRef>): seq<Event> {
    if refs == [] then []
    else
      var tbl := cat(refs[0].schema, refs[0].name);
      (if tbl.Some? then [Poisoned(tbl.value.oid)] else []) + Poison(cat, refs[1..])
  }

  /** `collectPresence`, without a memo. */
  function Walk(cat: Catalog, t: Stmt, env: Env, nullExt: bool): seq<Event>
    decreases Weight(t, EnvWeight(env)), 1, 0
  {
    WalkNamed(cat, t, env, nullExt, 0) + WalkDerived(cat, t, env, nullExt, 0)
  }

  /** `descend`: a hazardous body poisons every table it mentions. */
  predicate Hazardous(q: Stmt, recursive: bool) { recursive || q.hazard }

  function WalkNamed(cat: Catalog, t: Stmt, env: Env, nullExt: bool, i: nat): seq<Event>
    requires i <= |t.sources|
    decreases Weight(t, EnvWeight(env)), 0, |t.sources| - i
  {
    if i == |t.sources| then []
    else
      var s := t.sources[i];
      (if s.guarded || !s.leaf.Named? || s.leaf.ref.name == "" then []
       else
         var ref, n := s.leaf.ref, nullExt || s.nullable;
         var b := if ref.schema == "" then Lookup(Scope(t.defs, env), ref.name) else None;
         if b.Some? then
           match b.value.def.body
           case Modifies(tables) => Poison(cat, tables)
           case Query(q) =>
             if Hazardous(q, b.value.def.recursive) then Poison(cat, q.deep)
             else
               EnterDefinition(t, env, b.value);
               Walk(cat, q, b.value.env, n)
         else
           var tbl := cat(ref.schema, ref.name);
           if tbl.None? then [] else [Seen(tbl.value.oid, n, tbl.value.hasChildren && !ref.only)]) +
      WalkNamed(cat, t, env, nullExt, i + 1)
  }

  function WalkDerived(cat: Catalog, t: Stmt, env: Env, nullExt: bool, i: nat): seq<Event>
    requires i <= |t.sources|
    decreases Weight(t, EnvWeight(env)), 0, |t.sources| - i
  {
    if i == |t.sources| then []
    else
      var s := t.sources[i];
      (if !s.leaf.Derived? then []
       else if Hazardous(s.leaf.body, false) then Poison(cat, s.leaf.body.deep)
       else
         EnterDerived(t, env, i);
         Walk(cat, s.leaf.body, Scope(t.defs, env), nullExt || s.nullable)) +
      WalkDerived(cat, t, env, nullExt, i + 1)
  }
}
