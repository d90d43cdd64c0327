/**
 The memoized presence walk (internal/nullability/nullability.go): it keeps one
 contribution per parse node and null-extension, and computes the same presence map as
 the plain walk.
 */
module PresenceMemo {
  import opened Core
  import opened Nullability

  /** What is known of one base table: the hazards of all paths that expose it and the
      number of its instances at all levels. */
  datatype Presence = Presence(nullExtended: bool, inherited: bool, poisoned: bool, count: nat)

  type Present = map<nat, Presence>

  function Get(p: Present, oid: nat): Option<Presence> { if oid in p then Some(p[oid]) else None }

  const NONE := Presence(false, false, false, 0)

  /** Counts add up, hazards accumulate. */
  function Plus(a: Option<Presence>, b: Option<Presence>): Option<Presence> {
    if a.None? then b else if b.None? then a
    else Some(Presence(a.value.nullExtended || b.value.nullExtended, a.value.inherited || b.value.inherited,
                       a.value.poisoned || b.value.poisoned, a.value.count + b.value.count))
  }

  function One(e: Event, oid: nat): Option<Presence> {
    match e
    case Seen(o, n, i) => if o == oid then Some(Presence(n, i, false, 1)) else None
    case Poisoned(o) => if o == oid then Some(Presence(false, false, true, 0)) else None
  }

  /** What a list of events says of one table. */
  function Total(es: seq<Event>, oid: nat): Option<Presence> {
    if es == [] then None else Plus(One(es[0], oid), Total(es[1..], oid))
  }

  lemma PlusAssoc(a: Option<Presence>, b: Option<Presence>, c: Option<Presence>)
    ensures Plus(Plus(a, b), c) == Plus(a, Plus(b, c)) && Plus(a, None) == a
  {
  }

  lemma {:induction false} TotalConcat(es: seq<Event>, fs: seq<Event>, oid: nat)
    ensures Total(es + fs, oid) == Plus(Total(es, oid), Total(fs, oid))
  {
    if es == [] {
      assert es + fs == fs;
    } else {
      assert (es + fs)[1..] == es[1..] + fs;
      TotalConcat(es[1..], fs, oid);
      PlusAssoc(One(es[0], oid), Total(es[1..], oid), Total(fs, oid));
    }
  }

  /** The map says of every table what it said before and what the events say. */
  ghost predicate Adds(before: Present, es: seq<Event>, after: Present) {
    forall oid :: Get(after, oid) == Plus(Get(before, oid), Total(es, oid))
  }

  lemma AddsNothing(p: Present)
    ensures Adds(p, [], p)
  {
  }

  lemma AddsThen(p: Present, es: seq<Event>, q: Present, fs: seq<Event>, r: Present)
    requires Adds(p, es, q) && Adds(q, fs, r)
    ensures Adds(p, es + fs, r)
  {
    forall oid ensures Get(r, oid) == Plus(Get(p, oid), Total(es + fs, oid)) {
      TotalConcat(es, fs, oid);
      PlusAssoc(Get(p, oid), Total(es, oid), Total(fs, oid));
    }
  }

  /** A fresh map that received the events and is merged later adds the same. */
  lemma AddsMerged(p: Present, es: seq<Event>, delta: Present, q: Present)
    requires Adds(map[], es, delta) && forall oid :: Get(q, oid) == Plus(Get(p, oid), Get(delta, oid))
    ensures Adds(p, es, q)
  {
    forall oid ensures Get(q, oid) == Plus(Get(p, oid), Total(es, oid)) {
      assert Get(delta, oid) == Plus(Get(map[], oid), Total(es, oid));
    }
  }

  // ---------------------------------------------------------------- where a node stands

  /** A sub-query in its place: the environment it is always entered with. */
  datatype Site = Site(q: Stmt, env: Env, recursive: bool)

  /** The place of each parse node. */
  type Sites = nat -> Site

  /** Every sub-query of the level stands where the map says. */
  predicate Placed(at: Sites, t: Stmt, env: Env)
    decreases t, 1
  {
    PlacedDefs(at, t.defs, env) && PlacedSources(at, t.sources, Scope(t.defs, env))
  }

  predicate PlacedBody(at: Sites, b: Body, env: Env, recursive: bool)
    decreases b, 0
  {
    b.Query? ==> at(b.q.id) == Site(b.q, env, recursive) && Placed(at, b.q, env)
  }

  predicate PlacedDefs(at: Sites, defs: seq<Def>, outer: Env)
    decreases defs, 0
  {
    defs == [] ||
    (PlacedBody(at, defs[0].body, outer, defs[0].recursive) && PlacedDefs(at, defs[1..], outer + [Binding(defs[0], outer)]))
  }

  predicate PlacedSource(at: Sites, s: Source, env: Env)
    decreases s, 0
  {
    match s.leaf
    case Named(_) => true
    case Derived(q) => at(q.id) == Site(q, env, false) && Placed(at, q, env)
  }

  predicate PlacedSources(at: Sites, ss: seq<Source>, env: Env)
    decreases ss, 0
  {
    ss == [] || (PlacedSource(at, ss[0], env) && PlacedSources(at, ss[1..], env))
  }

  predicate EnvPlaced(at: Sites, env: Env)
    decreases env, 1
  {
    env == [] || (EnvPlaced(at, env[..|env| - 1]) && BindingPlaced(at, env[|env| - 1]))
  }

  predicate BindingPlaced(at: Sites, b: Binding)
    decreases b, 0
  {
    PlacedBody(at, b.def.body, b.env, b.def.recursive) && EnvPlaced(at, b.env)
  }

  lemma {:induction false} EnvPlacedSnoc(at: Sites, env: Env, b: Binding)
    requires EnvPlaced(at, env) && BindingPlaced(at, b)
    ensures EnvPlaced(at, env + [b])
  {
    assert (env + [b])[..|env|] == env;
  }

  lemma {:induction false} ScopePlaced(at: Sites, defs: seq<Def>, outer: Env)
    requires EnvPlaced(at, outer) && PlacedDefs(at, defs, outer)
    ensures EnvPlaced(at, Scope(defs, outer))
    decreases |defs|
  {
    if defs != [] {
      hide PlacedBody;
      EnvPlacedSnoc(at, outer, Binding(defs[0], outer));
      ScopePlaced(at, defs[1..], outer + [Binding(defs[0], outer)]);
    }
  }

  lemma {:induction false} MemberPlaced(at: Sites, env: Env, b: Binding)
    requires EnvPlaced(at, env) && b in env
    ensures BindingPlaced(at, b)
    decreases |env|
  {
    hide BindingPlaced;
    if b != env[|env| - 1] {
      assert b in env[..|env| - 1];
      MemberPlaced(at, env[..|env| - 1], b);
    }
  }

  lemma {:induction false} SourcePlaced(at: Sites, ss: seq<Source>, env: Env, i: nat)
    requires PlacedSources(at, ss, env) && i < |ss|
    ensures PlacedSource(at, ss[i], env)
    decreases |ss|
  {
    hide PlacedSource;
    if i > 0 {
      assert ss[1..][i - 1] == ss[i];
      SourcePlaced(at, ss[1..], env, i - 1);
    }
  }

  // ---------------------------------------------------------------- every tree has places

  /** All sub-queries with their places, in document order. */
  function AllSites(t: Stmt, env: Env): seq<Site>
    decreases t, 1
  {
    DefSites(t.defs, env) + SourceSites(t.sources, Scope(t.defs, env))
  }

  function BodySites(b: Body, env: Env, recursive: bool): seq<Site>
    decreases b, 0
  {
    if b.Query? then [Site(b.q, env, recursive)] + AllSites(b.q, env) else []
  }

  function DefSites(defs: seq<Def>, outer: Env): seq<Site>
    decreases defs, 0
  {
    if defs == [] then []
    else BodySites(defs[0].body, outer, defs[0].recursive) + DefSites(defs[1..], outer + [Binding(defs[0], outer)])
  }

  function LeafSites(s: Source, env: Env): seq<Site>
    decreases s, 0
  {
    match s.leaf
    case Named(_) => []
    case Derived(q) => [Site(q, env, false)] + AllSites(q, env)
  }

  function SourceSites(ss: seq<Source>, env: Env): seq<Site>
    decreases ss, 0
  {
    if ss == [] then [] else LeafSites(ss[0], env) + SourceSites(ss[1..], env)
  }

  /** Parse nodes are distinct. */
  predicate DistinctNodes(sites: seq<Site>) { forall i, j :: 0 <= i < j < |sites| ==> sites[i].q.id != sites[j].q.id }

  function FindSite(sites: seq<Site>, id: nat, deflt: Site): Site {
    if sites == [] then deflt else if sites[0].q.id == id then sites[0] else FindSite(sites[1..], id, deflt)
  }

  lemma {:induction false} FindFinds(sites: seq<Site>, s: Site, deflt: Site)
    requires DistinctNodes(sites) && s in sites
    ensures FindSite(sites, s.q.id, deflt) == s
    decreases |sites|
  {
    if sites[0] != s {
      assert s in sites[1..];
      var j :| 0 <= j < |sites[1..]| && sites[1..][j] == s;
      assert sites[j + 1] == s;
      FindFinds(sites[1..], s, deflt);
    }
  }

  function PlaceMap(sites: seq<Site>, deflt: Site): Sites { (id: nat) => FindSite(sites, id, deflt) }

  lemma {:induction false} PlacesFit(all: seq<Site>, deflt: Site, t: Stmt, env: Env)
    requires DistinctNodes(all) && forall s <- AllSites(t, env) :: s in all
    ensures Placed(PlaceMap(all, deflt), t, env)
    decreases t, 1
  {
    hide DistinctNodes, FindSite;
    DefsFit(all, deflt, t.defs, env);
    SourcesFit(all, deflt, t.sources, Scope(t.defs, env));
  }

  lemma {:induction false} BodyFits(all: seq<Site>, deflt: Site, b: Body, env: Env, recursive: bool)
    requires DistinctNodes(all) && forall s <- BodySites(b, env, recursive) :: s in all
    ensures PlacedBody(PlaceMap(all, deflt), b, env, recursive)
    decreases b, 0
  {
    hide DistinctNodes, FindSite, Placed;
    if b.Query? {
      var sites := BodySites(b, env, recursive);
      assert sites[0] in sites;
      assert forall s <- AllSites(b.q, env) :: s in sites;
      FindFinds(all, Site(b.q, env, recursive), deflt);
      PlacesFit(all, deflt, b.q, env);
    }
  }

  lemma {:induction false} DefsFit(all: seq<Site>, deflt: Site, defs: seq<Def>, outer: Env)
    requires DistinctNodes(all) && forall s <- DefSites(defs, outer) :: s in all
    ensures PlacedDefs(PlaceMap(all, deflt), defs, outer)
    decreases defs, 0
  {
    hide DistinctNodes, FindSite, PlacedBody, BodySites;
    if defs != [] {
      var rest := outer + [Binding(defs[0], outer)];
      assert forall s <- BodySites(defs[0].body, outer, defs[0].recursive) :: s in DefSites(defs, outer);
      assert forall s <- DefSites(defs[1..], rest) :: s in DefSites(defs, outer);
      BodyFits(all, deflt, defs[0].body, outer, defs[0].recursive);
      DefsFit(all, deflt, defs[1..], rest);
    }
  }

  lemma {:induction false} SourceFits(all: seq<Site>, deflt: Site, s: Source, env: Env)
    requires DistinctNodes(all) && forall x <- LeafSites(s, env) :: x in all
    ensures PlacedSource(PlaceMap(all, deflt), s, env)
    decreases s, 0
  {
    hide DistinctNodes, FindSite, Placed;
    match s.leaf
    case Named(_) =>
    case Derived(q) =>
      var sites := LeafSites(s, env);
      assert sites[0] in sites;
      assert forall x <- AllSites(q, env) :: x in sites;
      FindFinds(all, Site(q, env, false), deflt);
      PlacesFit(all, deflt, q, env);
  }

  lemma {:induction false} SourcesFit(all: seq<Site>, deflt: Site, ss: seq<Source>, env: Env)
    requires DistinctNodes(all) && forall s <- SourceSites(ss, env) :: s in all
    ensures PlacedSources(PlaceMap(all, deflt), ss, env)
    decreases ss, 0
  {
    hide DistinctNodes, FindSite, PlacedSource, LeafSites;
    if ss != [] {
      assert forall s <- LeafSites(ss[0], env) :: s in SourceSites(ss, env);
      assert forall s <- SourceSites(ss[1..], env) :: s in SourceSites(ss, env);
      SourceFits(all, deflt, ss[0], env);
      SourcesFit(all, deflt, ss[1..], env);
    }
  }

  /** A parse node occupies one place, so its environment is a property of the node: the
      fact the memo's key rests on. */
  lemma NodesHavePlaces(t: Stmt) returns (at: Sites)
    requires DistinctNodes(AllSites(t, []))
    ensures Placed(at, t, []) && EnvPlaced(at, [])
  {
    var all := AllSites(t, []);
    at := PlaceMap(all, Site(t, [], false));
    PlacesFit(all, Site(t, [], false), t, []);
  }

  // ---------------------------------------------------------------- the memoized walk

  /** What descending into a place contributes. */
  function Descent(cat: Catalog, s: Site, nullExt: bool): seq<Event> {
    if Hazardous(s.q, s.recursive) then Poison(cat, s.q.deep) else Walk(cat, s.q, s.env, nullExt)
  }

  /** Every stored contribution is that of its node, entered with its null-extension. */
  ghost predicate MemoOk(cat: Catalog, at: Sites, memo: map<(nat, bool), Present>) {
    forall k <- memo :: MemoEntry(cat, at, k, memo[k])
  }

  ghost predicate MemoEntry(cat: Catalog, at: Sites, k: (nat, bool), delta: Present) {
    Adds(map[], Descent(cat, at(k.0), k.1), delta)
  }

  /** `mergePresence`. */
  method MergePresence(dst: Present, delta: Present) returns (out: Present)
    ensures forall oid :: Get(out, oid) == Plus(Get(dst, oid), Get(delta, oid))
  {
    out := dst;
    var rest := delta.Keys;
    while rest != {}
      invariant rest <= delta.Keys
      invariant forall oid :: Get(out, oid) == if oid in rest then Get(dst, oid) else Plus(Get(dst, oid), Get(delta, oid))
      decreases rest
    {
      var oid: nat :| oid in rest;
      var p, d := if oid in out then out[oid] else NONE, delta[oid];
      out := out[oid := Presence(p.nullExtended || d.nullExtended, p.inherited || d.inherited, p.poisoned || d.poisoned, p.count + d.count)];
      rest := rest - {oid};
    }
  }

  method PoisonOne(cat: Catalog, ref: RelRef, present: Present) returns (out: Present)
    ensures Adds(present, PoisonedBy(cat, ref), out)
  {
    var tbl := cat(ref.schema, ref.name);
    out := present;
    if tbl.Some? {
      var oid := tbl.value.oid;
      var p := if oid in out then out[oid] else NONE;
      out := out[oid := p.(poisoned := true)];
      NotesPoison(present, oid, out);
      hide Adds;
    } else {
      AddsNothing(present);
    }
  }

  function PoisonedBy(cat: Catalog, ref: RelRef): seq<Event> {
    var tbl := cat(ref.schema, ref.name);
    if tbl.Some? then [Poisoned(tbl.value.oid)] else []
  }

  lemma {:induction false} PoisonUnfolds(cat: Catalog, refs: seq<RelRef>)
    requires refs != []
    ensures Poison(cat, refs) == PoisonedBy(cat, refs[0]) + Poison(cat, refs[1..])
  {
  }

  /** Events done so far and those to come. */
  lemma MoveOn(done: seq<Event>, these: seq<Event>, rest: seq<Event>)
    ensures done + (these + rest) == (done + these) + rest
  {
  }

  /** `poison`. */
  method PoisonAll(cat: Catalog, refs: seq<RelRef>, present: Present) returns (out: Present)
    ensures Adds(present, Poison(cat, refs), out)
  {
    hide Adds, Poison, PoisonedBy;
    out := present;
    AddsNothing(present);
    ghost var done: seq<Event> := [];
    assert refs[0..] == refs && [] + Poison(cat, refs) == Poison(cat, refs);
    for i := 0 to |refs|
      invariant Adds(present, done, out) && done + Poison(cat, refs[i..]) == Poison(cat, refs)
    {
      assert refs[i..][0] == refs[i] && refs[i..][1..] == refs[i + 1..];
      PoisonUnfolds(cat, refs[i..]);
      ghost var before, these := out, PoisonedBy(cat, refs[i]);
      out := PoisonOne(cat, refs[i], out);
      AddsThen(present, done, before, these, out);
      MoveOn(done, these, Poison(cat, refs[i + 1..]));
      done := done + these;
    }
    NoPoison(cat);
    assert done + [] == done;
  }

  lemma NoPoison(cat: Catalog)
    ensures Poison(cat, []) == []
  {
  }

  lemma NotesPoison(p: Present, oid: nat, q: Present)
    requires q == p[oid := (if oid in p then p[oid] else NONE).(poisoned := true)]
    ensures Adds(p, [Poisoned(oid)], q)
  {
    assert [Poisoned(oid)][1..] == [];
  }

  lemma NotesSeen(p: Present, oid: nat, n: bool, inh: bool, q: Present)
    requires
      var was := if oid in p then p[oid] else NONE;
      q == p[oid := Presence(was.nullExtended || n, was.inherited || inh, was.poisoned, was.count + 1)]
    ensures Adds(p, [Seen(oid, n, inh)], q)
  {
    assert [Seen(oid, n, inh)][1..] == [];
  }

  class PresenceWalk {
    const cat: Catalog
    var memo: map<(nat, bool), Present>

    constructor (cat: Catalog)
      ensures this.cat == cat && memo == map[]
    {
      this.cat := cat;
      memo := map[];
    }

    /** `descend`: a contribution seen before is merged, a new one is computed apart,
        stored and merged. */
    method Descend(q: Stmt, recursive: bool, env: Env, nullExt: bool, present: Present, ghost at: Sites) returns (out: Present)
      requires MemoOk(cat, at, memo) && at(q.id) == Site(q, env, recursive) && Placed(at, q, env) && EnvPlaced(at, env)
      modifies this`memo
      ensures MemoOk(cat, at, memo) && Adds(present, Descent(cat, Site(q, env, recursive), nullExt), out)
      decreases Weight(q, EnvWeight(env)), 3
    {
      hide Adds, Placed, EnvPlaced, Walk, Poison, Weight;
      var key := (q.id, nullExt);
      if key in memo {
        assert MemoEntry(cat, at, key, memo[key]);
        out := MergePresence(present, memo[key]);
        AddsMerged(present, Descent(cat, at(q.id), nullExt), memo[key], out);
        return;
      }
      var scratch: Present := map[];
      if Hazardous(q, recursive) {
        scratch := PoisonAll(cat, q.deep, scratch);
      } else {
        scratch := Collect(q, env, nullExt, scratch, at);
      }
      assert MemoEntry(cat, at, key, scratch);
      memo := memo[key := scratch];
      out := MergePresence(present, scratch);
      AddsMerged(present, Descent(cat, at(q.id), nullExt), scratch, out);
    }

    /** `collectPresence`: named relations first, then derived tables. */
    method Collect(t: Stmt, env: Env, nullExt: bool, present: Present, ghost at: Sites) returns (out: Present)
      requires MemoOk(cat, at, memo) && Placed(at, t, env) && EnvPlaced(at, env)
      modifies this`memo
      ensures MemoOk(cat, at, memo) && Adds(present, Walk(cat, t, env, nullExt), out)
      decreases Weight(t, EnvWeight(env)), 2
    {
      hide Adds, WalkNamed, WalkDerived, Weight, EnvPlaced, PlacedDefs, PlacedSources;
      out := CollectNamed(t, env, nullExt, present, at);
      ghost var mid := out;
      out := CollectDerived(t, env, nullExt, out, at);
      AddsThen(present, WalkNamed(cat, t, env, nullExt, 0), mid, WalkDerived(cat, t, env, nullExt, 0), out);
    }

    method CollectNamed(t: Stmt, env: Env, nullExt: bool, present: Present, ghost at: Sites) returns (out: Present)
      requires MemoOk(cat, at, memo) && Placed(at, t, env) && EnvPlaced(at, env)
      modifies this`memo
      ensures MemoOk(cat, at, memo) && Adds(present, WalkNamed(cat, t, env, nullExt, 0), out)
      decreases Weight(t, EnvWeight(env)), 1
    {
      hide Adds, Weight, EnvPlaced, Poison, Walk, WalkNamed, NamedEvents, Counts, Placed, MemoOk, PlacedSources;
      var stmtEnv := BuildScope(t.defs, env);
      LevelPlaced(at, t, env);
      out := present;
      AddsNothing(present);
      ghost var done: seq<Event> := [];
      assert [] + WalkNamed(cat, t, env, nullExt, 0) == WalkNamed(cat, t, env, nullExt, 0);
      for i := 0 to |t.sources|
        invariant MemoOk(cat, at, memo) && Adds(present, done, out)
        invariant done + WalkNamed(cat, t, env, nullExt, i) == WalkNamed(cat, t, env, nullExt, 0)
      {
        ghost var before, these := out, NamedEvents(cat, t, env, nullExt, i);
        NamedUnfolds(cat, t, env, nullExt, i);
        if Counts(t.sources[i]) {
          out := OneNamed(t, env, stmtEnv, nullExt, i, out, at);
        } else {
          NotCounted(cat, t, env, nullExt, i);
          AddsNothing(out);
        }
        AddsThen(present, done, before, these, out);
        MoveOn(done, these, WalkNamed(cat, t, env, nullExt, i + 1));
        done := done + these;
      }
      NamedEnds(cat, t, env, nullExt);
      assert done + [] == done;
    }

    /** One named relation: a definition in scope, or a base table. */
    method OneNamed(t: Stmt, env: Env, stmtEnv: Env, nullExt: bool, i: nat, present: Present, ghost at: Sites) returns (out: Present)
      requires MemoOk(cat, at, memo) && EnvPlaced(at, stmtEnv) && stmtEnv == Scope(t.defs, env)
      requires i < |t.sources| && Counts(t.sources[i])
      modifies this`memo
      ensures MemoOk(cat, at, memo) && Adds(present, NamedEvents(cat, t, env, nullExt, i), out)
      decreases Weight(t, EnvWeight(env)), 0
    {
      hide Adds, Weight, EnvPlaced, Poison, Walk, Placed, MemoOk;
      var ref, n := t.sources[i].leaf.ref, nullExt || t.sources[i].nullable;
      var b := if ref.schema == "" then Lookup(stmtEnv, ref.name) else None;
      if b.Some? {
        match b.value.def.body {
          case Modifies(tables) =>
            out := PoisonAll(cat, tables, present);
          case Query(q) =>
            MemberPlaced(at, stmtEnv, b.value);
            EnterDefinition(t, env, b.value);
            out := Descend(q, b.value.def.recursive, b.value.env, n, present, at);
        }
      } else {
        var tbl := cat(ref.schema, ref.name);
        out := present;
        if tbl.Some? {
          var oid, inh := tbl.value.oid, tbl.value.hasChildren && !ref.only;
          var p := if oid in out then out[oid] else NONE;
          out := out[oid := Presence(p.nullExtended || n, p.inherited || inh, p.poisoned, p.count + 1)];
          NotesSeen(present, oid, n, inh, out);
        } else {
          AddsNothing(present);
        }
      }
    }

    method CollectDerived(t: Stmt, env: Env, nullExt: bool, present: Present, ghost at: Sites) returns (out: Present)
      requires MemoOk(cat, at, memo) && Placed(at, t, env) && EnvPlaced(at, env)
      modifies this`memo
      ensures MemoOk(cat, at, memo) && Adds(present, WalkDerived(cat, t, env, nullExt, 0), out)
      decreases Weight(t, EnvWeight(env)), 1
    {
      hide Adds, Weight, EnvPlaced, Poison, Walk, Placed, MemoOk, PlacedSources;
      var stmtEnv := BuildScope(t.defs, env);
      LevelPlaced(at, t, env);
      out := present;
      AddsNothing(present);
      ghost var done: seq<Event> := [];
      assert [] + WalkDerived(cat, t, env, nullExt, 0) == WalkDerived(cat, t, env, nullExt, 0);
      for i := 0 to |t.sources|
        invariant MemoOk(cat, at, memo) && Adds(present, done, out)
        invariant done + WalkDerived(cat, t, env, nullExt, i) == WalkDerived(cat, t, env, nullExt, 0)
      {
        ghost var before, these := out, DerivedEvents(cat, t, env, nullExt, i);
        DerivedUnfolds(cat, t, env, nullExt, i);
        hide WalkDerived;
        var s := t.sources[i];
        if s.leaf.Derived? {
          SourcePlaced(at, t.sources, stmtEnv, i);
          EnterDerived(t, env, i);
          out := Descend(s.leaf.body, false, stmtEnv, nullExt || s.nullable, out, at);
        } else {
          AddsNothing(out);
        }
        AddsThen(present, done, before, these, out);
        MoveOn(done, these, WalkDerived(cat, t, env, nullExt, i + 1));
        done := done + these;
      }
      DerivedEnds(cat, t, env, nullExt);
      assert done + [] == done;
    }
  }

  lemma {:induction false} LevelPlaced(at: Sites, t: Stmt, env: Env)
    requires Placed(at, t, env) && EnvPlaced(at, env)
    ensures EnvPlaced(at, Scope(t.defs, env)) && PlacedSources(at, t.sources, Scope(t.defs, env))
  {
    ScopePlaced(at, t.defs, env);
  }

  /** A named relation that is not part of an optional join. */
  predicate Counts(s: Source) { s.leaf.Named? && !s.guarded && s.leaf.ref.name != "" }

  lemma NotCounted(cat: Catalog, t: Stmt, env: Env, nullExt: bool, i: nat)
    requires i < |t.sources| && !Counts(t.sources[i])
    ensures NamedEvents(cat, t, env, nullExt, i) == []
  {
  }

  /** What one named relation contributes. */
  function NamedEvents(cat: Catalog, t: Stmt, env: Env, nullExt: bool, i: nat): seq<Event>
    requires i < |t.sources|
  {
    var s := t.sources[i];
    if !Counts(s) then []
    else
      var ref, n := s.leaf.ref, nullExt || s.nullable;
      var b := if ref.schema == "" then Lookup(Scope(t.defs, env), ref.name) else None;
      if b.Some? then
        match b.value.def.body
        case Modifies(tables) => Poison(cat, tables)
        case Query(q) => Descent(cat, Site(q, b.value.env, b.value.def.recursive), n)
      else
        var tbl := cat(ref.schema, ref.name);
        if tbl.None? then [] else [Seen(tbl.value.oid, n, tbl.value.hasChildren && !ref.only)]
  }

  /** What one derived table contributes. */
  function DerivedEvents(cat: Catalog, t: Stmt, env: Env, nullExt: bool, i: nat): seq<Event>
    requires i < |t.sources|
  {
    var s := t.sources[i];
    if !s.leaf.Derived? then [] else Descent(cat, Site(s.leaf.body, Scope(t.defs, env), false), nullExt || s.nullable)
  }

  lemma NamedUnfolds(cat: Catalog, t: Stmt, env: Env, nullExt: bool, i: nat)
    requires i < |t.sources|
    ensures WalkNamed(cat, t, env, nullExt, i) == NamedEvents(cat, t, env, nullExt, i) + WalkNamed(cat, t, env, nullExt, i + 1)
  {
    hide Walk, Poison, Weight, EnvWeight;
  }

  lemma DerivedUnfolds(cat: Catalog, t: Stmt, env: Env, nullExt: bool, i: nat)
    requires i < |t.sources|
    ensures WalkDerived(cat, t, env, nullExt, i) == DerivedEvents(cat, t, env, nullExt, i) + WalkDerived(cat, t, env, nullExt, i + 1)
  {
    hide Walk, Poison, Weight, EnvWeight;
  }

  lemma {:induction false} NamedEnds(cat: Catalog, t: Stmt, env: Env, nullExt: bool)
    ensures WalkNamed(cat, t, env, nullExt, |t.sources|) == []
  {
  }

  lemma {:induction false} DerivedEnds(cat: Catalog, t: Stmt, env: Env, nullExt: bool)
    ensures WalkDerived(cat, t, env, nullExt, |t.sources|) == []
  {
  }

  /** The memo changes how often a body is walked, never what is found. */
  method PresenceOf(cat: Catalog, t: Stmt) returns (present: Present)
    requires DistinctNodes(AllSites(t, []))
    ensures forall oid :: Get(present, oid) == Total(Walk(cat, t, [], false), oid)
  {
    ghost var at := NodesHavePlaces(t);
    var walk := new PresenceWalk(cat);
    present := walk.Collect(t, [], false, map[], at);
  }
}
