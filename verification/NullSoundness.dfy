/**
 Nullability verdicts of source-attributed columns (internal/nullability/nullability.go)
 against rows: a column judged non-null is never NULL, in any shape, through any nest of
 derived tables and CTEs.
 */
module NullSoundness {
  import opened Core
  import opened JoinScanning
  import opened JoinTrees
  import opened Nullability
  import opened PresenceMemo

  // ---------------------------------------------------------------- rows of a level

  /** Everything a database brings: the join tree of each level, the truth of its join
      conditions, which rows each FROM item offers, what a row of a sub-query is made of,
      and the values and constraints of base tables. FROM items are named by position. */
  datatype Data = Data(
    joins: Stmt -> From,
    holds: (nat, nat, Row) -> bool,
    offers: (nat, nat, int) -> bool,
    rowOf: (nat, int) -> Row,
    value: (nat, int, nat) -> Option<int>,
    notNull: (nat, nat) -> bool)

  /** A shape: the optional joins of each level that are switched off. */
  type Shape = Stmt -> set<nat>

  function InShape(f: From, off: set<nat>): From {
    match f
    case Rel(_, _) => f
    case Sub(open, g, close) => Sub(open, InShape(g, off), close)
    case Join(id, l, kind, natural, kws, r, q) =>
      if id in off then InShape(l, off) else Join(id, InShape(l, off), kind, natural, kws, InShape(r, off), q)
  }

  /** The side of some join that may be null-extended: what `NullableSide` reports. */
  predicate NullableIn(f: From, k: nat) {
    match f
    case Rel(_, _) => false
    case Sub(_, g, _) => NullableIn(g, k)
    case Join(_, l, kind, _, _, r, _) =>
      (k in Rels(l) && (KeepsRight(kind) || NullableIn(l, k))) || (k in Rels(r) && (KeepsLeft(kind) || NullableIn(r, k)))
  }

  /** Switched-off joins only drop relations of optional joins. */
  predicate OnlyOptional(f: From, off: set<nat>, ss: seq<Source>) {
    match f
    case Rel(_, _) => true
    case Sub(_, g, _) => OnlyOptional(g, off, ss)
    case Join(id, l, _, _, _, r, _) =>
      OnlyOptional(l, off, ss) && OnlyOptional(r, off, ss) &&
      (id in off ==> forall k <- Rels(r) :: k < |ss| ==> ss[k].guarded)
  }

  /** What the frontend guarantees of a level: its join tree holds its FROM items, and
      every item that a join of the maximal statement may null-extend says so. */
  ghost predicate LevelOk(w: Data, off: Shape, t: Stmt) {
    (forall k :: 0 <= k < |t.sources| ==> k in Rels(w.joins(t))) &&
    OnlyOptional(w.joins(t), off(t), t.sources) &&
    forall k :: 0 <= k < |t.sources| && NullableIn(w.joins(t), k) ==> t.sources[k].nullable
  }

  /** Every level keeps it; `LevelsCanBeOk` shows databases in which this holds. */
  ghost predicate LevelsOk(w: Data, off: Shape) { forall t: Stmt :: LevelOk(w, off, t) }

  /** One of them: every level joins its items with CROSS JOIN. */
  function Chain(n: nat): From {
    if n <= 1 then Rel(0, []) else Join(n, Chain(n - 1), Cross, false, [], Rel(n - 1, []), NoQual)
  }

  lemma {:induction false} ChainHolds(n: nat, k: nat)
    ensures !NullableIn(Chain(n), k) && (k < n ==> k in Rels(Chain(n)))
    ensures forall ss: seq<Source> :: OnlyOptional(Chain(n), {}, ss)
  {
    if n > 1 { ChainHolds(n - 1, k); }
  }

  /** The maximal shape. */
  function NothingOff(): Shape { (t: Stmt) => {} }

  /** The guarantees that the soundness theorem asks of its databases can be met, for any
      tuples and conditions. */
  lemma LevelsCanBeOk(w: Data)
    requires w.joins == ((t: Stmt) => Chain(|t.sources|))
    ensures LevelsOk(w, NothingOff())
  {
    hide OnlyOptional, NullableIn;
    forall t: Stmt ensures LevelOk(w, NothingOff(), t) {
      ChainHolds(|t.sources|, 0);
      forall k: nat { ChainHolds(|t.sources|, k); }
    }
  }

  function LevelWorld(w: Data, t: Stmt): World {
    World((k: nat, v: int) => w.offers(t.id, k, v), (j: nat, row: Row) => w.holds(t.id, j, row))
  }

  /** The definition or base table a named item stands for. */
  function Target(t: Stmt, env: Env, ref: RelRef): Option<Binding> {
    if ref.schema == "" then Lookup(Scope(t.defs, env), ref.name) else None
  }

  /** `row` may come out of the level in this shape: the joins yield it, every tuple of a
      base table keeps the declared constraints unless it may be a child table's, and every
      row of a sub-query may come out of that sub-query. */
  ghost predicate Comes(cat: Catalog, w: Data, off: Shape, t: Stmt, env: Env, row: Row)
    decreases Weight(t, EnvWeight(env)), 1, 0
  {
    Yields(LevelWorld(w, t), InShape(w.joins(t), off(t)), row) &&
    forall k :: 0 <= k < |t.sources| && row(k).Some? ==> ItemOk(cat, w, off, t, env, k, row(k).value)
  }

  ghost predicate ItemOk(cat: Catalog, w: Data, off: Shape, t: Stmt, env: Env, k: nat, v: int)
    requires k < |t.sources|
    decreases Weight(t, EnvWeight(env)), 0, k
  {
    match t.sources[k].leaf
    case Derived(q) =>
      EnterDerived(t, env, k);
      Hazardous(q, false) || Comes(cat, w, off, q, Scope(t.defs, env), w.rowOf(q.id, v))
    case Named(ref) =>
      var b := Target(t, env, ref);
      if b.Some? then
        match b.value.def.body
        case Modifies(_) => true
        case Query(q) =>
          EnterDefinition(t, env, b.value);
          Hazardous(q, b.value.def.recursive) || Comes(cat, w, off, q, b.value.env, w.rowOf(q.id, v))
      else
        var tbl := cat(ref.schema, ref.name);
        tbl.Some? && !(tbl.value.hasChildren && !ref.only) ==>
          forall a :: w.notNull(tbl.value.oid, a) ==> w.value(tbl.value.oid, v, a).Some?
  }

  // ---------------------------------------------------------------- provenance

  /** How a result column's attribution reaches a base table: an item of this level, a
      sub-query's item, or something a hazardous or modifying body hides. */
  datatype Path = AtTable(k: nat) | Into(k: nat, rest: Path) | Behind(k: nat)

  predicate Mentions(cat: Catalog, refs: seq<RelRef>, oid: nat) {
    exists ref <- refs :: cat(ref.schema, ref.name).Some? && cat(ref.schema, ref.name).value.oid == oid
  }

  /** The engine may attribute a column of the level to the table along the path. Relations
      of optional joins supply no result columns. */
  predicate Leads(cat: Catalog, t: Stmt, env: Env, path: Path, oid: nat)
    decreases path
  {
    path.k < |t.sources| && !t.sources[path.k].guarded &&
    match t.sources[path.k].leaf
    case Derived(q) =>
      (match path
       case AtTable(_) => false
       case Into(_, rest) => !Hazardous(q, false) && Leads(cat, q, Scope(t.defs, env), rest, oid)
       case Behind(_) => Hazardous(q, false) && Mentions(cat, q.deep, oid))
    case Named(ref) =>
      ref.name != "" &&
      var b := Target(t, env, ref);
      match path
      case AtTable(_) => b.None? && cat(ref.schema, ref.name).Some? && cat(ref.schema, ref.name).value.oid == oid
      case Into(_, rest) =>
        b.Some? && b.value.def.body.Query? && !Hazardous(b.value.def.body.q, b.value.def.recursive) &&
        Leads(cat, b.value.def.body.q, b.value.env, rest, oid)
      case Behind(_) =>
        b.Some? &&
        match b.value.def.body
        case Modifies(tables) => Mentions(cat, tables, oid)
        case Query(q) => Hazardous(q, b.value.def.recursive) && Mentions(cat, q.deep, oid)
  }

  /** The sub-query an item stands for. */
  function Below(t: Stmt, env: Env, k: nat): Option<(Stmt, Env)>
    requires k < |t.sources|
  {
    match t.sources[k].leaf
    case Derived(q) => Some((q, Scope(t.defs, env)))
    case Named(ref) =>
      var b := Target(t, env, ref);
      if b.Some? && b.value.def.body.Query? then Some((b.value.def.body.q, b.value.env)) else None
  }

  /** The value along the path in a row, NULL where an item is null-extended and where a
      hazardous body hides what happens. */
  function ValueAt(w: Data, t: Stmt, env: Env, row: Row, path: Path, oid: nat, att: nat): Option<int>
    decreases path
  {
    if path.k >= |t.sources| || row(path.k).None? then None
    else
      match path
      case AtTable(k) => w.value(oid, row(k).value, att)
      case Behind(_) => None
      case Into(k, rest) =>
        var q := Below(t, env, k);
        if q.None? then None
        else ValueAt(w, q.value.0, q.value.1, w.rowOf(q.value.0.id, row(k).value), rest, oid, att)
  }

  // ---------------------------------------------------------------- the joins of one level

  lemma {:induction false} ShapeNullable(f: From, off: set<nat>, ss: seq<Source>, k: nat)
    requires OnlyOptional(f, off, ss) && k < |ss| && !ss[k].guarded && k in Rels(f)
    ensures k in Rels(InShape(f, off))
    ensures NullableIn(InShape(f, off), k) ==> NullableIn(f, k)
  {
    match f
    case Rel(_, _) =>
    case Sub(_, g, _) => ShapeNullable(g, off, ss, k);
    case Join(id, l, kind, _, _, r, _) =>
      ShapeRels(l, off);
      ShapeRels(r, off);
      if k in Rels(l) { ShapeNullable(l, off, ss, k); }
      if k in Rels(r) { ShapeNullable(r, off, ss, k); }
  }

  lemma {:induction false} ShapeRels(f: From, off: set<nat>)
    ensures Rels(InShape(f, off)) <= Rels(f)
  {
    match f
    case Rel(_, _) =>
    case Sub(_, g, _) => ShapeRels(g, off);
    case Join(_, l, _, _, _, r, _) =>
      ShapeRels(l, off);
      ShapeRels(r, off);
  }

  /** A row leaves an item out only where some join may null-extend it. */
  lemma {:induction false} OnlyNullable(w: World, f: From, row: Row, k: nat)
    requires Yields(w, f, row) && k in Rels(f) && row(k).None?
    ensures NullableIn(f, k)
    decreases f
  {
    hide UnmatchedLeft, UnmatchedRight;
    match f
    case Rel(_, _) =>
    case Sub(_, g, _) => OnlyNullable(w, g, row, k);
    case Join(_, l, kind, _, _, r, _) =>
      if k in Rels(l) && Yields(w, l, row) { OnlyNullable(w, l, row, k); }
      if k in Rels(r) && Yields(w, r, row) { OnlyNullable(w, r, row, k); }
  }

  /** An item the frontend does not flag is present in every row of every shape. */
  lemma {:induction false} Present(cat: Catalog, w: Data, off: Shape, t: Stmt, env: Env, row: Row, k: nat)
    requires LevelOk(w, off, t) && Comes(cat, w, off, t, env, row)
    requires k < |t.sources| && !t.sources[k].guarded && !t.sources[k].nullable
    ensures row(k).Some? && ItemOk(cat, w, off, t, env, k, row(k).value)
  {
    hide ItemOk, Yields, OnlyOptional, NullableIn;
    ShapeNullable(w.joins(t), off(t), t.sources, k);
    if row(k).None? {
      OnlyNullable(LevelWorld(w, t), InShape(w.joins(t), off(t)), row, k);
    }
  }

  // ---------------------------------------------------------------- events and paths

  predicate About(e: Event, oid: nat) { e.oid == oid }

  /** Nothing noted about the table is a hazard. */
  ghost predicate Clean(es: seq<Event>, oid: nat) {
    forall e <- es :: About(e, oid) ==> e.Seen? && !e.nullExtended && !e.inherited
  }

  lemma {:induction false} CleanTotal(es: seq<Event>, oid: nat)
    ensures Clean(es, oid) <==> (var p := Total(es, oid); p.Some? ==> !p.value.nullExtended && !p.value.inherited && !p.value.poisoned)
  {
    if es != [] {
      CleanTotal(es[1..], oid);
      assert es == [es[0]] + es[1..];
      assert Clean(es, oid) <==> Clean(es[1..], oid) && Clean([es[0]], oid);
    }
  }

  lemma {:induction false} PoisonMentions(cat: Catalog, refs: seq<RelRef>, oid: nat)
    requires Mentions(cat, refs, oid)
    ensures Poisoned(oid) in Poison(cat, refs)
  {
    var ref :| ref in refs && cat(ref.schema, ref.name).Some? && cat(ref.schema, ref.name).value.oid == oid;
    if ref != refs[0] {
      assert ref in refs[1..];
      PoisonMentions(cat, refs[1..], oid);
    }
  }

  lemma {:induction false} NamedInWalk(cat: Catalog, t: Stmt, env: Env, nullExt: bool, i: nat, k: nat)
    requires i <= k < |t.sources|
    ensures forall e <- NamedEvents(cat, t, env, nullExt, k) :: e in WalkNamed(cat, t, env, nullExt, i)
    decreases k - i
  {
    hide *;
    NamedUnfolds(cat, t, env, nullExt, i);
    if i < k {
      NamedInWalk(cat, t, env, nullExt, i + 1, k);
    }
  }

  lemma {:induction false} DerivedInWalk(cat: Catalog, t: Stmt, env: Env, nullExt: bool, i: nat, k: nat)
    requires i <= k < |t.sources|
    ensures forall e <- DerivedEvents(cat, t, env, nullExt, k) :: e in WalkDerived(cat, t, env, nullExt, i)
    decreases k - i
  {
    hide *;
    DerivedUnfolds(cat, t, env, nullExt, i);
    if i < k {
      DerivedInWalk(cat, t, env, nullExt, i + 1, k);
    }
  }

  /** What item `k` contributes to the walk. */
  function ItemEvents(cat: Catalog, t: Stmt, env: Env, nullExt: bool, k: nat): seq<Event>
    requires k < |t.sources|
  {
    NamedEvents(cat, t, env, nullExt, k) + DerivedEvents(cat, t, env, nullExt, k)
  }

  lemma {:induction false} ItemInWalk(cat: Catalog, t: Stmt, env: Env, nullExt: bool, k: nat)
    requires k < |t.sources|
    ensures forall e <- ItemEvents(cat, t, env, nullExt, k) :: e in Walk(cat, t, env, nullExt)
  {
    hide NamedEvents, DerivedEvents, WalkNamed, WalkDerived;
    NamedInWalk(cat, t, env, nullExt, 0, k);
    DerivedInWalk(cat, t, env, nullExt, 0, k);
  }

  /** A walk has noted the table the path leads to, and carries the null-extension it was
      entered with. */
  ghost predicate Noted(es: seq<Event>, oid: nat, nullExt: bool) {
    exists e <- es :: About(e, oid) && (e.Seen? && nullExt ==> e.nullExtended)
  }

  /** The events of a sub-query are those of its item. */
  lemma {:induction false} BelowEvents(cat: Catalog, t: Stmt, env: Env, nullExt: bool, path: Path, oid: nat)
    requires path.Into? && Leads(cat, t, env, path, oid)
    ensures Below(t, env, path.k).Some?
    ensures
      var q := Below(t, env, path.k).value;
      Leads(cat, q.0, q.1, path.rest, oid) &&
      ItemEvents(cat, t, env, nullExt, path.k) == Walk(cat, q.0, q.1, nullExt || t.sources[path.k].nullable)
  {
    hide Walk, Poison;
    var q := Below(t, env, path.k).value;
    var es := Walk(cat, q.0, q.1, nullExt || t.sources[path.k].nullable);
    assert es + [] == es && [] + es == es;
  }

  lemma {:induction false} LeadsNoted(cat: Catalog, t: Stmt, env: Env, nullExt: bool, path: Path, oid: nat)
    requires Leads(cat, t, env, path, oid)
    ensures Noted(ItemEvents(cat, t, env, nullExt, path.k), oid, nullExt || t.sources[path.k].nullable)
    decreases path
  {
    match path
    case AtTable(k) =>
      hide Walk, Poison;
      var ref := t.sources[k].leaf.ref;
      var tbl := cat(ref.schema, ref.name).value;
      var e := Seen(oid, nullExt || t.sources[k].nullable, tbl.hasChildren && !ref.only);
      assert e in ItemEvents(cat, t, env, nullExt, k);
    case Into(k, rest) =>
      BelowEvents(cat, t, env, nullExt, path, oid);
      var q := Below(t, env, k).value;
      var n := nullExt || t.sources[k].nullable;
      LeadsNoted(cat, q.0, q.1, n, rest, oid);
      hide ItemEvents, Walk, Leads;
      NotedInWalk(cat, q.0, q.1, n, rest.k, oid);
    case Behind(k) =>
      BehindNoted(cat, t, env, nullExt, k, oid);
  }

  lemma {:induction false} NotedInWalk(cat: Catalog, t: Stmt, env: Env, nullExt: bool, k: nat, oid: nat)
    requires k < |t.sources| && Noted(ItemEvents(cat, t, env, nullExt, k), oid, nullExt || t.sources[k].nullable)
    ensures Noted(Walk(cat, t, env, nullExt), oid, nullExt)
  {
    hide ItemEvents, Walk;
    ItemInWalk(cat, t, env, nullExt, k);
    var e :| e in ItemEvents(cat, t, env, nullExt, k) && About(e, oid) && (e.Seen? && (nullExt || t.sources[k].nullable) ==> e.nullExtended);
    assert e in Walk(cat, t, env, nullExt);
  }

  lemma {:induction false} BehindNoted(cat: Catalog, t: Stmt, env: Env, nullExt: bool, k: nat, oid: nat)
    requires Leads(cat, t, env, Behind(k), oid)
    ensures Poisoned(oid) in ItemEvents(cat, t, env, nullExt, k)
  {
    hide Walk, Poison, Mentions;
    match t.sources[k].leaf
    case Derived(q) => PoisonMentions(cat, q.deep, oid);
    case Named(ref) =>
      match Target(t, env, ref).value.def.body
      case Modifies(tables) => PoisonMentions(cat, tables, oid);
      case Query(q) => PoisonMentions(cat, q.deep, oid);
  }

  lemma {:induction false} CleanItem(cat: Catalog, t: Stmt, env: Env, nullExt: bool, k: nat, oid: nat)
    requires k < |t.sources| && Clean(Walk(cat, t, env, nullExt), oid)
    ensures Clean(ItemEvents(cat, t, env, nullExt, k), oid)
  {
    hide ItemEvents, Walk;
    ItemInWalk(cat, t, env, nullExt, k);
  }

  lemma NotedClean(es: seq<Event>, oid: nat, nullExt: bool)
    requires Noted(es, oid, nullExt) && Clean(es, oid)
    ensures !nullExt
  {
  }

  // ---------------------------------------------------------------- soundness

  /** Where every exposure of a table is free of hazards, a NOT NULL column of it is never
      NULL along any path, in any row of any shape. */
  lemma {:induction false} CleanIsNonNull(cat: Catalog, w: Data, off: Shape, t: Stmt, env: Env, nullExt: bool, row: Row, path: Path, oid: nat, att: nat)
    requires LevelsOk(w, off) && Comes(cat, w, off, t, env, row) && Leads(cat, t, env, path, oid)
    requires Clean(Walk(cat, t, env, nullExt), oid) && w.notNull(oid, att)
    ensures ValueAt(w, t, env, row, path, oid, att).Some?
    decreases path
  {
    hide Walk, Comes, ItemOk, LevelOk, ItemEvents, Noted, Clean;
    var k := path.k;
    assert LevelOk(w, off, t);
    CleanItem(cat, t, env, nullExt, k, oid);
    LeadsNoted(cat, t, env, nullExt, path, oid);
    NotedClean(ItemEvents(cat, t, env, nullExt, k), oid, nullExt || t.sources[k].nullable);
    Present(cat, w, off, t, env, row, k);
    match path
    case AtTable(_) =>
      TableValue(cat, w, off, t, env, nullExt, k, row(k).value, oid, att);
    case Into(_, rest) =>
      BelowEvents(cat, t, env, nullExt, path, oid);
      var q := Below(t, env, k).value;
      BelowComes(cat, w, off, t, env, path, row(k).value, oid);
      CleanIsNonNull(cat, w, off, q.0, q.1, nullExt || t.sources[k].nullable, w.rowOf(q.0.id, row(k).value), rest, oid, att);
    case Behind(_) =>
      BehindNoted(cat, t, env, nullExt, k, oid);
      PoisonUnclean(ItemEvents(cat, t, env, nullExt, k), oid);
  }

  lemma PoisonUnclean(es: seq<Event>, oid: nat)
    requires Poisoned(oid) in es
    ensures !Clean(es, oid)
  {
    assert About(Poisoned(oid), oid);
  }

  lemma {:induction false} TableValue(cat: Catalog, w: Data, off: Shape, t: Stmt, env: Env, nullExt: bool, k: nat, v: int, oid: nat, att: nat)
    requires Leads(cat, t, env, AtTable(k), oid) && Clean(ItemEvents(cat, t, env, nullExt, k), oid)
    requires ItemOk(cat, w, off, t, env, k, v) && w.notNull(oid, att)
    ensures w.value(oid, v, att).Some?
  {
    hide Walk, Poison, Comes;
    var ref := t.sources[k].leaf.ref;
    var tbl := cat(ref.schema, ref.name).value;
    var e := Seen(oid, nullExt || t.sources[k].nullable, tbl.hasChildren && !ref.only);
    assert e in ItemEvents(cat, t, env, nullExt, k) && About(e, oid);
  }

  lemma {:induction false} BelowComes(cat: Catalog, w: Data, off: Shape, t: Stmt, env: Env, path: Path, v: int, oid: nat)
    requires path.Into? && Leads(cat, t, env, path, oid) && ItemOk(cat, w, off, t, env, path.k, v)
    ensures Below(t, env, path.k).Some?
    ensures var q := Below(t, env, path.k).value; Comes(cat, w, off, q.0, q.1, w.rowOf(q.0.id, v))
  {
    hide Comes;
  }

  // ---------------------------------------------------------------- how often a table appears

  /** The number of instances the events note of a table. */
  function Instances(es: seq<Event>, oid: nat): nat {
    var p := Total(es, oid);
    if p.Some? then p.value.count else 0
  }

  lemma InstancesConcat(es: seq<Event>, fs: seq<Event>, oid: nat)
    ensures Instances(es + fs, oid) == Instances(es, oid) + Instances(fs, oid)
  {
    hide Total;
    TotalConcat(es, fs, oid);
  }

  lemma {:induction false} SeenCounts(es: seq<Event>, e: Event)
    requires e in es && e.Seen?
    ensures Instances(es, e.oid) >= 1
    decreases |es|
  {
    assert es == [es[0]] + es[1..];
    InstancesConcat([es[0]], es[1..], e.oid);
    if e == es[0] {
      assert [es[0]][1..] == [];
    } else {
      SeenCounts(es[1..], e);
    }
  }

  lemma {:induction false} NamedOnce(cat: Catalog, t: Stmt, env: Env, nullExt: bool, i: nat, k: nat, oid: nat)
    requires i <= k < |t.sources|
    ensures Instances(WalkNamed(cat, t, env, nullExt, i), oid) >= Instances(NamedEvents(cat, t, env, nullExt, k), oid)
    decreases k - i
  {
    hide *;
    NamedUnfolds(cat, t, env, nullExt, i);
    InstancesConcat(NamedEvents(cat, t, env, nullExt, i), WalkNamed(cat, t, env, nullExt, i + 1), oid);
    if i < k { NamedOnce(cat, t, env, nullExt, i + 1, k, oid); }
  }

  lemma {:induction false} NamedTwice(cat: Catalog, t: Stmt, env: Env, nullExt: bool, i: nat, j: nat, k: nat, oid: nat)
    requires i <= j < k < |t.sources|
    ensures
      Instances(WalkNamed(cat, t, env, nullExt, i), oid) >=
      Instances(NamedEvents(cat, t, env, nullExt, j), oid) + Instances(NamedEvents(cat, t, env, nullExt, k), oid)
    decreases j - i
  {
    hide *;
    NamedUnfolds(cat, t, env, nullExt, i);
    InstancesConcat(NamedEvents(cat, t, env, nullExt, i), WalkNamed(cat, t, env, nullExt, i + 1), oid);
    if i < j {
      NamedTwice(cat, t, env, nullExt, i + 1, j, k, oid);
    } else {
      NamedOnce(cat, t, env, nullExt, i + 1, k, oid);
    }
  }

  lemma {:induction false} DerivedOnce(cat: Catalog, t: Stmt, env: Env, nullExt: bool, i: nat, k: nat, oid: nat)
    requires i <= k < |t.sources|
    ensures Instances(WalkDerived(cat, t, env, nullExt, i), oid) >= Instances(DerivedEvents(cat, t, env, nullExt, k), oid)
    decreases k - i
  {
    hide *;
    DerivedUnfolds(cat, t, env, nullExt, i);
    InstancesConcat(DerivedEvents(cat, t, env, nullExt, i), WalkDerived(cat, t, env, nullExt, i + 1), oid);
    if i < k { DerivedOnce(cat, t, env, nullExt, i + 1, k, oid); }
  }

  lemma OneKind(cat: Catalog, t: Stmt, env: Env, nullExt: bool, k: nat)
    requires k < |t.sources|
    ensures NamedEvents(cat, t, env, nullExt, k) == [] || DerivedEvents(cat, t, env, nullExt, k) == []
  {
  }

  /** Two items that note a table make two instances. */
  lemma {:induction false} TwoItems(cat: Catalog, t: Stmt, env: Env, nullExt: bool, j: nat, k: nat, oid: nat)
    requires j < |t.sources| && k < |t.sources| && j != k && t.sources[k].leaf.Named?
    ensures
      Instances(Walk(cat, t, env, nullExt), oid) >=
      Instances(ItemEvents(cat, t, env, nullExt, j), oid) + Instances(NamedEvents(cat, t, env, nullExt, k), oid)
  {
    WalkSplits(cat, t, env, nullExt, oid);
    OneKind(cat, t, env, nullExt, j);
    hide NamedEvents, DerivedEvents, WalkNamed, WalkDerived, Walk, Total;
    InstancesConcat(NamedEvents(cat, t, env, nullExt, j), DerivedEvents(cat, t, env, nullExt, j), oid);
    DerivedOnce(cat, t, env, nullExt, 0, j, oid);
    NamedOnce(cat, t, env, nullExt, 0, k, oid);
    if j < k {
      NamedTwice(cat, t, env, nullExt, 0, j, k, oid);
    } else {
      NamedTwice(cat, t, env, nullExt, 0, k, j, oid);
    }
    NoInstances(oid);
  }

  lemma NoInstances(oid: nat)
    ensures Instances([], oid) == 0
  {
  }

  lemma {:induction false} WalkSplits(cat: Catalog, t: Stmt, env: Env, nullExt: bool, oid: nat)
    ensures
      Instances(Walk(cat, t, env, nullExt), oid) ==
      Instances(WalkNamed(cat, t, env, nullExt, 0), oid) + Instances(WalkDerived(cat, t, env, nullExt, 0), oid)
  {
    hide WalkNamed, WalkDerived, Instances;
    InstancesConcat(WalkNamed(cat, t, env, nullExt, 0), WalkDerived(cat, t, env, nullExt, 0), oid);
  }

  /** A table with one instance and no poisoned exposure has one path: its own item. */
  lemma {:induction false} OnlyPath(cat: Catalog, t: Stmt, env: Env, k: nat, path: Path, oid: nat)
    requires Leads(cat, t, env, AtTable(k), oid) && Leads(cat, t, env, path, oid)
    requires Instances(Walk(cat, t, env, false), oid) == 1 && Poisoned(oid) !in Walk(cat, t, env, false)
    ensures path == AtTable(k)
  {
    if path.k != k {
      OwnInstance(cat, t, env, k, oid);
      LeadsNoted(cat, t, env, false, path, oid);
      ItemInWalk(cat, t, env, false, path.k);
      hide ItemEvents, NamedEvents, Walk, Instances, Leads;
      var e :| e in ItemEvents(cat, t, env, false, path.k) && About(e, oid);
      assert e.Seen?;
      SeenCounts(ItemEvents(cat, t, env, false, path.k), e);
      TwoItems(cat, t, env, false, path.k, k, oid);
    }
  }

  lemma {:induction false} OwnInstance(cat: Catalog, t: Stmt, env: Env, k: nat, oid: nat)
    requires Leads(cat, t, env, AtTable(k), oid)
    ensures t.sources[k].leaf.Named? && Instances(NamedEvents(cat, t, env, false, k), oid) == 1
  {
    hide Instances, Descent, Poison;
    var ref := t.sources[k].leaf.ref;
    var tbl := cat(ref.schema, ref.name).value;
    assert NamedEvents(cat, t, env, false, k) == [Seen(oid, t.sources[k].nullable, tbl.hasChildren && !ref.only)];
    OneInstance(oid, t.sources[k].nullable, tbl.hasChildren && !ref.only);
  }

  lemma OneInstance(oid: nat, n: bool, inh: bool)
    ensures Instances([Seen(oid, n, inh)], oid) == 1
  {
    assert [Seen(oid, n, inh)][1..] == [];
    assert Total([Seen(oid, n, inh)], oid) == Plus(One(Seen(oid, n, inh), oid), Total([], oid));
  }

  lemma {:induction false} PoisonTotal(es: seq<Event>, oid: nat)
    ensures Poisoned(oid) in es ==> Total(es, oid).Some? && Total(es, oid).value.poisoned
  {
    if es != [] { PoisonTotal(es[1..], oid); }
  }

  // ---------------------------------------------------------------- verdicts

  /** A `column IS NOT NULL` conjunct of the outer WHERE, with the FROM item its column
      belongs to; `skeleton` says that no fragment covers it. */
  datatype NullTest = NullTest(item: nat, att: nat, skeleton: bool)

  /** The base table a named item of the outermost level stands for. */
  function Instance(cat: Catalog, t: Stmt, k: nat): Option<nat> {
    if k < |t.sources| && Counts(t.sources[k]) && Target(t, [], t.sources[k].leaf.ref).None? then
      var tbl := cat(t.sources[k].leaf.ref.schema, t.sources[k].leaf.ref.name);
      if tbl.Some? then Some(tbl.value.oid) else None
    else None
  }

  /** Whether a test narrows a column: its table has one instance and nothing poisons it. */
  predicate Narrows(cat: Catalog, t: Stmt, present: Present, c: NullTest, rel: nat, att: nat) {
    c.skeleton && c.att == att && Instance(cat, t, c.item) == Some(rel) &&
    rel in present && present[rel].count == 1 && !present[rel].poisoned
  }

  /** The loop over the outer WHERE's tests. An UPDATE returns the row after the change,
      so its WHERE narrows nothing. */
  method FilteredColumns(cat: Catalog, t: Stmt, tests: seq<NullTest>, update: bool, present: Present) returns (filtered: set<(nat, nat)>)
    ensures forall rel: nat, att: nat :: (rel, att) in filtered <==> !update && exists c <- tests :: Narrows(cat, t, present, c, rel, att)
  {
    filtered := {};
    if update { return; }
    for i := 0 to |tests|
      invariant forall rel: nat, att: nat :: (rel, att) in filtered <==> exists c <- tests[..i] :: Narrows(cat, t, present, c, rel, att)
    {
      assert tests[..i + 1] == tests[..i] + [tests[i]];
      var c := tests[i];
      var rel := Instance(cat, t, c.item);
      if c.skeleton && rel.Some? && rel.value in present && present[rel.value].count == 1 && !present[rel.value].poisoned {
        assert Narrows(cat, t, present, c, rel.value, c.att);
        filtered := filtered + {(rel.value, c.att)};
      }
    }
    assert tests[..|tests|] == tests;
  }

  datatype Reason = Distrusted | Absent | UnknownColumn | Filtered | Hidden | Inherited | NullExtended | MayBeNull | Declared

  datatype Verdict = Verdict(nullable: bool, reason: Reason)

  /** `srcVerdict`. `columns` gives the declared NOT NULL of the columns the catalog knows. */
  function SrcVerdict(untrusted: bool, present: Present, columns: (nat, nat) -> Option<bool>, filtered: set<(nat, nat)>, rel: nat, att: nat): Verdict {
    if untrusted then Verdict(true, Distrusted)
    else if rel !in present then Verdict(true, Absent)
    else if columns(rel, att).None? then Verdict(true, UnknownColumn)
    else if (rel, att) in filtered then Verdict(false, Filtered)
    else if present[rel].poisoned then Verdict(true, Hidden)
    else if present[rel].inherited then Verdict(true, Inherited)
    else if present[rel].nullExtended then Verdict(true, NullExtended)
    else if !columns(rel, att).value then Verdict(true, MayBeNull)
    else Verdict(false, Declared)
  }

  /** `row` may be behind a result row of the statement in this shape: it comes out of the
      joins and passes the tests that are in every shape. Of the row an UPDATE tests,
      nothing is left in the row it returns; of a hazardous statement's rows nothing is
      known. */
  ghost predicate Answers(cat: Catalog, w: Data, off: Shape, t: Stmt, tests: seq<NullTest>, update: bool, row: Row) {
    !t.hazard ==>
      Comes(cat, w, off, t, [], row) &&
      (!update ==> forall c <- tests :: c.skeleton ==> Passes(cat, w, t, c, row))
  }

  ghost predicate Passes(cat: Catalog, w: Data, t: Stmt, c: NullTest, row: Row) {
    Instance(cat, t, c.item).Some? ==> ValueAt(w, t, [], row, AtTable(c.item), Instance(cat, t, c.item).value, c.att).Some?
  }

  lemma {:induction false} InstanceLeads(cat: Catalog, t: Stmt, k: nat, oid: nat)
    requires Instance(cat, t, k) == Some(oid)
    ensures Leads(cat, t, [], AtTable(k), oid)
  {
  }

  /** A narrowed column is not NULL along any path. */
  lemma {:induction false} NarrowedIsNonNull(cat: Catalog, w: Data, off: Shape, t: Stmt, tests: seq<NullTest>, present: Present, c: NullTest, row: Row, path: Path, oid: nat, att: nat)
    requires Get(present, oid) == Total(Walk(cat, t, [], false), oid)
    requires !t.hazard && Answers(cat, w, off, t, tests, false, row) && Leads(cat, t, [], path, oid)
    requires c in tests && Narrows(cat, t, present, c, oid, att)
    ensures ValueAt(w, t, [], row, path, oid, att).Some?
  {
    hide Walk, Comes, Total;
    InstanceLeads(cat, t, c.item, oid);
    PoisonTotal(Walk(cat, t, [], false), oid);
    OnlyPath(cat, t, [], c.item, path, oid);
    assert Passes(cat, w, t, c, row);
  }

  /** The soundness of the verdicts: where the analysis judges a column non-null, no row of
      any shape is NULL there, whichever of its paths the engine attributes it to. */
  lemma {:induction false} VerdictSound(cat: Catalog, w: Data, off: Shape, t: Stmt, tests: seq<NullTest>, update: bool, untrusted: bool, present: Present,
                     columns: (nat, nat) -> Option<bool>, filtered: set<(nat, nat)>, row: Row, path: Path, oid: nat, att: nat)
    requires LevelsOk(w, off) && (t.hazard ==> untrusted)
    requires forall o, a :: columns(o, a) == Some(true) ==> w.notNull(o, a)
    requires forall o :: Get(present, o) == Total(Walk(cat, t, [], false), o)
    requires forall o: nat, a: nat :: (o, a) in filtered ==> !update && exists c <- tests :: Narrows(cat, t, present, c, o, a)
    requires Answers(cat, w, off, t, tests, update, row) && Leads(cat, t, [], path, oid)
    requires !SrcVerdict(untrusted, present, columns, filtered, oid, att).nullable
    ensures ValueAt(w, t, [], row, path, oid, att).Some?
  {
    hide Walk, Total, Comes, ValueAt, Leads, LevelsOk, Narrows, Clean;
    if (oid, att) in filtered {
      var c :| c in tests && Narrows(cat, t, present, c, oid, att);
      NarrowedIsNonNull(cat, w, off, t, tests, present, c, row, path, oid, att);
    } else {
      CleanTotal(Walk(cat, t, [], false), oid);
      assert Get(present, oid) == Total(Walk(cat, t, [], false), oid);
      CleanIsNonNull(cat, w, off, t, [], false, row, path, oid, att);
    }
  }

  /** One analysis, as the statement goes through it. */
  method Analyze(cat: Catalog, t: Stmt, tests: seq<NullTest>, update: bool, untrusted: bool, columns: (nat, nat) -> Option<bool>, asked: seq<(nat, nat)>)
    returns (verdicts: seq<Verdict>)
    requires DistinctNodes(AllSites(t, [])) && (t.hazard ==> untrusted)
    ensures |verdicts| == |asked|
    ensures forall w: Data, off: Shape, row: Row, path: Path, i: nat ::
      i < |asked| && LevelsOk(w, off) && Trusts(w, columns) && Answers(cat, w, off, t, tests, update, row) &&
      Leads(cat, t, [], path, asked[i].0) && !verdicts[i].nullable ==>
      ValueAt(w, t, [], row, path, asked[i].0, asked[i].1).Some?
  {
    var present := PresenceOf(cat, t);
    var filtered := FilteredColumns(cat, t, tests, update, present);
    verdicts := [];
    for i := 0 to |asked|
      invariant |verdicts| == i
      invariant forall j :: 0 <= j < i ==> verdicts[j] == SrcVerdict(untrusted, present, columns, filtered, asked[j].0, asked[j].1)
    {
      verdicts := verdicts + [SrcVerdict(untrusted, present, columns, filtered, asked[i].0, asked[i].1)];
    }
    hide Walk, Total, Answers, ValueAt, Leads, LevelsOk, Narrows, SrcVerdict;
    forall w: Data, off: Shape, row: Row, path: Path, i: nat
      | i < |asked| && LevelsOk(w, off) && Trusts(w, columns) && Answers(cat, w, off, t, tests, update, row) &&
        Leads(cat, t, [], path, asked[i].0) && !verdicts[i].nullable
      ensures ValueAt(w, t, [], row, path, asked[i].0, asked[i].1).Some?
    {
      VerdictSound(cat, w, off, t, tests, update, untrusted, present, columns, filtered, row, path, asked[i].0, asked[i].1);
    }
  }

  /** The declared constraints hold of the stored tuples. */
  ghost predicate Trusts(w: Data, columns: (nat, nat) -> Option<bool>) {
    forall o, a :: columns(o, a) == Some(true) ==> w.notNull(o, a)
  }
}
