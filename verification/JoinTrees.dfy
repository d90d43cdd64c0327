/**
 Join trees and their rows. A FROM item is a relation, a parenthesized join, or a join
 whose right operand may itself be an unparenthesized join. Rows follow section 7.5 of
 SQL-92: outer joins keep the unmatched rows of the preserved side and extend them with
 nulls.
 */
module JoinTrees {
  import opened Core
  import opened SqlTokens
  import opened SqlGrammar
  import opened JoinScanning

  datatype From =
    | Rel(id: nat, toks: seq<Tok>)
    | Sub(open: Tok, f: From, close: Tok)
    | Join(id: nat, l: From, kind: JoinKind, natural: bool, kws: seq<Tok>, r: From, qual: Qual)

  datatype Qual = NoQual | On(kw: Tok, e: Expr) | Using(kw: Tok, open: Tok, names: seq<Tok>, close: Tok)

  // ---------------------------------------------------------------- rows

  /** For each relation its tuple, or nothing where it is null-extended. */
  type Row = nat -> Option<int>

  /** The tuples of each relation, and the truth of each join's condition on a joined row:
      its ON, its USING, or the common columns of a NATURAL join. */
  datatype World = World(has: (nat, int) -> bool, holds: (nat, Row) -> bool)

  function Rels(f: From): set<nat> {
    match f
    case Rel(id, _) => {id}
    case Sub(_, g, _) => Rels(g)
    case Join(_, l, _, _, _, r, _) => Rels(l) + Rels(r)
  }

  function Joins(f: From): set<nat> {
    match f
    case Rel(_, _) => {}
    case Sub(_, g, _) => Joins(g)
    case Join(id, l, _, _, _, r, _) => Joins(l) + Joins(r) + {id}
  }

  /** Relations and joins are told apart by their numbers. */
  predicate Distinct(f: From) {
    match f
    case Rel(_, _) => true
    case Sub(_, g, _) => Distinct(g)
    case Join(id, l, _, _, _, r, _) =>
      Distinct(l) && Distinct(r) && Rels(l) !! Rels(r) && Joins(l) !! Joins(r) && id !in Joins(l) + Joins(r)
  }

  /** `a` on the given relations, `b` elsewhere. */
  function Mix(ids: set<nat>, a: Row, b: Row): Row { (k: nat) => if k in ids then a(k) else b(k) }

  predicate AllNull(row: Row, ids: set<nat>) { forall k <- ids :: row(k).None? }

  predicate KeepsLeft(k: JoinKind) { k.Left? || k.Full? }

  predicate KeepsRight(k: JoinKind) { k.Right? || k.Full? }

  /** No row of the right item matches this row of the left one. */
  ghost predicate UnmatchedLeft(w: World, id: nat, l: From, r: From, row: Row)
    decreases r, 1
  {
    forall s: Row :: Yields(w, r, s) ==> !w.holds(id, Mix(Rels(l), row, s))
  }

  ghost predicate UnmatchedRight(w: World, id: nat, l: From, r: From, row: Row)
    decreases l, 1
  {
    forall s: Row :: Yields(w, l, s) ==> !w.holds(id, Mix(Rels(l), s, row))
  }

  /** `row` shows a row of the item on the item's relations. A CROSS join has no condition. */
  ghost predicate Yields(w: World, f: From, row: Row)
    decreases f, 0
  {
    match f
    case Rel(id, _) => row(id).Some? && w.has(id, row(id).value)
    case Sub(_, g, _) => Yields(w, g, row)
    case Join(id, l, kind, _, _, r, _) =>
      (Yields(w, l, row) && Yields(w, r, row) && (kind.Cross? || w.holds(id, row))) ||
      (KeepsLeft(kind) && Yields(w, l, row) && AllNull(row, Rels(r)) && UnmatchedLeft(w, id, l, r, row)) ||
      (KeepsRight(kind) && Yields(w, r, row) && AllNull(row, Rels(l)) && UnmatchedRight(w, id, l, r, row))
  }

  // ---------------------------------------------------------------- scoping

  /** The row null-extends the relation, or its tuple satisfies the predicate. */
  predicate Scoped(row: Row, d: nat, p: int -> bool) { row(d).Some? ==> p(row(d).value) }

  /** The world after the predicate on `d` is conjoined to the ON of join `at`. What the
      predicate says of a null-extended relation does not matter here. */
  function Conjoin(w: World, at: nat, d: nat, p: int -> bool): World {
    w.(holds := (id: nat, row: Row) => w.holds(id, row) && (id == at ==> Scoped(row, d, p)))
  }

  ghost predicate AllScoped(w: World, f: From, d: nat, p: int -> bool) {
    forall row: Row :: Yields(w, f, row) ==> Scoped(row, d, p)
  }

  /** Scoping the ON of a join removes the unscoped tuples of an operand that the join does
      not preserve. */
  lemma {:induction false} OwnJoinScopes(w: World, f: From, d: nat, p: int -> bool)
    requires f.Join? && !f.kind.Cross? && d in Rels(f)
    requires (d in Rels(f.l) ==> !KeepsLeft(f.kind)) && (d in Rels(f.r) ==> !KeepsRight(f.kind))
    ensures AllScoped(Conjoin(w, f.id, d, p), f, d, p)
  {
    var w' := Conjoin(w, f.id, d, p);
    forall row: Row | Yields(w', f, row) ensures Scoped(row, d, p) {
      assert w'.holds(f.id, row) ==> Scoped(row, d, p);
    }
  }

  /** Everything further out only combines such rows, or leaves the whole group null. */
  lemma JoinKeepsScope(w: World, f: From, d: nat, p: int -> bool)
    requires f.Join? && ((d in Rels(f.l) && AllScoped(w, f.l, d, p)) || (d in Rels(f.r) && AllScoped(w, f.r, d, p)))
    ensures AllScoped(w, f, d, p)
  {
    hide UnmatchedLeft, UnmatchedRight;
    forall row: Row | Yields(w, f, row) ensures Scoped(row, d, p) {
      assert d in Rels(f.l) ==> Yields(w, f.l, row) || row(d).None?;
      assert d in Rels(f.r) ==> Yields(w, f.r, row) || row(d).None?;
    }
  }

  // ---------------------------------------------------------------- surviving rows

  function Never(v: int): bool { false }

  /** Every relation holds one tuple and every condition holds, but for the one that the
      predicate was conjoined to. */
  function Bare(at: nat, d: nat): World {
    Conjoin(World((id: nat, v: int) => v == 0, (id: nat, row: Row) => true), at, d, Never)
  }

  predicate FullOn(row: Row, ids: set<nat>) { forall k <- ids :: row(k) == Some(0) }

  /** Where every condition holds, the row of all tuples comes out. */
  lemma {:induction false} FullRowYields(f: From, at: nat, d: nat, row: Row)
    requires at !in Joins(f) && FullOn(row, Rels(f))
    ensures Yields(Bare(at, d), f, row)
    decreases f
  {
    hide UnmatchedLeft, UnmatchedRight;
    match f
    case Rel(_, _) =>
    case Sub(_, g, _) => FullRowYields(g, at, d, row);
    case Join(_, l, _, _, _, r, _) =>
      FullRowYields(l, at, d, row);
      FullRowYields(r, at, d, row);
  }

  /** A join that preserves its right operand lets an unscoped tuple there through,
      whatever is conjoined to its ON. */
  lemma {:induction false} PreservedRightLeaks(f: From, d: nat, row: Row)
    requires f.Join? && KeepsRight(f.kind) && Distinct(f) && d in Rels(f.r)
    requires FullOn(row, Rels(f.r)) && AllNull(row, Rels(f.l))
    ensures Yields(Bare(f.id, d), f, row)
  {
    FullRowYields(f.r, f.id, d, row);
    forall s: Row ensures !Bare(f.id, d).holds(f.id, Mix(Rels(f.l), s, row)) {
      assert Mix(Rels(f.l), s, row)(d) == Some(0) && !Never(0);
      assert !Scoped(Mix(Rels(f.l), s, row), d, Never);
    }
  }

  /** A row of an operand reaches the output next to the full row of the other side. */
  lemma {:induction false} LeftSurvives(f: From, at: nat, d: nat, row: Row)
    requires f.Join? && at !in Joins(f.r) && f.id != at
    requires Yields(Bare(at, d), f.l, row) && FullOn(row, Rels(f.r))
    ensures Yields(Bare(at, d), f, row)
  {
    FullRowYields(f.r, at, d, row);
  }

  lemma {:induction false} RightSurvives(f: From, at: nat, d: nat, row: Row)
    requires f.Join? && at !in Joins(f.l) && f.id != at
    requires Yields(Bare(at, d), f.r, row) && FullOn(row, Rels(f.l))
    ensures Yields(Bare(at, d), f, row)
  {
    FullRowYields(f.l, at, d, row);
  }
}
