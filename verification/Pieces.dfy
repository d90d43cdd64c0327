/**
 Placeholder emission, once, for any kind of bind source. Both emitters of the
 system turn a list of pieces into SQL text: the renderer numbers parameter names,
 the composer numbers bind-plan entries. `Run` is the meaning both are proved to
 have; `RenamingKeepsText` is why they agree.
 */
module Pieces {
  import opened Digits

  datatype Style = Dollar | Question

  datatype Piece<+S> = Lit(text: string) | Ph(src: S)

  datatype Emitted<+S> = Emitted(text: string, binds: seq<S>)

  function Nothing<S>(): Emitted<S> { Emitted("", []) }

  /** Position of the first occurrence of `x`, or `|s|`. */
  function Find<S(==)>(s: seq<S>, x: S): (k: nat)
    ensures k <= |s|
    ensures k < |s| ==> s[k] == x
    ensures forall j :: 0 <= j < k ==> s[j] != x
    ensures k == |s| <==> x !in s
  {
    if s == [] || s[0] == x then 0 else 1 + Find(s[1..], x)
  }

  /** The number a source gets and the binds afterwards. */
  function Number<S(==)>(style: Style, binds: seq<S>, src: S): (nat, seq<S>) {
    if style.Question? || src !in binds then (|binds| + 1, binds + [src])
    else (Find(binds, src) + 1, binds)
  }

  function Token(style: Style, number: nat): string {
    if style.Question? then "?" else "$" + Dec(number)
  }

  function Step<S(==)>(style: Style, st: Emitted<S>, p: Piece<S>): Emitted<S> {
    match p
    case Lit(t) => Emitted(st.text + t, st.binds)
    case Ph(src) =>
      var (n, binds) := Number(style, st.binds, src);
      Emitted(st.text + Token(style, n), binds)
  }

  function Run<S(==)>(style: Style, st: Emitted<S>, ps: seq<Piece<S>>): Emitted<S>
    decreases |ps|
  {
    if ps == [] then st else Run(style, Step(style, st, ps[0]), ps[1..])
  }

  lemma {:induction false} RunConcat<S>(style: Style, st: Emitted<S>, ps: seq<Piece<S>>, qs: seq<Piece<S>>)
    ensures Run(style, st, ps + qs) == Run(style, Run(style, st, ps), qs)
    decreases |ps|
  {
    if ps == [] {
      assert ps + qs == qs;
    } else {
      assert (ps + qs)[0] == ps[0] && (ps + qs)[1..] == ps[1..] + qs;
      RunConcat(style, Step(style, st, ps[0]), ps[1..], qs);
    }
  }

  /** The way emission loops use it: one more piece. */
  /** Bind plans only grow while a statement is emitted. */
  lemma {:induction false} RunGrows<S>(style: Style, st: Emitted<S>, ps: seq<Piece<S>>)
    ensures st.binds <= Run(style, st, ps).binds
    decreases |ps|
  {
    if ps != [] {
      RunGrows(style, Step(style, st, ps[0]), ps[1..]);
    }
  }

  /** Two emissions that differ in how sources are named only. */
  ghost predicate Aligned<S(!new), T(!new)>(ps: seq<Piece<S>>, qs: seq<Piece<T>>, same: (S, T) -> bool) {
    |ps| == |qs| &&
    forall i :: 0 <= i < |ps| ==> AlignedAt(ps[i], qs[i], same)
  }

  ghost predicate AlignedAt<S(!new), T(!new)>(p: Piece<S>, q: Piece<T>, same: (S, T) -> bool) {
    match (p, q)
    case (Lit(t), Lit(u)) => t == u
    case (Ph(s), Ph(t)) => same(s, t)
    case _ => false
  }

  /** `same` neither splits nor merges sources. */
  ghost predicate OneToOne<S(!new), T(!new)>(same: (S, T) -> bool) {
    forall s, s', t, t' :: same(s, t) && same(s', t') ==> (s == s' <==> t == t')
  }

  ghost predicate Paired<S(!new), T(!new)>(a: seq<S>, b: seq<T>, same: (S, T) -> bool) {
    |a| == |b| && forall i :: 0 <= i < |a| ==> same(a[i], b[i])
  }

  lemma {:induction false} FindPaired<S(!new), T(!new)>(a: seq<S>, b: seq<T>, s: S, t: T, same: (S, T) -> bool)
    requires Paired(a, b, same) && same(s, t) && OneToOne(same)
    ensures Find(a, s) == Find(b, t)
  {
    if a != [] {
      assert same(a[0], b[0]);
      if a[0] != s {
        FindPaired(a[1..], b[1..], s, t, same);
      }
    }
  }

  lemma StepAligned<S(!new), T(!new)>(
      style: Style, st: Emitted<S>, su: Emitted<T>, p: Piece<S>, q: Piece<T>, same: (S, T) -> bool)
    requires st.text == su.text && Paired(st.binds, su.binds, same)
    requires AlignedAt(p, q, same)
    requires style.Dollar? ==> OneToOne(same)
    ensures Step(style, st, p).text == Step(style, su, q).text
    ensures Paired(Step(style, st, p).binds, Step(style, su, q).binds, same)
  {
    if style.Dollar? && p.Ph? {
      FindPaired(st.binds, su.binds, p.src, q.src, same);
    }
  }

  /** The conformance argument of the two emitters: aligned pieces give the same
      bytes and, entry by entry, the same bind plan. Dollar style reuses numbers, so
      there the sources must correspond one to one; question style never looks. */
  lemma {:induction false} RenamingKeepsText<S(!new), T(!new)>(
      style: Style, st: Emitted<S>, su: Emitted<T>, ps: seq<Piece<S>>, qs: seq<Piece<T>>, same: (S, T) -> bool)
    requires st.text == su.text && Paired(st.binds, su.binds, same)
    requires Aligned(ps, qs, same)
    requires style.Dollar? ==> OneToOne(same)
    ensures Run(style, st, ps).text == Run(style, su, qs).text
    ensures Paired(Run(style, st, ps).binds, Run(style, su, qs).binds, same)
    decreases |ps|
  {
    if ps != [] {
      assert AlignedAt(ps[0], qs[0], same);
      StepAligned(style, st, su, ps[0], qs[0], same);
      hide Step;
      RenamingKeepsText(style, Step(style, st, ps[0]), Step(style, su, qs[0]), ps[1..], qs[1..], same);
    }
  }

  lemma AlignedConcat<S(!new), T(!new)>(
      ps: seq<Piece<S>>, ps': seq<Piece<S>>, qs: seq<Piece<T>>, qs': seq<Piece<T>>, same: (S, T) -> bool)
    requires Aligned(ps, qs, same) && Aligned(ps', qs', same)
    ensures Aligned(ps + ps', qs + qs', same)
  {
  }

  /** The number each placeholder of `ps` is printed with, in order of appearance. */
  function Numbers<S(==)>(style: Style, binds: seq<S>, ps: seq<Piece<S>>): seq<nat>
    decreases |ps|
  {
    if ps == [] then []
    else if ps[0].Lit? then Numbers(style, binds, ps[1..])
    else
      var (n, binds') := Number(style, binds, ps[0].src);
      [n] + Numbers(style, binds', ps[1..])
  }

  function Sources<S>(ps: seq<Piece<S>>): seq<S> {
    if ps == [] then []
    else if ps[0].Lit? then Sources(ps[1..])
    else [ps[0].src] + Sources(ps[1..])
  }

  /** Whatever number a placeholder carries, that entry of the finished bind plan is
      the source the placeholder was emitted for. */
  lemma {:induction false} NumbersResolve<S>(style: Style, st: Emitted<S>, ps: seq<Piece<S>>)
    ensures
      var ns, src, plan := Numbers(style, st.binds, ps), Sources(ps), Run(style, st, ps).binds;
      |ns| == |src| && forall i :: 0 <= i < |ns| ==> 1 <= ns[i] <= |plan| && plan[ns[i] - 1] == src[i]
    decreases |ps|
  {
    if ps != [] {
      var st' := Step(style, st, ps[0]);
      NumbersResolve(style, st', ps[1..]);
      RunGrows(style, st', ps[1..]);
    }
  }
}
