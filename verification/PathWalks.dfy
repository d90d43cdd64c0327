/**
 Expanding a query-file pattern against a directory tree (internal/pathpat/pathpat.go):
 the backtracking walk with its captures, and why it ends when symbolic links form
 cycles.
 */
module PathWalks {
  import opened Core

  /** One path segment of a pattern; `**` is recursive. */
  datatype Segment = Segment(glob: string, literal: bool, recursive: bool)

  /** Captures are ranges of segments. */
  datatype Pattern = Pattern(segs: seq<Segment>, caps: seq<(nat, nat)>)

  type Path = seq<string>

  /** A link leads to a directory, named by its real path, or to something else. */
  datatype Node = File | Link(to: Option<Path>) | Dir(kids: seq<Kid>)

  datatype Kid = Kid(name: string, node: Node)

  /** The file system, the project's directory with its real path, and `path.Match`. */
  datatype World = World(root: Node, base: Path, top: Node, glob: (string, string) -> bool)

  // ---------------------------------------------------------------- the tree

  function Kids(n: Node): (ks: seq<Kid>)
    ensures forall k <- ks :: k.node < n
  {
    if n.Dir? then n.kids else []
  }

  function Find(kids: seq<Kid>, name: string): (r: Option<Node>)
    ensures r.Some? ==> Kid(name, r.value) in kids
    ensures r.None? ==> forall k <- kids :: k.name != name
  {
    if kids == [] then None
    else if kids[0].name == name then
      assert kids[0] == Kid(name, kids[0].node);
      Some(kids[0].node)
    else Find(kids[1..], name)
  }

  function At(n: Node, path: Path): Option<Node>
    decreases |path|
  {
    if path == [] then Some(n)
    else
      var c := Find(Kids(n), path[0]);
      if c.None? then None else At(c.value, path[1..])
  }

  /** The directories that links lead to. */
  function Targets(n: Node): set<Path>
    decreases n, 1
  {
    match n
    case File => {}
    case Link(to) => if to.Some? then {to.value} else {}
    case Dir(kids) => KidTargets(kids)
  }

  function KidTargets(kids: seq<Kid>): set<Path>
    decreases kids, 0
  {
    if kids == [] then {} else Targets(kids[0].node) + KidTargets(kids[1..])
  }

  lemma {:induction false} KidTargetsHave(kids: seq<Kid>, k: Kid)
    requires k in kids
    ensures Targets(k.node) <= KidTargets(kids)
    decreases |kids|
  {
    hide Targets;
    if k != kids[0] {
      assert k in kids[1..];
      KidTargetsHave(kids[1..], k);
    }
  }

  lemma {:induction false} AtTargets(n: Node, path: Path)
    ensures At(n, path).Some? ==> Targets(At(n, path).value) <= Targets(n)
    decreases |path|
  {
    if path != [] {
      var c := Find(Kids(n), path[0]);
      if c.Some? {
        KidTargetsHave(Kids(n), Kid(path[0], c.value));
        AtTargets(c.value, path[1..]);
      }
    }
  }

  // ---------------------------------------------------------------- entering directories

  /** `isDir`: links are followed. */
  predicate IsDir(n: Node, name: string) {
    var c := Find(Kids(n), name);
    c.Some? && (c.value.Dir? || (c.value.Link? && c.value.to.Some?))
  }

  /** The directory behind a link. */
  function Linked(w: World, to: Path): Node {
    var n := At(w.root, to);
    if n.Some? then n.value else Dir([])
  }

  /** `enterDir`: the key under which the directory counts as visited, and the directory. A
      link is known by where it leads, a plain directory by its path. */
  function Enter(w: World, rel: Path, n: Node, name: string, visited: set<Path>): Option<(Path, Node)> {
    var c := Find(Kids(n), name);
    if c.None? || c.value.File? then None
    else if c.value.Dir? then
      var key := w.base + rel + [name];
      if key in visited then None else Some((key, c.value))
    else if c.value.to.None? || c.value.to.value in visited then None
    else Some((c.value.to.value, Linked(w, c.value.to.value)))
  }

  /** Links still unvisited. */
  function Open(w: World, visited: set<Path>): nat { |Targets(w.root) - visited| }

  lemma OpenShrinks(w: World, visited: set<Path>, key: Path)
    ensures Open(w, visited + {key}) <= Open(w, visited)
    ensures key in Targets(w.root) && key !in visited ==> Open(w, visited + {key}) < Open(w, visited)
  {
    var a, b := Targets(w.root) - visited, Targets(w.root) - (visited + {key});
    assert b == a - {key};
  }

  /** Entering uses up a link or goes down the tree. */
  lemma {:induction false} EnterDecreases(w: World, rel: Path, n: Node, name: string, visited: set<Path>)
    requires Targets(n) <= Targets(w.root) && Enter(w, rel, n, name, visited).Some?
    ensures
      var e := Enter(w, rel, n, name, visited).value;
      Targets(e.1) <= Targets(w.root) && Open(w, visited + {e.0}) <= Open(w, visited) &&
      (e.1 < n || Open(w, visited + {e.0}) < Open(w, visited))
  {
    hide Open;
    var c := Find(Kids(n), name).value;
    var e := Enter(w, rel, n, name, visited).value;
    KidTargetsHave(Kids(n), Kid(name, c));
    OpenShrinks(w, visited, e.0);
    if c.Link? {
      AtTargets(w.root, c.to.value);
    }
  }

  // ---------------------------------------------------------------- the walk

  /** A match: its path, and per pattern segment the names it consumed. */
  datatype Found = Found(path: Path, spans: seq<(nat, nat)>)

  const PRUNED := {".git", "node_modules", "vendor"}

  /** A directory `**` descends into. */
  predicate Walkable(name: string) { name !in PRUNED && !(name != "" && name[0] == '.') }

  predicate IsLast(p: Pattern, si: nat) { si == |p.segs| - 1 }

  /** `match`: the derivations from segment `si` on, in the order they are tried. */
  function Match(w: World, p: Pattern, si: nat, rel: Path, n: Node, visited: set<Path>, spans: seq<(nat, nat)>): seq<Found>
    requires si < |p.segs| && Targets(n) <= Targets(w.root)
    decreases Open(w, visited), n, |p.segs| - si, 5, 0
  {
    var s := p.segs[si];
    if s.recursive then Star(w, p, si, rel, n, visited, spans, |rel|)
    else if s.literal then One(w, p, si, rel, n, visited, spans, s.glob)
    else Globs(w, p, si, rel, n, visited, spans, 0)
  }

  /** The segment consumes `name`. */
  function One(w: World, p: Pattern, si: nat, rel: Path, n: Node, visited: set<Path>, spans: seq<(nat, nat)>, name: string): seq<Found>
    requires si < |p.segs| && Targets(n) <= Targets(w.root)
    decreases Open(w, visited), n, |p.segs| - si, 1, 0
  {
    var spans' := spans + [(|rel|, |rel| + 1)];
    if IsLast(p, si) then if IsDir(n, name) then [] else [Found(rel + [name], spans')]
    else
      var e := Enter(w, rel, n, name, visited);
      if e.None? then []
      else
        EnterDecreases(w, rel, n, name, visited);
        Match(w, p, si + 1, rel + [name], e.value.1, visited + {e.value.0}, spans')
  }

  function Globs(w: World, p: Pattern, si: nat, rel: Path, n: Node, visited: set<Path>, spans: seq<(nat, nat)>, k: nat): seq<Found>
    requires si < |p.segs| && Targets(n) <= Targets(w.root) && k <= |Kids(n)|
    decreases Open(w, visited), n, |p.segs| - si, 2, |Kids(n)| - k
  {
    if k == |Kids(n)| then []
    else
      (if w.glob(p.segs[si].glob, Kids(n)[k].name) then One(w, p, si, rel, n, visited, spans, Kids(n)[k].name) else []) +
      Globs(w, p, si, rel, n, visited, spans, k + 1)
  }

  /** `matchStar`: names from `start` on are consumed; stop here, or take one more. */
  function Star(w: World, p: Pattern, si: nat, rel: Path, n: Node, visited: set<Path>, spans: seq<(nat, nat)>, start: nat): seq<Found>
    requires si < |p.segs| && Targets(n) <= Targets(w.root)
    decreases Open(w, visited), n, |p.segs| - si, 4, 0
  {
    (if IsLast(p, si) then StarFiles(rel, n, spans, start, 0)
     else Match(w, p, si + 1, rel, n, visited, spans + [(start, |rel|)])) +
    StarKids(w, p, si, rel, n, visited, spans, start, 0)
  }

  function StarFiles(rel: Path, n: Node, spans: seq<(nat, nat)>, start: nat, k: nat): seq<Found>
    requires k <= |Kids(n)|
    decreases |Kids(n)| - k
  {
    if k == |Kids(n)| then []
    else
      (if IsDir(n, Kids(n)[k].name) then [] else [Found(rel + [Kids(n)[k].name], spans + [(start, |rel| + 1)])]) +
      StarFiles(rel, n, spans, start, k + 1)
  }

  function StarKids(w: World, p: Pattern, si: nat, rel: Path, n: Node, visited: set<Path>, spans: seq<(nat, nat)>, start: nat, k: nat): seq<Found>
    requires si < |p.segs| && Targets(n) <= Targets(w.root) && k <= |Kids(n)|
    decreases Open(w, visited), n, |p.segs| - si, 3, |Kids(n)| - k
  {
    if k == |Kids(n)| then []
    else StarKid(w, p, si, rel, n, visited, spans, start, Kids(n)[k].name) + StarKids(w, p, si, rel, n, visited, spans, start, k + 1)
  }

  function StarKid(w: World, p: Pattern, si: nat, rel: Path, n: Node, visited: set<Path>, spans: seq<(nat, nat)>, start: nat, name: string): seq<Found>
    requires si < |p.segs| && Targets(n) <= Targets(w.root)
    decreases Open(w, visited), n, |p.segs| - si, 2, 0
  {
    var e := Enter(w, rel, n, name, visited);
    if !Walkable(name) || e.None? then []
    else
      EnterDecreases(w, rel, n, name, visited);
      Star(w, p, si, rel + [name], e.value.1, visited + {e.value.0}, spans, start)
  }

  // ---------------------------------------------------------------- the budget

  /** How many directory entries the same walk examines. */
  function MatchCost(w: World, p: Pattern, si: nat, rel: Path, n: Node, visited: set<Path>): nat
    requires si < |p.segs| && Targets(n) <= Targets(w.root)
    decreases Open(w, visited), n, |p.segs| - si, 5, 0
  {
    var s := p.segs[si];
    if s.recursive then StarCost(w, p, si, rel, n, visited)
    else if s.literal then 1 + OneCost(w, p, si, rel, n, visited, s.glob)
    else |Kids(n)| + GlobsCost(w, p, si, rel, n, visited, 0)
  }

  function OneCost(w: World, p: Pattern, si: nat, rel: Path, n: Node, visited: set<Path>, name: string): nat
    requires si < |p.segs| && Targets(n) <= Targets(w.root)
    decreases Open(w, visited), n, |p.segs| - si, 1, 0
  {
    var e := Enter(w, rel, n, name, visited);
    if IsLast(p, si) || e.None? then 0
    else
      EnterDecreases(w, rel, n, name, visited);
      MatchCost(w, p, si + 1, rel + [name], e.value.1, visited + {e.value.0})
  }

  function GlobsCost(w: World, p: Pattern, si: nat, rel: Path, n: Node, visited: set<Path>, k: nat): nat
    requires si < |p.segs| && Targets(n) <= Targets(w.root) && k <= |Kids(n)|
    decreases Open(w, visited), n, |p.segs| - si, 2, |Kids(n)| - k
  {
    if k == |Kids(n)| then 0
    else
      (if w.glob(p.segs[si].glob, Kids(n)[k].name) then OneCost(w, p, si, rel, n, visited, Kids(n)[k].name) else 0) +
      GlobsCost(w, p, si, rel, n, visited, k + 1)
  }

  function StarCost(w: World, p: Pattern, si: nat, rel: Path, n: Node, visited: set<Path>): nat
    requires si < |p.segs| && Targets(n) <= Targets(w.root)
    decreases Open(w, visited), n, |p.segs| - si, 4, 0
  {
    (if IsLast(p, si) then |Kids(n)| else MatchCost(w, p, si + 1, rel, n, visited)) + |Kids(n)| + KidsCost(w, p, si, rel, n, visited, 0)
  }

  function KidsCost(w: World, p: Pattern, si: nat, rel: Path, n: Node, visited: set<Path>, k: nat): nat
    requires si < |p.segs| && Targets(n) <= Targets(w.root) && k <= |Kids(n)|
    decreases Open(w, visited), n, |p.segs| - si, 3, |Kids(n)| - k
  {
    if k == |Kids(n)| then 0
    else KidCost(w, p, si, rel, n, visited, Kids(n)[k].name) + KidsCost(w, p, si, rel, n, visited, k + 1)
  }

  function KidCost(w: World, p: Pattern, si: nat, rel: Path, n: Node, visited: set<Path>, name: string): nat
    requires si < |p.segs| && Targets(n) <= Targets(w.root)
    decreases Open(w, visited), n, |p.segs| - si, 2, 0
  {
    var e := Enter(w, rel, n, name, visited);
    if !Walkable(name) || e.None? then 0
    else
      EnterDecreases(w, rel, n, name, visited);
      StarCost(w, p, si, rel + [name], e.value.1, visited + {e.value.0})
  }

  // ---------------------------------------------------------------- what is reported

  datatype Reported = Reported(path: Path, captures: seq<Path>)

  /** The names a capture's segments consumed. */
  function Capture(f: Found, c: (nat, nat)): Path {
    if c.0 < |f.spans| && 0 < c.1 <= |f.spans| && f.spans[c.0].0 <= f.spans[c.1 - 1].1 <= |f.path|
    then f.path[f.spans[c.0].0..f.spans[c.1 - 1].1] else []
  }

  function ReportOf(p: Pattern, f: Found): Reported {
    Reported(f.path, seq(|p.caps|, i requires 0 <= i < |p.caps| => Capture(f, p.caps[i])))
  }

  predicate Has(ms: seq<Reported>, path: Path) { exists m <- ms :: m.path == path }

  /** `emit`: the first derivation of a path wins. */
  function Emit(p: Pattern, ms: seq<Reported>, f: Found): seq<Reported> {
    if Has(ms, f.path) then ms else ms + [ReportOf(p, f)]
  }

  function EmitAll(p: Pattern, ms: seq<Reported>, fs: seq<Found>): seq<Reported>
    decreases |fs|
  {
    if fs == [] then ms else EmitAll(p, Emit(p, ms, fs[0]), fs[1..])
  }

  lemma {:induction false} EmitConcat(p: Pattern, ms: seq<Reported>, fs: seq<Found>, gs: seq<Found>)
    ensures EmitAll(p, ms, fs + gs) == EmitAll(p, EmitAll(p, ms, fs), gs)
    decreases |fs|
  {
    hide Emit;
    if fs == [] {
      assert fs + gs == gs;
    } else {
      assert (fs + gs)[0] == fs[0] && (fs + gs)[1..] == fs[1..] + gs;
      EmitConcat(p, Emit(p, ms, fs[0]), fs[1..], gs);
    }
  }

  predicate NoRepeats(ms: seq<Reported>) { forall i, j :: 0 <= i < j < |ms| ==> ms[i].path != ms[j].path }

  /** Every reported match is one of the derivations, every derived path is reported, and
      none twice. */
  lemma {:induction false} EmitExact(p: Pattern, ms: seq<Reported>, fs: seq<Found>)
    requires NoRepeats(ms)
    ensures var out := EmitAll(p, ms, fs);
      NoRepeats(out) && ms <= out &&
      (forall f <- fs :: Has(out, f.path)) &&
      forall m <- out :: m in ms || exists f <- fs :: m == ReportOf(p, f)
    decreases |fs|
  {
    hide Capture;
    if fs != [] {
      var ms' := Emit(p, ms, fs[0]);
      assert NoRepeats(ms') by {
        if !Has(ms, fs[0].path) { assert forall i :: 0 <= i < |ms| ==> ms[i] in ms; }
      }
      EmitExact(p, ms', fs[1..]);
      var out := EmitAll(p, ms, fs);
      forall f | f in fs ensures Has(out, f.path) {
        if f == fs[0] {
          HasMore(ms', out, f.path);
        } else {
          assert f in fs[1..];
        }
      }
      forall m | m in out && m !in ms ensures exists f <- fs :: m == ReportOf(p, f) {
        if m in ms' {
          assert m == ReportOf(p, fs[0]) && fs[0] in fs;
        } else {
          var f :| f in fs[1..] && m == ReportOf(p, f);
          assert f in fs;
        }
      }
    }
  }

  lemma HasMore(ms: seq<Reported>, out: seq<Reported>, path: Path)
    requires Has(ms, path) && ms <= out
    ensures Has(out, path)
  {
    var m :| m in ms && m.path == path;
    assert m in out;
  }

  // ---------------------------------------------------------------- the walker

  class Walker {
    const w: World
    const p: Pattern
    const cap: nat
    var names: Path
    var starts: seq<nat>
    var ends: seq<nat>
    var matches: seq<Reported>
    var emitted: set<Path>
    var visited: set<Path>
    var budget: nat

    constructor (w: World, p: Pattern, cap: nat)
      ensures this.w == w && this.p == p && this.cap == cap && Valid()
      ensures names == [] && matches == [] && visited == {} && budget == 0
    {
      this.w, this.p, this.cap := w, p, cap;
      names, matches, emitted, visited, budget := [], [], {}, {}, 0;
      starts, ends := seq(|p.segs|, i => 0), seq(|p.segs|, i => 0);
    }

    ghost predicate Valid()
      reads this
    {
      |starts| == |p.segs| && |ends| == |p.segs| && forall path :: path in emitted <==> Has(matches, path)
    }

    /** What the first `si` segments consumed. */
    function Spans(si: nat): (s: seq<(nat, nat)>)
      requires si <= |starts| && si <= |ends|
      reads this`starts, this`ends
      ensures |s| == si && forall i :: 0 <= i < si ==> s[i] == (starts[i], ends[i])
    {
      var a, b := starts, ends;
      seq(si, i requires 0 <= i < si => (a[i], b[i]))
    }

    /** `spend`. */
    method Spend(n: nat) returns (ok: bool)
      modifies this`budget
      ensures ok <==> budget <= cap
      ensures budget == old(budget) + n
    {
      budget := budget + n;
      ok := budget <= cap;
    }

    /** `emit`. */
    method EmitHere()
      requires Valid()
      modifies this`matches, this`emitted
      ensures Valid() && matches == Emit(p, old(matches), Found(names, Spans(|p.segs|)))
    {
      if names in emitted {
        return;
      }
      var f := Found(names, Spans(|p.segs|));
      var captures := [];
      for i := 0 to |p.caps|
        invariant |captures| == i && forall j :: 0 <= j < i ==> captures[j] == Capture(f, p.caps[j])
      {
        captures := captures + [Capture(f, p.caps[i])];
      }
      assert captures == ReportOf(p, f).captures;
      HasSnoc(matches, Reported(names, captures));
      emitted := emitted + {names};
      matches := matches + [Reported(names, captures)];
    }

    /** `match`. */
    method MatchAt(si: nat, rel: Path, n: Node) returns (ok: bool)
      requires Valid() && si < |p.segs| && names == rel && Targets(n) <= Targets(w.root)
      requires budget <= cap
      modifies this
      ensures Valid() && (ok <==> old(budget) + MatchCost(w, p, si, rel, n, old(visited)) <= cap)
      ensures ok ==> budget == old(budget) + MatchCost(w, p, si, rel, n, old(visited))
      ensures ok ==> names == rel && visited == old(visited) && starts[..si] == old(starts[..si]) && ends[..si] == old(ends[..si])
      ensures ok ==> matches == EmitAll(p, old(matches), Match(w, p, si, rel, n, old(visited), old(Spans(si))))
      decreases Open(w, visited), n, |p.segs| - si, 5, 0
    {
      hide Targets, Open, One, Star, Globs, EmitAll, OneCost, StarCost, GlobsCost;
      starts := starts[si := |names|];
      if p.segs[si].recursive {
        assert Spans(si) == old(Spans(si));
        ok := MatchStar(si, rel, n, |rel|);
      } else if p.segs[si].literal {
        ok := Spend(1);
        if ok {
          assert Spans(si) == old(Spans(si));
          ok := TakeOne(si, rel, n, p.segs[si].glob);
        }
      } else {
        ok := Spend(|Kids(n)|);
        if ok {
          assert Spans(si) == old(Spans(si));
          ok := TakeGlobs(si, rel, n);
        }
      }
    }

    /** One name for segment `si`: a match if it is the last one, else on in that
        directory. */
    method TakeOne(si: nat, rel: Path, n: Node, name: string) returns (ok: bool)
      requires Valid() && si < |p.segs| && names == rel && starts[si] == |rel| && Targets(n) <= Targets(w.root)
      requires budget <= cap
      modifies this
      ensures Valid() && (ok <==> old(budget) + OneCost(w, p, si, rel, n, old(visited), name) <= cap)
      ensures ok ==> budget == old(budget) + OneCost(w, p, si, rel, n, old(visited), name)
      ensures ok ==> names == rel && visited == old(visited) && starts[..si + 1] == old(starts[..si + 1]) && ends[..si] == old(ends[..si])
      ensures ok ==> matches == EmitAll(p, old(matches), One(w, p, si, rel, n, old(visited), old(Spans(si)), name))
      decreases Open(w, visited), n, |p.segs| - si, 1, 0
    {
      hide Targets, Open, Match, Emit, Enter, IsDir, MatchCost;
      names := names + [name];
      ends := ends[si := |names|];
      ghost var spans := old(Spans(si)) + [(|rel|, |rel| + 1)];
      assert Spans(si + 1) == spans;
      ok := true;
      if IsLast(p, si) {
        EmitOne(p, matches, Found(names, spans));
        if !IsDir(n, name) {
          EmitHere();
        }
      } else {
        var e := Enter(w, rel, n, name, visited);
        if e.Some? {
          EnterDecreases(w, rel, n, name, visited);
          EnterFresh(w, rel, n, name, visited);
          visited := visited + {e.value.0};
          ok := MatchAt(si + 1, rel + [name], e.value.1);
          visited := visited - {e.value.0};
        }
      }
      names := rel;
    }

    method TakeGlobs(si: nat, rel: Path, n: Node) returns (ok: bool)
      requires Valid() && si < |p.segs| && names == rel && starts[si] == |rel| && Targets(n) <= Targets(w.root)
      requires budget <= cap
      modifies this
      ensures Valid() && (ok <==> old(budget) + GlobsCost(w, p, si, rel, n, old(visited), 0) <= cap)
      ensures ok ==> budget == old(budget) + GlobsCost(w, p, si, rel, n, old(visited), 0)
      ensures ok ==> names == rel && visited == old(visited) && starts[..si] == old(starts[..si]) && ends[..si] == old(ends[..si])
      ensures ok ==> matches == EmitAll(p, old(matches), Globs(w, p, si, rel, n, old(visited), old(Spans(si)), 0))
      decreases Open(w, visited), n, |p.segs| - si, 2, 0
    {
      hide Targets, Open, One, EmitAll;
      var kids := Kids(n);
      ghost var spans, seen := Spans(si), visited;
      for k := 0 to |kids|
        invariant Valid() && names == rel && visited == seen && starts[si] == |rel| && Spans(si) == spans
        invariant starts[..si] == old(starts[..si]) && ends[..si] == old(ends[..si])
        invariant budget <= cap && budget + GlobsCost(w, p, si, rel, n, seen, k) == old(budget) + GlobsCost(w, p, si, rel, n, seen, 0)
        invariant EmitAll(p, old(matches), Globs(w, p, si, rel, n, seen, spans, 0)) == EmitAll(p, matches, Globs(w, p, si, rel, n, seen, spans, k))
      {
        GlobsUnfold(w, p, si, rel, n, seen, spans, k, matches);
        if w.glob(p.segs[si].glob, kids[k].name) {
          ghost var before, s, e := matches, starts, ends;
          ok := TakeOne(si, rel, n, kids[k].name);
          if !ok {
            return;
          }
          assert starts[..si] == starts[..si + 1][..si] && s[..si] == s[..si + 1][..si];
          assert starts[si] == starts[..si + 1][si];
          SameSpans(starts, ends, s, e, si);
        }
      }
      NothingEmitted(p, matches);
      ok := true;
    }

    /** `matchStar`. */
    method MatchStar(si: nat, rel: Path, n: Node, start: nat) returns (ok: bool)
      requires Valid() && si < |p.segs| && names == rel && starts[si] == start && Targets(n) <= Targets(w.root)
      requires budget <= cap
      modifies this
      ensures Valid() && (ok <==> old(budget) + StarCost(w, p, si, rel, n, old(visited)) <= cap)
      ensures ok ==> budget == old(budget) + StarCost(w, p, si, rel, n, old(visited))
      ensures ok ==> names == rel && visited == old(visited) && starts[..si + 1] == old(starts[..si + 1]) && ends[..si] == old(ends[..si])
      ensures ok ==> matches == EmitAll(p, old(matches), Star(w, p, si, rel, n, old(visited), old(Spans(si)), start))
      decreases Open(w, visited), n, |p.segs| - si, 4, 0
    {
      hide Targets, Open, Match, EmitAll, StarFiles, StarKids;
      ends := ends[si := |names|];
      ghost var spans, seen, s, e := old(Spans(si)), visited, starts, ends;
      assert Spans(si) == spans && Spans(si + 1) == spans + [(start, |rel|)];
      StarUnfolds(w, p, si, rel, n, seen, spans, start, matches);
      if IsLast(p, si) {
        ok := Spend(|Kids(n)|);
        if !ok {
          return;
        }
        TakeFiles(si, rel, n, start);
        SameSpans(starts, ends, s, e, si);
      } else {
        ok := MatchAt(si + 1, rel, n);
        if !ok {
          return;
        }
        assert starts[..si] == starts[..si + 1][..si] && s[..si] == s[..si + 1][..si];
        assert ends[..si] == ends[..si + 1][..si] && e[..si] == e[..si + 1][..si];
        assert starts[si] == starts[..si + 1][si];
        SameSpans(starts, ends, s, e, si);
      }
      assert Spans(si) == spans;
      ok := Spend(|Kids(n)|);
      if !ok {
        return;
      }
      assert Spans(si) == spans;
      ok := TakeKids(si, rel, n, start);
    }

    /** A final `**` consumes the file name too. */
    method TakeFiles(si: nat, rel: Path, n: Node, start: nat)
      requires Valid() && IsLast(p, si) && names == rel && starts[si] == start
      modifies this`names, this`ends, this`matches, this`emitted
      ensures Valid() && names == rel && ends[..si] == old(ends[..si])
      ensures matches == EmitAll(p, old(matches), StarFiles(rel, n, old(Spans(si)), start, 0))
    {
      hide EmitAll, Emit, IsDir;
      var kids := Kids(n);
      ghost var spans := Spans(si);
      for k := 0 to |kids|
        invariant Valid() && names == rel && Spans(si) == spans && ends[..si] == old(ends[..si])
        invariant EmitAll(p, old(matches), StarFiles(rel, n, spans, start, 0)) == EmitAll(p, matches, StarFiles(rel, n, spans, start, k))
      {
        FilesUnfold(p, rel, n, spans, start, k, matches);
        if !IsDir(n, kids[k].name) {
          names := names + [kids[k].name];
          ends := ends[si := |names|];
          assert Spans(|p.segs|) == spans + [(start, |rel| + 1)];
          EmitHere();
          names := rel;
          ends := ends[si := |names|];
        }
      }
      NothingEmitted(p, matches);
    }

    method TakeKids(si: nat, rel: Path, n: Node, start: nat) returns (ok: bool)
      requires Valid() && si < |p.segs| && names == rel && starts[si] == start && Targets(n) <= Targets(w.root)
      requires budget <= cap
      modifies this
      ensures Valid() && (ok <==> old(budget) + KidsCost(w, p, si, rel, n, old(visited), 0) <= cap)
      ensures ok ==> budget == old(budget) + KidsCost(w, p, si, rel, n, old(visited), 0)
      ensures ok ==> names == rel && visited == old(visited) && starts[..si + 1] == old(starts[..si + 1]) && ends[..si] == old(ends[..si])
      ensures ok ==> matches == EmitAll(p, old(matches), StarKids(w, p, si, rel, n, old(visited), old(Spans(si)), start, 0))
      decreases Open(w, visited), n, |p.segs| - si, 3, 0
    {
      hide Targets, Open, EmitAll, StarKid;
      var kids := Kids(n);
      ghost var spans, seen := Spans(si), visited;
      for k := 0 to |kids|
        invariant Valid() && names == rel && visited == seen && Spans(si) == spans
        invariant starts[..si + 1] == old(starts[..si + 1]) && ends[..si] == old(ends[..si])
        invariant budget <= cap && budget + KidsCost(w, p, si, rel, n, seen, k) == old(budget) + KidsCost(w, p, si, rel, n, seen, 0)
        invariant EmitAll(p, old(matches), StarKids(w, p, si, rel, n, seen, spans, start, 0)) == EmitAll(p, matches, StarKids(w, p, si, rel, n, seen, spans, start, k))
      {
        KidsUnfold(w, p, si, rel, n, seen, spans, start, k, matches);
        ghost var s, e := starts, ends;
        assert starts[si] == starts[..si + 1][si];
        ok := TakeKid(si, rel, n, start, kids[k].name);
        if !ok {
          return;
        }
        assert starts[..si] == starts[..si + 1][..si] && s[..si] == s[..si + 1][..si];
        SameSpans(starts, ends, s, e, si);
      }
      NothingEmitted(p, matches);
      ok := true;
    }

    method TakeKid(si: nat, rel: Path, n: Node, start: nat, name: string) returns (ok: bool)
      requires Valid() && si < |p.segs| && names == rel && starts[si] == start && Targets(n) <= Targets(w.root)
      requires budget <= cap
      modifies this
      ensures Valid() && (ok <==> old(budget) + KidCost(w, p, si, rel, n, old(visited), name) <= cap)
      ensures ok ==> budget == old(budget) + KidCost(w, p, si, rel, n, old(visited), name)
      ensures ok ==> names == rel && visited == old(visited) && starts[..si + 1] == old(starts[..si + 1]) && ends[..si] == old(ends[..si])
      ensures ok ==> matches == EmitAll(p, old(matches), StarKid(w, p, si, rel, n, old(visited), old(Spans(si)), start, name))
      decreases Open(w, visited), n, |p.segs| - si, 2, 0
    {
      hide Targets, Open, Star, Enter, Walkable;
      ok := true;
      if !Walkable(name) {
        return;
      }
      var e := Enter(w, rel, n, name, visited);
      if e.None? {
        return;
      }
      EnterDecreases(w, rel, n, name, visited);
      EnterFresh(w, rel, n, name, visited);
      visited := visited + {e.value.0};
      names := names + [name];
      ok := MatchStar(si, rel + [name], e.value.1, start);
      names := rel;
      if ok {
        ends := ends[si := |names|];
      }
      visited := visited - {e.value.0};
    }
  }

  lemma {:induction false} HasSnoc(ms: seq<Reported>, m: Reported)
    ensures forall path :: Has(ms + [m], path) <==> Has(ms, path) || path == m.path
  {
    assert m in ms + [m];
    forall path | Has(ms, path) ensures Has(ms + [m], path) {
      HasMore(ms, ms + [m], path);
    }
  }

  lemma {:induction false} EmitOne(p: Pattern, ms: seq<Reported>, f: Found)
    ensures EmitAll(p, ms, [f]) == Emit(p, ms, f) && EmitAll(p, ms, []) == ms
  {
    hide Emit;
    assert [f][1..] == [];
  }

  lemma {:induction false} NothingEmitted(p: Pattern, ms: seq<Reported>)
    ensures EmitAll(p, ms, []) == ms
  {
  }

  lemma {:induction false} EnterFresh(w: World, rel: Path, n: Node, name: string, visited: set<Path>)
    requires Enter(w, rel, n, name, visited).Some?
    ensures visited + {Enter(w, rel, n, name, visited).value.0} - {Enter(w, rel, n, name, visited).value.0} == visited
  {
  }

  lemma {:induction false} SameSpans(a: seq<nat>, b: seq<nat>, c: seq<nat>, d: seq<nat>, si: nat)
    requires si <= |a| && si <= |b| && si <= |c| && si <= |d| && a[..si] == c[..si] && b[..si] == d[..si]
    ensures forall i :: 0 <= i < si ==> a[i] == c[i] && b[i] == d[i]
  {
    assert forall i :: 0 <= i < si ==> a[i] == a[..si][i] && b[i] == b[..si][i];
  }

  lemma {:induction false} GlobsUnfold(w: World, p: Pattern, si: nat, rel: Path, n: Node, visited: set<Path>, spans: seq<(nat, nat)>, k: nat, ms: seq<Reported>)
    requires si < |p.segs| && Targets(n) <= Targets(w.root) && k < |Kids(n)|
    ensures
      EmitAll(p, ms, Globs(w, p, si, rel, n, visited, spans, k)) ==
      EmitAll(p, if w.glob(p.segs[si].glob, Kids(n)[k].name) then EmitAll(p, ms, One(w, p, si, rel, n, visited, spans, Kids(n)[k].name)) else ms,
              Globs(w, p, si, rel, n, visited, spans, k + 1))
  {
    hide One, EmitAll, Targets;
    var these := if w.glob(p.segs[si].glob, Kids(n)[k].name) then One(w, p, si, rel, n, visited, spans, Kids(n)[k].name) else [];
    EmitConcat(p, ms, these, Globs(w, p, si, rel, n, visited, spans, k + 1));
    NothingEmitted(p, ms);
  }

  lemma {:induction false} FilesUnfold(p: Pattern, rel: Path, n: Node, spans: seq<(nat, nat)>, start: nat, k: nat, ms: seq<Reported>)
    requires k < |Kids(n)|
    ensures
      EmitAll(p, ms, StarFiles(rel, n, spans, start, k)) ==
      EmitAll(p, if IsDir(n, Kids(n)[k].name) then ms else Emit(p, ms, Found(rel + [Kids(n)[k].name], spans + [(start, |rel| + 1)])),
              StarFiles(rel, n, spans, start, k + 1))
  {
    hide EmitAll, Emit, IsDir;
    var f := Found(rel + [Kids(n)[k].name], spans + [(start, |rel| + 1)]);
    EmitConcat(p, ms, if IsDir(n, Kids(n)[k].name) then [] else [f], StarFiles(rel, n, spans, start, k + 1));
    EmitOne(p, ms, f);
  }

  lemma {:induction false} KidsUnfold(w: World, p: Pattern, si: nat, rel: Path, n: Node, visited: set<Path>, spans: seq<(nat, nat)>, start: nat, k: nat, ms: seq<Reported>)
    requires si < |p.segs| && Targets(n) <= Targets(w.root) && k < |Kids(n)|
    ensures
      EmitAll(p, ms, StarKids(w, p, si, rel, n, visited, spans, start, k)) ==
      EmitAll(p, EmitAll(p, ms, StarKid(w, p, si, rel, n, visited, spans, start, Kids(n)[k].name)),
              StarKids(w, p, si, rel, n, visited, spans, start, k + 1))
  {
    hide StarKid, EmitAll, Targets;
    EmitConcat(p, ms, StarKid(w, p, si, rel, n, visited, spans, start, Kids(n)[k].name), StarKids(w, p, si, rel, n, visited, spans, start, k + 1));
  }

  lemma {:induction false} StarUnfolds(w: World, p: Pattern, si: nat, rel: Path, n: Node, visited: set<Path>, spans: seq<(nat, nat)>, start: nat, ms: seq<Reported>)
    requires si < |p.segs| && Targets(n) <= Targets(w.root)
    ensures
      EmitAll(p, ms, Star(w, p, si, rel, n, visited, spans, start)) ==
      EmitAll(p, EmitAll(p, ms, if IsLast(p, si) then StarFiles(rel, n, spans, start, 0) else Match(w, p, si + 1, rel, n, visited, spans + [(start, |rel|)])),
              StarKids(w, p, si, rel, n, visited, spans, start, 0))
  {
    hide StarFiles, Match, StarKids, EmitAll, Targets;
    var here := if IsLast(p, si) then StarFiles(rel, n, spans, start, 0) else Match(w, p, si + 1, rel, n, visited, spans + [(start, |rel|)]);
    EmitConcat(p, ms, here, StarKids(w, p, si, rel, n, visited, spans, start, 0));
  }

  /** `Walk`, up to the sort by path. It ends whatever links there are, and gives up exactly
      when more entries than the cap would have to be examined. */
  method Walk(w: World, p: Pattern, cap: nat) returns (found: Option<seq<Reported>>)
    requires p.segs != [] && Targets(w.top) <= Targets(w.root)
    ensures found ==
      if MatchCost(w, p, 0, [], w.top, {}) <= cap then Some(EmitAll(p, [], Match(w, p, 0, [], w.top, {}, []))) else None
  {
    var walker := new Walker(w, p, cap);
    ghost var spans := walker.Spans(0);
    assert spans == [];
    var ok := walker.MatchAt(0, [], w.top);
    found := if ok then Some(walker.matches) else None;
  }
}
