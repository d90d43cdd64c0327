/**
 What a pattern matches on a directory tree without symbolic links: exactly the files
 whose path splits into the pattern's segments (internal/pathpat/pathpat.go).
 */
module PathTheorems {
  import opened Core
  import opened PathWalks

  // ---------------------------------------------------------------- segment assignments

  /** Segment `i` may consume `path[lo..hi]`. `**` takes any number of directories but
      pruned and dot ones; as the last segment it takes the file name too, whatever it
      is. */
  predicate Consumes(w: World, p: Pattern, i: nat, path: Path, span: (nat, nat))
    requires i < |p.segs|
  {
    var s := p.segs[i];
    span.0 <= span.1 <= |path| &&
    if s.recursive then
      if IsLast(p, i) then span.0 < span.1 && forall j :: span.0 <= j < span.1 - 1 ==> Walkable(path[j])
      else forall j :: span.0 <= j < span.1 ==> Walkable(path[j])
    else
      span.1 == span.0 + 1 && if s.literal then path[span.0] == s.glob else w.glob(s.glob, path[span.0])
  }

  /** The segments from `i` on consume the path from `lo` on, one behind the other. */
  predicate Assigned(w: World, p: Pattern, i: nat, path: Path, spans: seq<(nat, nat)>, lo: nat)
    requires i <= |p.segs| && |spans| == |p.segs|
    decreases |p.segs| - i
  {
    if i == |p.segs| then lo == |path|
    else spans[i].0 == lo && Consumes(w, p, i, path, spans[i]) && Assigned(w, p, i + 1, path, spans, spans[i].1)
  }

  /** A file of the project. */
  predicate IsFile(n: Node, path: Path) { At(n, path).Some? && !At(n, path).value.Dir? }

  ghost predicate Derives(w: World, p: Pattern, f: Found) {
    |f.spans| == |p.segs| && Assigned(w, p, 0, f.path, f.spans, 0) && IsFile(w.top, f.path)
  }

  // ---------------------------------------------------------------- plain trees

  predicate Plain(n: Node)
    decreases n, 1
  {
    match n
    case File => true
    case Link(_) => false
    case Dir(kids) => PlainKids(kids)
  }

  /** Names within a directory are distinct. */
  predicate PlainKids(kids: seq<Kid>)
    decreases kids, 0
  {
    kids == [] || (Plain(kids[0].node) && Find(kids[1..], kids[0].name).None? && PlainKids(kids[1..]))
  }

  lemma {:induction false} PlainKid(kids: seq<Kid>, k: nat)
    requires PlainKids(kids) && k < |kids|
    ensures Plain(kids[k].node) && Find(kids, kids[k].name) == Some(kids[k].node)
    decreases |kids|
  {
    hide Plain;
    if k > 0 {
      assert kids[1..][k - 1] == kids[k];
      PlainKid(kids[1..], k - 1);
      assert kids[k] in kids[1..];
    }
  }

  lemma {:induction false} FindIndex(kids: seq<Kid>, name: string) returns (k: nat)
    requires Find(kids, name).Some?
    ensures k < |kids| && kids[k].name == name && kids[k].node == Find(kids, name).value
    decreases |kids|
  {
    if kids[0].name == name {
      k := 0;
    } else {
      k := FindIndex(kids[1..], name);
      k := k + 1;
    }
  }

  lemma {:induction false} PlainFind(n: Node, name: string)
    requires Plain(n) && Find(Kids(n), name).Some?
    ensures Plain(Find(Kids(n), name).value) && !Find(Kids(n), name).value.Link?
  {
    var k := FindIndex(Kids(n), name);
    PlainKid(Kids(n), k);
  }

  lemma {:induction false} AtSnoc(n: Node, path: Path, name: string)
    ensures At(n, path + [name]) == if At(n, path).None? then None else Find(Kids(At(n, path).value), name)
    decreases |path|
  {
    if path == [] {
      assert path + [name] == [name] && [name][1..] == [];
    } else {
      assert (path + [name])[0] == path[0] && (path + [name])[1..] == path[1..] + [name];
      var c := Find(Kids(n), path[0]);
      if c.Some? {
        AtSnoc(c.value, path[1..], name);
      }
    }
  }

  /** On the way to a file there are only directories. */
  lemma {:induction false} AtPrefix(n: Node, path: Path, k: nat)
    requires At(n, path).Some? && k < |path|
    ensures At(n, path[..k]).Some? && Find(Kids(At(n, path[..k]).value), path[k]).Some?
    ensures At(n, path[..k + 1]) == Find(Kids(At(n, path[..k]).value), path[k])
    decreases |path|
  {
    if |path| == k + 1 {
      assert path == path[..k] + [path[k]] && path[..k + 1] == path;
      AtSnoc(n, path[..k], path[k]);
    } else {
      var front := path[..|path| - 1];
      assert path == front + [path[|path| - 1]];
      AtSnoc(n, front, path[|path| - 1]);
      AtPrefix(n, front, k);
      assert front[..k] == path[..k] && front[..k + 1] == path[..k + 1] && front[k] == path[k];
    }
  }

  /** Where the walk is: at a directory of the tree, with only shallower ones visited. */
  ghost predicate Here(w: World, rel: Path, n: Node, visited: set<Path>) {
    n.Dir? && Plain(n) && At(w.top, rel) == Some(n) && Targets(n) <= Targets(w.root) && forall key <- visited :: |key| <= |w.base| + |rel|
  }

  /** Entering takes exactly the subdirectories. */
  lemma {:induction false} EnterPlain(w: World, rel: Path, n: Node, name: string, visited: set<Path>)
    requires Here(w, rel, n, visited)
    ensures
      var e, c := Enter(w, rel, n, name, visited), Find(Kids(n), name);
      (e.Some? <==> c.Some? && c.value.Dir?) &&
      (e.Some? ==> e.value.1 == c.value && Here(w, rel + [name], e.value.1, visited + {e.value.0}))
  {
    var c := Find(Kids(n), name);
    AtSnoc(w.top, rel, name);
    if c.Some? {
      PlainFind(n, name);
      KidTargetsHave(Kids(n), Kid(name, c.value));
      if c.value.Dir? {
        assert |w.base + rel + [name]| == |w.base| + |rel| + 1;
      }
    }
  }

  lemma {:induction false} NotDirIsFile(w: World, rel: Path, n: Node, name: string)
    requires Plain(n) && At(w.top, rel) == Some(n) && Find(Kids(n), name).Some?
    ensures !IsDir(n, name) <==> IsFile(w.top, rel + [name])
  {
    PlainFind(n, name);
    AtSnoc(w.top, rel, name);
  }

  // ---------------------------------------------------------------- every derivation is an assignment

  /** The part of an assignment that a call from segment `si` at `rel` adds. */
  ghost predicate Adds(w: World, p: Pattern, si: nat, rel: Path, spans: seq<(nat, nat)>, f: Found) {
    si <= |p.segs| && |f.spans| == |p.segs| && |spans| == si && spans <= f.spans && rel <= f.path &&
    Assigned(w, p, si, f.path, f.spans, |rel|) && IsFile(w.top, f.path)
  }

  /** The same from inside a `**` that began at `start`. */
  ghost predicate AddsStar(w: World, p: Pattern, si: nat, rel: Path, spans: seq<(nat, nat)>, start: nat, f: Found) {
    si < |p.segs| && |f.spans| == |p.segs| && |spans| == si && spans <= f.spans && rel <= f.path &&
    Assigned(w, p, si, f.path, f.spans, start) && f.spans[si].1 >= |rel| && IsFile(w.top, f.path)
  }

  predicate WalkedFrom(rel: Path, start: nat) { start <= |rel| && forall j :: start <= j < |rel| ==> Walkable(rel[j]) }

  /** A pattern whose last segment names one file is reported without looking. */
  predicate LooksUp(p: Pattern) { p.segs != [] && (p.segs[|p.segs| - 1].recursive || !p.segs[|p.segs| - 1].literal) }

  lemma {:induction false} LastAssigned(w: World, p: Pattern, si: nat, path: Path, spans: seq<(nat, nat)>, lo: nat)
    requires IsLast(p, si) && |spans| == |p.segs|
    ensures Assigned(w, p, si, path, spans, lo) <==> spans[si].0 == lo && Consumes(w, p, si, path, spans[si]) && spans[si].1 == |path|
  {
    hide Consumes;
    assert Assigned(w, p, si + 1, path, spans, spans[si].1) <==> spans[si].1 == |path|;
  }

  lemma {:induction false} MatchSound(w: World, p: Pattern, si: nat, rel: Path, n: Node, visited: set<Path>, spans: seq<(nat, nat)>, f: Found)
    requires LooksUp(p) && si < |p.segs| && Here(w, rel, n, visited) && |spans| == si
    requires f in Match(w, p, si, rel, n, visited, spans)
    ensures Adds(w, p, si, rel, spans, f)
    decreases Open(w, visited), n, |p.segs| - si, 5, 0
  {
    hide Star, One, Globs, Targets, Plain, Open, At;
    if p.segs[si].recursive {
      StarSound(w, p, si, rel, n, visited, spans, |rel|, f);
    } else if p.segs[si].literal {
      OneSound(w, p, si, rel, n, visited, spans, p.segs[si].glob, f);
    } else {
      GlobsSound(w, p, si, rel, n, visited, spans, 0, f);
    }
  }

  lemma {:induction false} OneSound(w: World, p: Pattern, si: nat, rel: Path, n: Node, visited: set<Path>, spans: seq<(nat, nat)>, name: string, f: Found)
    requires LooksUp(p) && si < |p.segs| && Here(w, rel, n, visited) && |spans| == si && !p.segs[si].recursive
    requires if p.segs[si].literal then name == p.segs[si].glob else w.glob(p.segs[si].glob, name)
    requires IsLast(p, si) ==> Find(Kids(n), name).Some?
    requires f in One(w, p, si, rel, n, visited, spans, name)
    ensures Adds(w, p, si, rel, spans, f)
    decreases Open(w, visited), n, |p.segs| - si, 1, 0
  {
    hide Match, Targets, Plain, Open, At, Enter, IsDir;
    var spans' := spans + [(|rel|, |rel| + 1)];
    if IsLast(p, si) {
      NotDirIsFile(w, rel, n, name);
      assert f.spans == spans' && f.spans[si] == (|rel|, |rel| + 1);
      LastAssigned(w, p, si, f.path, f.spans, |rel|);
    } else {
      var e := Enter(w, rel, n, name, visited);
      EnterDecreases(w, rel, n, name, visited);
      EnterPlain(w, rel, n, name, visited);
      MatchSound(w, p, si + 1, rel + [name], e.value.1, visited + {e.value.0}, spans', f);
      Extended(w, p, si, rel, spans, name, f);
    }
  }

  lemma {:induction false} Extended(w: World, p: Pattern, si: nat, rel: Path, spans: seq<(nat, nat)>, name: string, f: Found)
    requires si < |p.segs| && |spans| == si && !p.segs[si].recursive
    requires if p.segs[si].literal then name == p.segs[si].glob else w.glob(p.segs[si].glob, name)
    requires Adds(w, p, si + 1, rel + [name], spans + [(|rel|, |rel| + 1)], f)
    ensures Adds(w, p, si, rel, spans, f)
  {
    hide IsFile;
    var spans' := spans + [(|rel|, |rel| + 1)];
    assert f.spans[si] == spans'[si] && f.path[|rel|] == (rel + [name])[|rel|];
    assert spans == spans'[..si] && spans' == f.spans[..si + 1] && f.spans[..si + 1][..si] == f.spans[..si];
    assert rel == (rel + [name])[..|rel|];
  }

  lemma {:induction false} GlobsSound(w: World, p: Pattern, si: nat, rel: Path, n: Node, visited: set<Path>, spans: seq<(nat, nat)>, k: nat, f: Found)
    requires LooksUp(p) && si < |p.segs| && Here(w, rel, n, visited) && |spans| == si && !p.segs[si].recursive && !p.segs[si].literal
    requires k <= |Kids(n)| && f in Globs(w, p, si, rel, n, visited, spans, k)
    ensures Adds(w, p, si, rel, spans, f)
    decreases Open(w, visited), n, |p.segs| - si, 2, |Kids(n)| - k
  {
    hide One, Targets, Open, At, Adds;
    if f in Globs(w, p, si, rel, n, visited, spans, k + 1) {
      GlobsSound(w, p, si, rel, n, visited, spans, k + 1, f);
    } else {
      PlainKid(Kids(n), k);
      OneSound(w, p, si, rel, n, visited, spans, Kids(n)[k].name, f);
    }
  }

  lemma {:induction false} StarSound(w: World, p: Pattern, si: nat, rel: Path, n: Node, visited: set<Path>, spans: seq<(nat, nat)>, start: nat, f: Found)
    requires LooksUp(p) && si < |p.segs| && Here(w, rel, n, visited) && |spans| == si && p.segs[si].recursive && WalkedFrom(rel, start)
    requires f in Star(w, p, si, rel, n, visited, spans, start)
    ensures AddsStar(w, p, si, rel, spans, start, f)
    decreases Open(w, visited), n, |p.segs| - si, 4, 0
  {
    hide Match, StarFiles, StarKids, Targets, Plain, Open, At, AddsStar;
    if f in StarKids(w, p, si, rel, n, visited, spans, start, 0) {
      KidsSound(w, p, si, rel, n, visited, spans, start, 0, f);
    } else if IsLast(p, si) {
      FilesSound(w, p, si, rel, n, visited, spans, start, 0, f);
    } else {
      MatchSound(w, p, si + 1, rel, n, visited, spans + [(start, |rel|)], f);
      Stopped(w, p, si, rel, spans, start, f);
    }
  }

  lemma {:induction false} Stopped(w: World, p: Pattern, si: nat, rel: Path, spans: seq<(nat, nat)>, start: nat, f: Found)
    requires si < |p.segs| - 1 && |spans| == si && p.segs[si].recursive && WalkedFrom(rel, start)
    requires Adds(w, p, si + 1, rel, spans + [(start, |rel|)], f)
    ensures AddsStar(w, p, si, rel, spans, start, f)
  {
    hide IsFile, Walkable;
    var spans' := spans + [(start, |rel|)];
    assert f.spans[si] == spans'[si];
    assert spans == spans'[..si] && spans' == f.spans[..si + 1] && f.spans[..si + 1][..si] == f.spans[..si];
    assert forall j :: start <= j < |rel| ==> f.path[j] == rel[j];
  }

  lemma {:induction false} FilesSound(w: World, p: Pattern, si: nat, rel: Path, n: Node, visited: set<Path>, spans: seq<(nat, nat)>, start: nat, k: nat, f: Found)
    requires IsLast(p, si) && Here(w, rel, n, visited) && |spans| == si && p.segs[si].recursive && WalkedFrom(rel, start)
    requires k <= |Kids(n)| && f in StarFiles(rel, n, spans, start, k)
    ensures AddsStar(w, p, si, rel, spans, start, f)
    decreases |Kids(n)| - k
  {
    hide Targets, At, Walkable, IsDir, IsFile;
    if f in StarFiles(rel, n, spans, start, k + 1) {
      FilesSound(w, p, si, rel, n, visited, spans, start, k + 1, f);
    } else {
      var name := Kids(n)[k].name;
      PlainKid(Kids(n), k);
      NotDirIsFile(w, rel, n, name);
      assert f == Found(rel + [name], spans + [(start, |rel| + 1)]);
      assert f.spans[si] == (start, |rel| + 1);
      assert forall j :: start <= j < |rel| ==> f.path[j] == rel[j];
      LastAssigned(w, p, si, f.path, f.spans, start);
    }
  }

  lemma {:induction false} KidsSound(w: World, p: Pattern, si: nat, rel: Path, n: Node, visited: set<Path>, spans: seq<(nat, nat)>, start: nat, k: nat, f: Found)
    requires LooksUp(p) && si < |p.segs| && Here(w, rel, n, visited) && |spans| == si && p.segs[si].recursive && WalkedFrom(rel, start)
    requires k <= |Kids(n)| && f in StarKids(w, p, si, rel, n, visited, spans, start, k)
    ensures AddsStar(w, p, si, rel, spans, start, f)
    decreases Open(w, visited), n, |p.segs| - si, 3, |Kids(n)| - k
  {
    hide StarKid, Targets, Plain, Open, At, AddsStar;
    if f in StarKids(w, p, si, rel, n, visited, spans, start, k + 1) {
      KidsSound(w, p, si, rel, n, visited, spans, start, k + 1, f);
    } else {
      KidSound(w, p, si, rel, n, visited, spans, start, Kids(n)[k].name, f);
    }
  }

  lemma {:induction false} KidSound(w: World, p: Pattern, si: nat, rel: Path, n: Node, visited: set<Path>, spans: seq<(nat, nat)>, start: nat, name: string, f: Found)
    requires LooksUp(p) && si < |p.segs| && Here(w, rel, n, visited) && |spans| == si && p.segs[si].recursive && WalkedFrom(rel, start)
    requires f in StarKid(w, p, si, rel, n, visited, spans, start, name)
    ensures AddsStar(w, p, si, rel, spans, start, f)
    decreases Open(w, visited), n, |p.segs| - si, 2, 0
  {
    hide Star, Targets, Plain, Open, At, Enter, Walkable;
    var e := Enter(w, rel, n, name, visited);
    EnterDecreases(w, rel, n, name, visited);
    EnterPlain(w, rel, n, name, visited);
    assert WalkedFrom(rel + [name], start);
    StarSound(w, p, si, rel + [name], e.value.1, visited + {e.value.0}, spans, start, f);
    assert rel == (rel + [name])[..|rel|];
  }

  // ---------------------------------------------------------------- every assignment is found

  lemma {:induction false} MatchComplete(w: World, p: Pattern, si: nat, rel: Path, n: Node, visited: set<Path>, f: Found)
    requires LooksUp(p) && si < |p.segs| && Here(w, rel, n, visited) && |f.spans| == |p.segs|
    requires Adds(w, p, si, rel, f.spans[..si], f)
    ensures f in Match(w, p, si, rel, n, visited, f.spans[..si])
    decreases Open(w, visited), n, |p.segs| - si, 5, 0
  {
    hide Star, One, Globs, Targets, Plain, Open, At, IsFile, Walkable;
    if p.segs[si].recursive {
      StarComplete(w, p, si, rel, n, visited, |rel|, f);
    } else {
      var name := f.path[|rel|];
      OneComplete(w, p, si, rel, n, visited, f);
      if !p.segs[si].literal {
        var k := NextKid(w, rel, n, f.path);
        GlobsComplete(w, p, si, rel, n, visited, 0, k, f);
      }
    }
  }

  /** The next name on the way to a file is one of the directory's. */
  lemma {:induction false} NextKid(w: World, rel: Path, n: Node, path: Path) returns (k: nat)
    requires At(w.top, rel) == Some(n) && IsFile(w.top, path) && rel < path
    ensures k < |Kids(n)| && Kids(n)[k].name == path[|rel|] && Find(Kids(n), path[|rel|]).Some?
  {
    hide Kids, Find, At;
    assert path[..|rel|] == rel;
    AtPrefix(w.top, path, |rel|);
    k := FindIndex(Kids(n), path[|rel|]);
  }

  lemma {:induction false} OneComplete(w: World, p: Pattern, si: nat, rel: Path, n: Node, visited: set<Path>, f: Found)
    requires LooksUp(p) && si < |p.segs| && Here(w, rel, n, visited) && |f.spans| == |p.segs| && !p.segs[si].recursive
    requires Adds(w, p, si, rel, f.spans[..si], f)
    ensures rel < f.path && f in One(w, p, si, rel, n, visited, f.spans[..si], f.path[|rel|])
    decreases Open(w, visited), n, |p.segs| - si, 1, 0
  {
    hide Match, Targets, Plain, Open, Enter, IsDir, Walkable;
    var name := f.path[|rel|];
    var spans' := f.spans[..si] + [(|rel|, |rel| + 1)];
    assert f.spans[..si + 1] == spans';
    Onward(w, rel, n, visited, f.path);
    if IsLast(p, si) {
      LastAssigned(w, p, si, f.path, f.spans, |rel|);
      assert f.path == rel + [name] && f.spans == spans';
    } else {
      var e := Enter(w, rel, n, name, visited);
      assert |f.path| > |rel| + 1 by { NeedsMore(w, p, si + 1, f.path, f.spans, |rel| + 1); }
      EnterDecreases(w, rel, n, name, visited);
      EnterPlain(w, rel, n, name, visited);
      assert rel + [name] == f.path[..|rel| + 1];
      MatchComplete(w, p, si + 1, rel + [name], e.value.1, visited + {e.value.0}, f);
    }
  }

  /** The next name is the file itself, or a directory that may be entered. */
  lemma {:induction false} Onward(w: World, rel: Path, n: Node, visited: set<Path>, path: Path)
    requires Here(w, rel, n, visited) && rel < path && IsFile(w.top, path)
    ensures |path| == |rel| + 1 ==> !IsDir(n, path[|rel|])
    ensures |path| > |rel| + 1 ==> Enter(w, rel, n, path[|rel|], visited).Some?
  {
    hide At, Find, Kids, Plain, Targets, Enter;
    var name := path[|rel|];
    assert path[..|rel|] == rel;
    AtPrefix(w.top, path, |rel|);
    EnterPlain(w, rel, n, name, visited);
    PlainFind(n, name);
    if |path| == |rel| + 1 {
      assert path == path[..|rel| + 1];
    } else {
      AtPrefix(w.top, path, |rel| + 1);
      OnlyDirsHaveKids(At(w.top, path[..|rel| + 1]).value, path[|rel| + 1]);
    }
  }

  lemma {:induction false} OnlyDirsHaveKids(n: Node, name: string)
    requires Find(Kids(n), name).Some?
    ensures n.Dir?
  {
  }

  /** The last segment consumes a name, so more segments mean more path. */
  lemma {:induction false} NeedsMore(w: World, p: Pattern, i: nat, path: Path, spans: seq<(nat, nat)>, lo: nat)
    requires LooksUp(p) && i < |p.segs| && |spans| == |p.segs| && Assigned(w, p, i, path, spans, lo)
    ensures lo < |path|
    decreases |p.segs| - i
  {
    hide Walkable;
    if i + 1 < |p.segs| {
      NeedsMore(w, p, i + 1, path, spans, spans[i].1);
    }
  }

  lemma {:induction false} GlobsComplete(w: World, p: Pattern, si: nat, rel: Path, n: Node, visited: set<Path>, j: nat, k: nat, f: Found)
    requires si < |p.segs| && |f.spans| == |p.segs| && Targets(n) <= Targets(w.root) && j <= k < |Kids(n)|
    requires w.glob(p.segs[si].glob, Kids(n)[k].name) && f in One(w, p, si, rel, n, visited, f.spans[..si], Kids(n)[k].name)
    ensures f in Globs(w, p, si, rel, n, visited, f.spans[..si], j)
    decreases k - j
  {
    hide One, Targets;
    if j < k {
      GlobsComplete(w, p, si, rel, n, visited, j + 1, k, f);
    }
  }

  lemma {:induction false} StarComplete(w: World, p: Pattern, si: nat, rel: Path, n: Node, visited: set<Path>, start: nat, f: Found)
    requires LooksUp(p) && si < |p.segs| && Here(w, rel, n, visited) && |f.spans| == |p.segs| && p.segs[si].recursive
    requires AddsStar(w, p, si, rel, f.spans[..si], start, f) && start <= |rel|
    ensures f in Star(w, p, si, rel, n, visited, f.spans[..si], start)
    decreases Open(w, visited), n, |p.segs| - si, 4, 0
  {
    hide Match, StarFiles, StarKids, StarKid, Targets, Plain, Open, At, IsFile, Walkable;
    var hi := f.spans[si].1;
    if !IsLast(p, si) && hi == |rel| {
      assert f.spans[..si + 1] == f.spans[..si] + [(start, |rel|)];
      MatchComplete(w, p, si + 1, rel, n, visited, f);
    } else {
      StarRoom(w, p, si, rel, start, f);
      var k := NextKid(w, rel, n, f.path);
      if |f.path| == |rel| + 1 {
        FilesComplete(w, p, si, rel, n, visited, start, 0, k, f);
      } else {
        KidComplete(w, p, si, rel, n, visited, start, f);
        KidsComplete(w, p, si, rel, n, visited, start, 0, k, f);
      }
    }
  }

  /** What is left for a `**` that does not stop here. */
  lemma {:induction false} StarRoom(w: World, p: Pattern, si: nat, rel: Path, start: nat, f: Found)
    requires LooksUp(p) && si < |p.segs| && |f.spans| == |p.segs| && p.segs[si].recursive
    requires AddsStar(w, p, si, rel, f.spans[..si], start, f) && start <= |rel| && (IsLast(p, si) || f.spans[si].1 != |rel|)
    requires At(w.top, rel).Some? && At(w.top, rel).value.Dir?
    ensures rel < f.path
    ensures |f.path| == |rel| + 1 ==> IsLast(p, si) && f == Found(f.path, f.spans[..si] + [(start, |rel| + 1)]) && f.path == rel + [f.path[|rel|]]
    ensures |f.path| > |rel| + 1 ==> Walkable(f.path[|rel|]) && f.spans[si].1 >= |rel| + 1
  {
    hide Walkable, At;
    if IsLast(p, si) {
      LastAssigned(w, p, si, f.path, f.spans, start);
      assert |f.path| == |rel| ==> f.path == rel;
      assert f.spans == f.spans[..si] + [f.spans[si]];
    } else {
      NeedsMore(w, p, si + 1, f.path, f.spans, f.spans[si].1);
    }
  }

  lemma {:induction false} FilesComplete(w: World, p: Pattern, si: nat, rel: Path, n: Node, visited: set<Path>, start: nat, j: nat, k: nat, f: Found)
    requires si < |p.segs| && |f.spans| == |p.segs| && Here(w, rel, n, visited) && j <= k < |Kids(n)| && IsFile(w.top, f.path)
    requires f == Found(rel + [Kids(n)[k].name], f.spans[..si] + [(start, |rel| + 1)])
    ensures f in StarFiles(rel, n, f.spans[..si], start, j)
    decreases k - j
  {
    hide Targets, At, IsDir, IsFile;
    if j < k {
      FilesComplete(w, p, si, rel, n, visited, start, j + 1, k, f);
    } else {
      PlainKid(Kids(n), k);
      NotDirIsFile(w, rel, n, Kids(n)[k].name);
    }
  }

  lemma {:induction false} KidComplete(w: World, p: Pattern, si: nat, rel: Path, n: Node, visited: set<Path>, start: nat, f: Found)
    requires LooksUp(p) && si < |p.segs| && Here(w, rel, n, visited) && |f.spans| == |p.segs| && p.segs[si].recursive
    requires AddsStar(w, p, si, rel, f.spans[..si], start, f) && start <= |rel|
    requires |f.path| > |rel| + 1 && Walkable(f.path[|rel|]) && f.spans[si].1 >= |rel| + 1
    ensures f in StarKid(w, p, si, rel, n, visited, f.spans[..si], start, f.path[|rel|])
    decreases Open(w, visited), n, |p.segs| - si, 2, 0
  {
    hide Star, Targets, Plain, Open, At, Enter, Walkable, IsFile, Assigned;
    var name := f.path[|rel|];
    Onward(w, rel, n, visited, f.path);
    var e := Enter(w, rel, n, name, visited);
    EnterDecreases(w, rel, n, name, visited);
    EnterPlain(w, rel, n, name, visited);
    assert rel + [name] == f.path[..|rel| + 1];
    StarComplete(w, p, si, rel + [name], e.value.1, visited + {e.value.0}, start, f);
  }

  lemma {:induction false} KidsComplete(w: World, p: Pattern, si: nat, rel: Path, n: Node, visited: set<Path>, start: nat, j: nat, k: nat, f: Found)
    requires si < |p.segs| && |f.spans| == |p.segs| && Targets(n) <= Targets(w.root) && j <= k < |Kids(n)|
    requires f in StarKid(w, p, si, rel, n, visited, f.spans[..si], start, Kids(n)[k].name)
    ensures f in StarKids(w, p, si, rel, n, visited, f.spans[..si], start, j)
    decreases k - j
  {
    hide StarKid, Targets;
    if j < k {
      KidsComplete(w, p, si, rel, n, visited, start, j + 1, k, f);
    }
  }

  // ---------------------------------------------------------------- exactness

  /** The derivations the walk tries are exactly the segment assignments of the project's
      files. */
  lemma {:induction false} DerivationsExact(w: World, p: Pattern, f: Found)
    requires LooksUp(p) && w.top.Dir? && Plain(w.top) && Targets(w.top) <= Targets(w.root)
    ensures f in Match(w, p, 0, [], w.top, {}, []) <==> Derives(w, p, f)
  {
    hide Match, Assigned, Plain, Targets, IsFile;
    assert Here(w, [], w.top, {});
    if f in Match(w, p, 0, [], w.top, {}, []) {
      MatchSound(w, p, 0, [], w.top, {}, [], f);
    }
    if Derives(w, p, f) {
      assert f.spans[..0] == [];
      MatchComplete(w, p, 0, [], w.top, {}, f);
    }
  }

  lemma {:induction false} AssignedInside(w: World, p: Pattern, i: nat, path: Path, spans: seq<(nat, nat)>, lo: nat, j: nat, k: nat)
    requires i <= j < k <= |p.segs| && |spans| == |p.segs| && Assigned(w, p, i, path, spans, lo)
    ensures lo <= spans[j].0 <= spans[k - 1].1 <= |path|
    decreases |p.segs| - i
  {
    hide Walkable;
    if i < j {
      AssignedInside(w, p, i + 1, path, spans, spans[i].1, j, k);
    } else if i + 1 < k {
      AssignedInside(w, p, i + 1, path, spans, spans[i].1, i + 1, k);
    }
  }

  /** A capture holds the names its segments consumed. */
  lemma {:induction false} CapturesNames(w: World, p: Pattern, f: Found, c: nat)
    requires Derives(w, p, f) && c < |p.caps| && p.caps[c].0 < p.caps[c].1 <= |p.segs|
    ensures
      var lo, hi := f.spans[p.caps[c].0].0, f.spans[p.caps[c].1 - 1].1;
      lo <= hi <= |f.path| && |ReportOf(p, f).captures| == |p.caps| && ReportOf(p, f).captures[c] == f.path[lo..hi]
  {
    AssignedInside(w, p, 0, f.path, f.spans, 0, p.caps[c].0, p.caps[c].1);
  }
}
