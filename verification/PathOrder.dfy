/**
 Which split supplies the captures when a path has several: the walk tries the shorter
 `**` first, and the first derivation of a path wins (internal/pathpat/pathpat.go).
 */
module PathOrder {
  import opened Core
  import opened PathWalks
  import opened PathTheorems

  /** Equal, or shorter at the first segment where they differ. */
  predicate NoLater(a: seq<(nat, nat)>, b: seq<(nat, nat)>) {
    a == b || exists i :: 0 <= i < |a| && i < |b| && a[..i] == b[..i] && a[i].1 < b[i].1
  }

  /** Derivations of the same path come in that order. */
  ghost predicate InTurn(fs: seq<Found>) {
    forall i, j :: 0 <= i < j < |fs| && fs[i].path == fs[j].path ==> NoLater(fs[i].spans, fs[j].spans)
  }

  lemma TurnConcat(a: seq<Found>, b: seq<Found>)
    requires InTurn(a) && InTurn(b) && forall f <- a, g <- b :: f.path == g.path ==> NoLater(f.spans, g.spans)
    ensures InTurn(a + b)
  {
    hide NoLater;
    forall i, j | 0 <= i < j < |a + b| && (a + b)[i].path == (a + b)[j].path ensures NoLater((a + b)[i].spans, (a + b)[j].spans) {
      if i < |a| <= j {
        assert a[i] in a && b[j - |a|] in b;
      }
    }
  }

  lemma {:induction false} KidsApart(kids: seq<Kid>, j: nat, k: nat)
    requires PlainKids(kids) && j < k < |kids|
    ensures kids[j].name != kids[k].name
    decreases |kids|
  {
    hide Plain;
    if j > 0 {
      KidsApart(kids[1..], j - 1, k - 1);
    } else {
      assert kids[1..][k - 1] == kids[k] && kids[k] in kids[1..];
    }
  }

  /** The match goes through this name. */
  predicate Through(f: Found, rel: Path, name: string) { |f.path| > |rel| && f.path[|rel|] == name }

  lemma {:induction false} OneThrough(w: World, p: Pattern, si: nat, rel: Path, n: Node, visited: set<Path>, spans: seq<(nat, nat)>, name: string, f: Found)
    requires LooksUp(p) && si < |p.segs| && Here(w, rel, n, visited) && |spans| == si && f in One(w, p, si, rel, n, visited, spans, name)
    ensures Through(f, rel, name)
  {
    hide Match, Targets, Plain, Open, At, Enter, IsDir, Assigned, IsFile;
    if !IsLast(p, si) {
      var e := Enter(w, rel, n, name, visited);
      EnterDecreases(w, rel, n, name, visited);
      EnterPlain(w, rel, n, name, visited);
      MatchSound(w, p, si + 1, rel + [name], e.value.1, visited + {e.value.0}, spans + [(|rel|, |rel| + 1)], f);
      assert f.path[|rel|] == (rel + [name])[|rel|];
    }
  }

  lemma {:induction false} KidThrough(w: World, p: Pattern, si: nat, rel: Path, n: Node, visited: set<Path>, spans: seq<(nat, nat)>, start: nat, name: string, f: Found)
    requires LooksUp(p) && si < |p.segs| && Here(w, rel, n, visited) && |spans| == si && p.segs[si].recursive && WalkedFrom(rel, start)
    requires f in StarKid(w, p, si, rel, n, visited, spans, start, name)
    ensures Through(f, rel, name) && |f.spans| == |p.segs| && spans <= f.spans && f.spans[si].0 == start && f.spans[si].1 > |rel|
    ensures IsLast(p, si) ==> |f.path| > |rel| + 1
  {
    hide Star, Targets, Plain, Open, At, Enter, Walkable, IsFile;
    var e := Enter(w, rel, n, name, visited);
    EnterDecreases(w, rel, n, name, visited);
    EnterPlain(w, rel, n, name, visited);
    assert WalkedFrom(rel + [name], start);
    var f' := rel + [name];
    StarSound(w, p, si, f', e.value.1, visited + {e.value.0}, spans, start, f);
    assert f.path[|rel|] == f'[|rel|];
    if IsLast(p, si) {
      LastAssigned(w, p, si, f.path, f.spans, start);
      DeeperFile(w, p, si, f', e.value.1, visited + {e.value.0}, spans, start, f);
    }
  }

  /** Behind a last `**` a file name still follows. */
  lemma {:induction false} DeeperFile(w: World, p: Pattern, si: nat, rel: Path, n: Node, visited: set<Path>, spans: seq<(nat, nat)>, start: nat, f: Found)
    requires LooksUp(p) && IsLast(p, si) && Here(w, rel, n, visited) && |spans| == si && p.segs[si].recursive && WalkedFrom(rel, start)
    requires f in Star(w, p, si, rel, n, visited, spans, start)
    ensures |f.path| > |rel|
  {
    hide StarKids, StarFiles, Targets, Plain, Open, At, Assigned, Consumes;
    StarSound(w, p, si, rel, n, visited, spans, start, f);
    assert At(w.top, rel) == Some(n) && n.Dir?;
    assert |f.path| == |rel| ==> f.path == rel;
  }

  lemma {:induction false} GlobsThrough(w: World, p: Pattern, si: nat, rel: Path, n: Node, visited: set<Path>, spans: seq<(nat, nat)>, k: nat, f: Found) returns (j: nat)
    requires LooksUp(p) && si < |p.segs| && Here(w, rel, n, visited) && |spans| == si && k <= |Kids(n)| && f in Globs(w, p, si, rel, n, visited, spans, k)
    ensures k <= j < |Kids(n)| && Through(f, rel, Kids(n)[j].name)
    decreases |Kids(n)| - k
  {
    hide One, Targets, Open, At, Plain;
    if f in Globs(w, p, si, rel, n, visited, spans, k + 1) {
      j := GlobsThrough(w, p, si, rel, n, visited, spans, k + 1, f);
    } else {
      j := k;
      OneThrough(w, p, si, rel, n, visited, spans, Kids(n)[k].name, f);
    }
  }

  lemma {:induction false} KidsThrough(w: World, p: Pattern, si: nat, rel: Path, n: Node, visited: set<Path>, spans: seq<(nat, nat)>, start: nat, k: nat, f: Found) returns (j: nat)
    requires LooksUp(p) && si < |p.segs| && Here(w, rel, n, visited) && |spans| == si && p.segs[si].recursive && WalkedFrom(rel, start)
    requires k <= |Kids(n)| && f in StarKids(w, p, si, rel, n, visited, spans, start, k)
    ensures k <= j < |Kids(n)| && f in StarKid(w, p, si, rel, n, visited, spans, start, Kids(n)[j].name)
    decreases |Kids(n)| - k
  {
    hide StarKid, Targets, Open, At, Plain;
    if f in StarKids(w, p, si, rel, n, visited, spans, start, k + 1) {
      j := KidsThrough(w, p, si, rel, n, visited, spans, start, k + 1, f);
    } else {
      j := k;
    }
  }

  lemma {:induction false} MatchTurns(w: World, p: Pattern, si: nat, rel: Path, n: Node, visited: set<Path>, spans: seq<(nat, nat)>)
    requires LooksUp(p) && si < |p.segs| && Here(w, rel, n, visited) && |spans| == si
    ensures InTurn(Match(w, p, si, rel, n, visited, spans))
    decreases Open(w, visited), n, |p.segs| - si, 5, 0
  {
    hide Star, One, Globs, Targets, Plain, Open, At, InTurn;
    if p.segs[si].recursive {
      StarTurns(w, p, si, rel, n, visited, spans, |rel|);
    } else if p.segs[si].literal {
      OneTurns(w, p, si, rel, n, visited, spans, p.segs[si].glob);
    } else {
      GlobsTurns(w, p, si, rel, n, visited, spans, 0);
    }
  }

  lemma {:induction false} OneTurns(w: World, p: Pattern, si: nat, rel: Path, n: Node, visited: set<Path>, spans: seq<(nat, nat)>, name: string)
    requires LooksUp(p) && si < |p.segs| && Here(w, rel, n, visited) && |spans| == si
    ensures InTurn(One(w, p, si, rel, n, visited, spans, name))
    decreases Open(w, visited), n, |p.segs| - si, 1, 0
  {
    hide Match, Targets, Plain, Open, At, Enter, IsDir;
    if !IsLast(p, si) {
      var e := Enter(w, rel, n, name, visited);
      if e.Some? {
        EnterDecreases(w, rel, n, name, visited);
        EnterPlain(w, rel, n, name, visited);
        MatchTurns(w, p, si + 1, rel + [name], e.value.1, visited + {e.value.0}, spans + [(|rel|, |rel| + 1)]);
      }
    }
  }

  lemma {:induction false} GlobsTurns(w: World, p: Pattern, si: nat, rel: Path, n: Node, visited: set<Path>, spans: seq<(nat, nat)>, k: nat)
    requires LooksUp(p) && si < |p.segs| && Here(w, rel, n, visited) && |spans| == si && k <= |Kids(n)|
    ensures InTurn(Globs(w, p, si, rel, n, visited, spans, k))
    decreases Open(w, visited), n, |p.segs| - si, 2, |Kids(n)| - k
  {
    hide One, Targets, Open, At, InTurn, NoLater;
    if k < |Kids(n)| {
      var name := Kids(n)[k].name;
      var a := if w.glob(p.segs[si].glob, name) then One(w, p, si, rel, n, visited, spans, name) else [];
      var b := Globs(w, p, si, rel, n, visited, spans, k + 1);
      NothingInTurn();
      OneTurns(w, p, si, rel, n, visited, spans, name);
      GlobsTurns(w, p, si, rel, n, visited, spans, k + 1);
      forall f, g | f in a && g in b ensures f.path != g.path {
        OneThrough(w, p, si, rel, n, visited, spans, name, f);
        var j := GlobsThrough(w, p, si, rel, n, visited, spans, k + 1, g);
        KidsApart(Kids(n), k, j);
      }
      TurnConcat(a, b);
    } else {
      NothingInTurn();
    }
  }

  lemma NothingInTurn()
    ensures InTurn([])
  {
  }

  lemma {:induction false} StarTurns(w: World, p: Pattern, si: nat, rel: Path, n: Node, visited: set<Path>, spans: seq<(nat, nat)>, start: nat)
    requires LooksUp(p) && si < |p.segs| && Here(w, rel, n, visited) && |spans| == si && p.segs[si].recursive && WalkedFrom(rel, start)
    ensures InTurn(Star(w, p, si, rel, n, visited, spans, start))
    decreases Open(w, visited), n, |p.segs| - si, 4, 0
  {
    hide Match, StarFiles, StarKids, Targets, Plain, Open, At, InTurn, NoLater, WalkedFrom, LooksUp;
    var a := if IsLast(p, si) then StarFiles(rel, n, spans, start, 0) else Match(w, p, si + 1, rel, n, visited, spans + [(start, |rel|)]);
    var b := StarKids(w, p, si, rel, n, visited, spans, start, 0);
    if IsLast(p, si) {
      FilesTurns(w, rel, n, visited, spans, start, 0);
    } else {
      MatchTurns(w, p, si + 1, rel, n, visited, spans + [(start, |rel|)]);
    }
    KidsTurns(w, p, si, rel, n, visited, spans, start, 0);
    forall f, g | f in a && g in b && f.path == g.path ensures NoLater(f.spans, g.spans) {
      var j := KidsThrough(w, p, si, rel, n, visited, spans, start, 0, g);
      KidThrough(w, p, si, rel, n, visited, spans, start, Kids(n)[j].name, g);
      StopFirst(w, p, si, rel, n, visited, spans, start, f, g);
    }
    TurnConcat(a, b);
  }

  /** Stopping here comes before taking one more directory. */
  lemma {:induction false} StopFirst(w: World, p: Pattern, si: nat, rel: Path, n: Node, visited: set<Path>, spans: seq<(nat, nat)>, start: nat, f: Found, g: Found)
    requires LooksUp(p) && si < |p.segs| && Here(w, rel, n, visited) && |spans| == si && f.path == g.path
    requires if IsLast(p, si) then f in StarFiles(rel, n, spans, start, 0) && |g.path| > |rel| + 1
             else f in Match(w, p, si + 1, rel, n, visited, spans + [(start, |rel|)])
    requires |g.spans| == |p.segs| && spans <= g.spans && g.spans[si].0 == start && g.spans[si].1 > |rel|
    ensures NoLater(f.spans, g.spans)
  {
    hide Match, StarFiles, Targets, Plain, Open, At, Assigned, IsFile;
    if IsLast(p, si) {
      FileNames(rel, n, spans, start, 0, f);
      assert false;
    } else {
      var spans' := spans + [(start, |rel|)];
      MatchSound(w, p, si + 1, rel, n, visited, spans', f);
      assert f.spans[si] == spans'[si];
      assert f.spans[..si] == spans'[..si] == spans == g.spans[..si];
    }
  }

  lemma {:induction false} FileNames(rel: Path, n: Node, spans: seq<(nat, nat)>, start: nat, k: nat, f: Found)
    requires k <= |Kids(n)| && f in StarFiles(rel, n, spans, start, k)
    ensures |f.path| == |rel| + 1 && exists j :: k <= j < |Kids(n)| && f.path[|rel|] == Kids(n)[j].name
    decreases |Kids(n)| - k
  {
    hide IsDir;
    if f in StarFiles(rel, n, spans, start, k + 1) {
      FileNames(rel, n, spans, start, k + 1, f);
    }
  }

  lemma {:induction false} FilesTurns(w: World, rel: Path, n: Node, visited: set<Path>, spans: seq<(nat, nat)>, start: nat, k: nat)
    requires Here(w, rel, n, visited) && k <= |Kids(n)|
    ensures InTurn(StarFiles(rel, n, spans, start, k))
    decreases |Kids(n)| - k
  {
    hide IsDir, At, Targets, NoLater;
    if k < |Kids(n)| {
      var a := if IsDir(n, Kids(n)[k].name) then [] else [Found(rel + [Kids(n)[k].name], spans + [(start, |rel| + 1)])];
      var b := StarFiles(rel, n, spans, start, k + 1);
      FilesTurns(w, rel, n, visited, spans, start, k + 1);
      forall f, g | f in a && g in b ensures f.path != g.path {
        FileNames(rel, n, spans, start, k + 1, g);
        var j :| k + 1 <= j < |Kids(n)| && g.path[|rel|] == Kids(n)[j].name;
        KidsApart(Kids(n), k, j);
      }
      TurnConcat(a, b);
    }
  }

  lemma {:induction false} KidsTurns(w: World, p: Pattern, si: nat, rel: Path, n: Node, visited: set<Path>, spans: seq<(nat, nat)>, start: nat, k: nat)
    requires LooksUp(p) && si < |p.segs| && Here(w, rel, n, visited) && |spans| == si && p.segs[si].recursive && WalkedFrom(rel, start) && k <= |Kids(n)|
    ensures InTurn(StarKids(w, p, si, rel, n, visited, spans, start, k))
    decreases Open(w, visited), n, |p.segs| - si, 3, |Kids(n)| - k
  {
    hide StarKid, Targets, Open, At, InTurn, NoLater, WalkedFrom, LooksUp;
    if k < |Kids(n)| {
      var name := Kids(n)[k].name;
      var a, b := StarKid(w, p, si, rel, n, visited, spans, start, name), StarKids(w, p, si, rel, n, visited, spans, start, k + 1);
      KidTurns(w, p, si, rel, n, visited, spans, start, name);
      KidsTurns(w, p, si, rel, n, visited, spans, start, k + 1);
      forall f, g | f in a && g in b ensures f.path != g.path {
        KidThrough(w, p, si, rel, n, visited, spans, start, name, f);
        var j := KidsThrough(w, p, si, rel, n, visited, spans, start, k + 1, g);
        KidThrough(w, p, si, rel, n, visited, spans, start, Kids(n)[j].name, g);
        KidsApart(Kids(n), k, j);
      }
      TurnConcat(a, b);
    } else {
      NothingInTurn();
    }
  }

  lemma {:induction false} KidTurns(w: World, p: Pattern, si: nat, rel: Path, n: Node, visited: set<Path>, spans: seq<(nat, nat)>, start: nat, name: string)
    requires LooksUp(p) && si < |p.segs| && Here(w, rel, n, visited) && |spans| == si && p.segs[si].recursive && WalkedFrom(rel, start)
    ensures InTurn(StarKid(w, p, si, rel, n, visited, spans, start, name))
    decreases Open(w, visited), n, |p.segs| - si, 2, 0
  {
    hide Star, Targets, Plain, Open, At, Enter, InTurn;
    var e := Enter(w, rel, n, name, visited);
    if !Walkable(name) || e.None? {
      NothingInTurn();
    } else {
      EnterDecreases(w, rel, n, name, visited);
      EnterPlain(w, rel, n, name, visited);
      assert WalkedFrom(rel + [name], start);
      StarTurns(w, p, si, rel + [name], e.value.1, visited + {e.value.0}, spans, start);
    }
  }

  // ---------------------------------------------------------------- the report

  /** A reported match comes from the first derivation of its path. */
  ghost predicate First(p: Pattern, fs: seq<Found>, m: Reported) {
    exists i :: 0 <= i < |fs| && m == ReportOf(p, fs[i]) && forall j :: 0 <= j < i ==> fs[j].path != fs[i].path
  }

  lemma {:induction false} EmitFirst(p: Pattern, done: seq<Found>, fs: seq<Found>, ms: seq<Reported>)
    requires (forall m <- ms :: First(p, done, m)) && forall f <- done :: Has(ms, f.path)
    ensures forall m <- EmitAll(p, ms, fs) :: First(p, done + fs, m)
    decreases |fs|
  {
    hide ReportOf, Has;
    if fs == [] {
      assert done + fs == done;
    } else {
      var f := fs[0];
      var ms', done' := Emit(p, ms, f), done + [f];
      ReportsPath(p, f);
      forall m | m in ms' ensures First(p, done', m) {
        if m in ms {
          var i :| 0 <= i < |done| && m == ReportOf(p, done[i]) && forall j :: 0 <= j < i ==> done[j].path != done[i].path;
          assert done'[i] == done[i];
        } else {
          var i := |done|;
          assert done'[i] == f;
          forall j | 0 <= j < i ensures done'[j].path != f.path {
            assert done'[j] in done;
          }
        }
      }
      forall g | g in done' ensures Has(ms', g.path) {
        EmitHas(p, ms, f, g.path);
      }
      EmitFirst(p, done', fs[1..], ms');
      assert done' + fs[1..] == done + fs;
    }
  }

  lemma {:induction false} EmitHas(p: Pattern, ms: seq<Reported>, f: Found, path: Path)
    requires Has(ms, path) || path == f.path
    ensures Has(Emit(p, ms, f), path)
  {
    var r := ReportOf(p, f);
    assert r in ms + [r] && r.path == f.path;
    if Has(ms, path) {
      HasMore(ms, Emit(p, ms, f), path);
    }
  }

  lemma {:induction false} ReportsPath(p: Pattern, f: Found)
    ensures ReportOf(p, f).path == f.path
  {
  }

  /** No other split of its path comes before this one. */
  ghost predicate Shortest(w: World, p: Pattern, f: Found) {
    forall g: Found :: Derives(w, p, g) && g.path == f.path ==> NoLater(f.spans, g.spans)
  }

  /** Walk exactness. Without symbolic links and within the budget, the walk reports exactly
      the files whose path splits into the pattern's segments, each of them once, and each
      with the captures of that one among its splits in which the earliest `**` that could
      be shorter is shortest. */
  lemma {:induction false} WalkExact(w: World, p: Pattern, found: seq<Reported>)
    requires LooksUp(p) && w.top.Dir? && Plain(w.top) && Targets(w.top) <= Targets(w.root)
    requires found == EmitAll(p, [], Match(w, p, 0, [], w.top, {}, []))
    ensures NoRepeats(found)
    ensures forall path: Path :: Has(found, path) <==> exists f: Found :: Derives(w, p, f) && f.path == path
    ensures forall m <- found :: exists f: Found :: Derives(w, p, f) && m == ReportOf(p, f) && Shortest(w, p, f)
  {
    hide Match, Derives, Plain, Targets, ReportOf, EmitAll, InTurn, NoLater, Has, First, Shortest;
    var fs := Match(w, p, 0, [], w.top, {}, []);
    assert NoRepeats([]);
    EmitExact(p, [], fs);
    assert [] + fs == fs;
    EmitFirst(p, [], fs, []);
    AtTop(w);
    MatchTurns(w, p, 0, [], w.top, {}, []);
    forall m | m in found
      ensures exists f: Found :: Derives(w, p, f) && m == ReportOf(p, f) && Shortest(w, p, f)
    {
      FirstIsShortest(w, p, fs, m);
    }
    forall path: Path ensures Has(found, path) <==> exists f: Found :: Derives(w, p, f) && f.path == path {
      if Has(found, path) {
        HasDerived(w, p, found, path);
      }
      if f: Found :| Derives(w, p, f) && f.path == path {
        DerivationsExact(w, p, f);
      }
    }
  }

  lemma AtTop(w: World)
    requires w.top.Dir? && Plain(w.top) && Targets(w.top) <= Targets(w.root)
    ensures Here(w, [], w.top, {})
  {
    hide Plain, Targets;
  }

  lemma {:induction false} HasDerived(w: World, p: Pattern, found: seq<Reported>, path: Path)
    requires Has(found, path) && forall m <- found :: exists f: Found :: Derives(w, p, f) && m == ReportOf(p, f) && Shortest(w, p, f)
    ensures exists f: Found :: Derives(w, p, f) && f.path == path
  {
    hide Derives, ReportOf, Shortest;
    var m :| m in found && m.path == path;
    var f: Found :| Derives(w, p, f) && m == ReportOf(p, f) && Shortest(w, p, f);
    ReportsPath(p, f);
  }

  lemma {:induction false} FirstIsShortest(w: World, p: Pattern, fs: seq<Found>, m: Reported)
    requires LooksUp(p) && w.top.Dir? && Plain(w.top) && Targets(w.top) <= Targets(w.root)
    requires fs == Match(w, p, 0, [], w.top, {}, []) && InTurn(fs) && First(p, fs, m)
    ensures exists f: Found :: Derives(w, p, f) && m == ReportOf(p, f) && Shortest(w, p, f)
  {
    hide Match, Derives, Plain, Targets, ReportOf, NoLater, LooksUp;
    var i :| 0 <= i < |fs| && m == ReportOf(p, fs[i]) && forall j :: 0 <= j < i ==> fs[j].path != fs[i].path;
    DerivationsExact(w, p, fs[i]);
    forall g: Found | Derives(w, p, g) && g.path == fs[i].path ensures NoLater(fs[i].spans, g.spans) {
      DerivationsExact(w, p, g);
      var j :| 0 <= j < |fs| && fs[j] == g;
      if j == i {
        SameNoLater(g.spans);
      }
    }
    assert Derives(w, p, fs[i]) && Shortest(w, p, fs[i]);
  }

  lemma SameNoLater(a: seq<(nat, nat)>)
    ensures NoLater(a, a)
  {
  }
}
