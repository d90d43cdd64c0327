/**
 Exactness of the renderer's source map (internal/ast/render.go): the segments tile
 the SQL, the binary search finds the one covering an offset, and a rendered byte that
 is not synthesized is the template byte the map points to.
 */
module SourceMaps {
  import opened Core
  import opened Pieces
  import opened Lexing
  import opened Templates
  import opened Rendering

  predicate Covers(s: Seg, r: nat) { s.rOff <= r < s.rOff + s.rLen }

  /** Where a covering segment says an offset comes from. */
  function Origin(s: Seg, r: nat): (nat, bool)
    requires Covers(s, r)
  {
    if s.synth then (s.tOff, true) else (s.tOff + (r - s.rOff), false)
  }

  function End(segs: seq<Seg>): nat {
    if segs == [] then 0 else segs[|segs| - 1].rOff + segs[|segs| - 1].rLen
  }

  /** No gaps, no overlaps, no empty segments, from 0 to `n`. */
  ghost predicate Tiles(segs: seq<Seg>, n: nat) {
    End(segs) == n &&
    forall i :: 0 <= i < |segs| ==> segs[i].rLen > 0 && segs[i].rOff == End(segs[..i])
  }

  lemma {:induction false} TilesOrdered(segs: seq<Seg>, n: nat, i: nat, j: nat)
    requires Tiles(segs, n) && i < j <= |segs|
    ensures segs[i].rOff + segs[i].rLen <= End(segs[..j])
    decreases j - i
  {
    assert segs[..j][|segs[..j]| - 1] == segs[j - 1];
    if i + 1 < j {
      TilesOrdered(segs, n, i, j - 1);
    }
  }

  /** `SourceMap.ToTemplate`. */
  method ToTemplate(segs: seq<Seg>, r: nat) returns (tOff: nat, synth: bool)
    requires exists n :: Tiles(segs, n)
    ensures forall i :: 0 <= i < |segs| && Covers(segs[i], r) ==> (tOff, synth) == Origin(segs[i], r)
    ensures (forall i :: 0 <= i < |segs| ==> !Covers(segs[i], r)) ==> (tOff, synth) == (0, true)
  {
    ghost var n :| Tiles(segs, n);
    var lo, hi := 0, |segs| - 1;
    while lo <= hi
      invariant 0 <= lo <= hi + 1 <= |segs|
      invariant forall i :: 0 <= i < |segs| && Covers(segs[i], r) ==> lo <= i <= hi
      decreases hi - lo
    {
      var mid := (lo + hi) / 2;
      var s := segs[mid];
      forall i | mid < i < |segs| ensures s.rOff + s.rLen <= segs[i].rOff {
        TilesOrdered(segs, n, mid, i);
      }
      forall i | 0 <= i < mid ensures segs[i].rOff + segs[i].rLen <= s.rOff {
        TilesOrdered(segs, n, i, mid);
      }
      if r < s.rOff {
        hi := mid - 1;
      } else if r >= s.rOff + s.rLen {
        lo := mid + 1;
      } else {
        assert forall i :: 0 <= i < |segs| && Covers(segs[i], r) ==> i == mid;
        if s.synth {
          return s.tOff, true;
        }
        return s.tOff + (r - s.rOff), false;
      }
    }
    return 0, true;
  }

  lemma {:induction false} SomeCovers(segs: seq<Seg>, n: nat, r: nat)
    requires Tiles(segs, n) && r < n
    ensures exists i :: 0 <= i < |segs| && Covers(segs[i], r)
    decreases |segs|
  {
    var last := |segs| - 1;
    if !Covers(segs[last], r) {
      var front := segs[..last];
      assert forall i :: 0 <= i < last ==> front[..i] == segs[..i];
      SomeCovers(front, End(front), r);
      var i :| 0 <= i < last && Covers(front[i], r);
      assert Covers(segs[i], r);
    }
  }

  lemma CoverUnique(segs: seq<Seg>, n: nat, r: nat, i: nat, j: nat)
    requires Tiles(segs, n) && i < |segs| && j < |segs|
    requires Covers(segs[i], r) && Covers(segs[j], r)
    ensures i == j
  {
    if i < j {
      TilesOrdered(segs, n, i, j);
    } else if j < i {
      TilesOrdered(segs, n, j, i);
    }
  }

  // ---------------------------------------------------------------- template text

  /** The file holds `text` at `off`. */
  predicate At(file: string, off: nat, text: string) {
    off + |text| <= |file| && forall k :: 0 <= k < |text| ==> file[off + k] == text[k]
  }

  predicate BodyAt(file: string, b: Body) { At(file, b.off, b.text) }

  /** Every body of the item is a stretch of the file; woven text is in no file. */
  predicate ItemAt(file: string, it: Item) {
    match it
    case Skeleton(body, synth) => !synth ==> BodyAt(file, body)
    case IfPresent(_, _, body, _) => BodyAt(file, body)
    case ChooseItem(cases, deflt, _) => (forall b <- cases :: BodyAt(file, b)) && (deflt.Some? ==> BodyAt(file, deflt.value))
    case OrderItem(keys, deflt, _) => (forall b <- keys :: BodyAt(file, b)) && (deflt.Some? ==> BodyAt(file, deflt.value))
    case InExpr(_, _) => true
    case TreeItem(preds, _) => forall p <- preds :: BodyAt(file, p.body)
  }

  /** What a located piece claims about the file. */
  predicate Honest(file: string, l: Located) {
    l.synth || (l.piece.Lit? && At(file, l.off, l.piece.text))
  }

  ghost predicate AllHonest(file: string, r: Result<seq<Located>, RenderError>) {
    r.Ok? ==> forall l <- r.value :: Honest(file, l)
  }

  lemma ThenHonest(file: string, a: Result<seq<Located>, RenderError>, b: Result<seq<Located>, RenderError>)
    requires AllHonest(file, a) && AllHonest(file, b)
    ensures AllHonest(file, Then(a, b))
  {
  }

  lemma SliceAt(file: string, off: nat, text: string, i: nat, j: nat)
    requires At(file, off, text) && i <= j <= |text|
    ensures At(file, off + i, text[i..j])
  {
    assert forall k :: 0 <= k < j - i ==> text[i..j][k] == text[i + k];
  }

  lemma {:induction false} TextHonest(file: string, next: Lexer, b: Body, synth: bool, pos: nat, run: nat)
    requires WellBehaved(next) && run <= pos <= |b.text| && (!synth ==> BodyAt(file, b))
    ensures AllHonest(file, TextFrom(next, b, synth, pos, run))
    decreases |b.text| - pos
  {
    assert StepOk(b.text, pos, next(b.text, pos));
    match next(b.text, pos)
    case LexError =>
    case Eof =>
      if !synth {
        SliceAt(file, b.off, b.text, run, |b.text|);
      }
    case Token(kind, start, end) =>
      if kind.ParamRef? {
        if !synth {
          SliceAt(file, b.off, b.text, run, start);
        }
        TextHonest(file, next, b, synth, end, end);
      } else {
        TextHonest(file, next, b, synth, end, run);
      }
  }

  lemma {:induction false} KeysHonest(file: string, next: Lexer, keys: seq<Body>, off: nat, first: bool)
    requires WellBehaved(next) && forall b <- keys :: BodyAt(file, b)
    ensures AllHonest(file, KeyList(next, keys, off, first))
  {
    if keys != [] {
      TextHonest(file, next, keys[0], false, 0, 0);
      KeysHonest(file, next, keys[1..], off, false);
      hide BodyPieces, KeyList;
      ThenHonest(file, Ok(if first then [] else Synth(", ", off)), BodyPieces(next, keys[0], false));
      ThenHonest(file, Then(Ok(if first then [] else Synth(", ", off)), BodyPieces(next, keys[0], false)), KeyList(next, keys[1..], off, false));
    }
  }

  lemma {:induction false} PickedHonest(file: string, next: Lexer, keys: seq<Body>, picked: seq<nat>, off: nat, first: bool)
    requires WellBehaved(next) && forall b <- keys :: BodyAt(file, b)
    ensures AllHonest(file, PickedList(next, keys, picked, off, first))
  {
    if picked != [] && picked[0] / 2 < |keys| {
      TextHonest(file, next, keys[picked[0] / 2], false, 0, 0);
      PickedHonest(file, next, keys, picked[1..], off, false);
    }
  }

  lemma {:induction false} PredsHonest(file: string, next: Lexer, preds: seq<Predicate>, off: nat, first: bool)
    requires WellBehaved(next) && forall p <- preds :: BodyAt(file, p.body)
    ensures AllHonest(file, PredList(next, preds, off, first))
  {
    if preds != [] {
      TextHonest(file, next, preds[0].body, false, 0, 0);
      PredsHonest(file, next, preds[1..], off, false);
    }
  }

  lemma ItemHonest(file: string, p: Profile, q: Template, sh: Shape, it: Item, n: Counts)
    requires WellBehaved(p.next) && ItemAt(file, it)
    ensures AllHonest(file, ItemPieces(p, q, sh, it, n))
  {
    hide TextFrom, KeyList, PickedList, PredList, GuardsOn, At;
    match it {
      case Skeleton(body, synth) =>
        TextHonest(file, p.next, body, synth, 0, 0);
      case IfPresent(guards, sep, body, off) =>
        TextHonest(file, p.next, body, false, 0, 0);
      case ChooseItem(cases, deflt, off) =>
        var body := CaseBody(cases, deflt, OrdinalAt(sh, n));
        if body.Some? {
          TextHonest(file, p.next, body.value, false, 0, 0);
        }
      case OrderItem(keys, deflt, off) =>
        KeysHonest(file, p.next, keys, off, true);
        if OrderAt(sh, n).Some? {
          PickedHonest(file, p.next, keys, OrderAt(sh, n).value, off, true);
        }
        if deflt.Some? {
          TextHonest(file, p.next, deflt.value, false, 0, 0);
        }
      case InExpr(param, off) =>
      case TreeItem(preds, off) =>
        PredsHonest(file, p.next, preds, off, true);
    }
  }

  lemma {:induction false} RenderHonest(file: string, p: Profile, q: Template, sh: Shape, items: seq<Item>, n: Counts)
    requires WellBehaved(p.next) && forall it <- items :: ItemAt(file, it)
    ensures AllHonest(file, RenderPieces(p, q, sh, items, n))
    decreases |items|
  {
    if items != [] {
      hide ItemPieces, ItemAt;
      ItemHonest(file, p, q, sh, items[0], n);
      RenderHonest(file, p, q, sh, items[1..], Counted(items[0], n));
      ThenHonest(file, ItemPieces(p, q, sh, items[0], n), RenderPieces(p, q, sh, items[1..], Counted(items[0], n)));
    }
  }

  // ---------------------------------------------------------------- the printed map

  /** Unsynthesized segments hold the template's own bytes. */
  ghost predicate Exact(file: string, st: Printed) {
    Tiles(st.segs, |st.out.text|) && forall s <- st.segs :: SegExact(file, st.out.text, s)
  }

  predicate SegExact(file: string, sql: string, s: Seg) {
    s.rOff + s.rLen <= |sql| && (!s.synth ==> At(file, s.tOff, sql[s.rOff..s.rOff + s.rLen]))
  }

  lemma TilesSnoc(segs: seq<Seg>, n: nat, s: Seg)
    requires Tiles(segs, n) && s.rOff == n && s.rLen > 0
    ensures Tiles(segs + [s], n + s.rLen)
  {
    assert (segs + [s])[..|segs|] == segs;
    assert forall i :: 0 <= i < |segs| ==> (segs + [s])[..i] == segs[..i];
  }

  lemma SegKept(file: string, sql: string, more: string, s: Seg)
    requires SegExact(file, sql, s)
    ensures SegExact(file, sql + more, s)
  {
    assert (sql + more)[s.rOff..s.rOff + s.rLen] == sql[s.rOff..s.rOff + s.rLen];
  }

  lemma PrintExact(file: string, style: Style, st: Printed, l: Located)
    requires Exact(file, st) && Honest(file, l)
    ensures Exact(file, Print(style, st, l))
  {
    hide At, Tiles;
    var st' := Print(style, st, l);
    var w := Width(style, st.out, l.piece);
    var more := st'.out.text[|st.out.text|..];
    assert st'.out.text == st.out.text + more && |more| == w;
    assert l.piece.Lit? ==> more == l.piece.text;
    hide Step;
    forall s | s in st.segs ensures SegExact(file, st'.out.text, s) {
      SegKept(file, st.out.text, more, s);
    }
    if w > 0 {
      var s := Seg(|st.out.text|, w, l.off, l.synth);
      TilesSnoc(st.segs, |st.out.text|, s);
      assert st'.out.text[s.rOff..s.rOff + s.rLen] == more;
      assert SegExact(file, st'.out.text, s);
    }
  }

  lemma {:induction false} PrintAllExact(file: string, style: Style, st: Printed, ls: seq<Located>)
    requires Exact(file, st) && forall l <- ls :: Honest(file, l)
    ensures Exact(file, PrintAll(style, st, ls))
    decreases |ls|
  {
    if ls != [] {
      hide Exact, Honest, Print;
      PrintExact(file, style, st, ls[0]);
      PrintAllExact(file, style, Print(style, st, ls[0]), ls[1..]);
    }
  }

  lemma RenderExact(p: Profile, q: Template, sh: Shape, file: string)
    requires WellBehaved(p.next) && forall it <- q.items :: ItemAt(file, it)
    requires Render(p, q, sh).Ok?
    ensures Exact(file, Render(p, q, sh).value)
  {
    RenderHonest(file, p, q, sh, q.items, Counts(0, 0, 0, 0));
    PrintAllExact(file, p.style, START, RenderPieces(p, q, sh, q.items, Counts(0, 0, 0, 0)).value);
  }

  lemma ByteExact(file: string, sql: string, s: Seg, r: nat)
    requires SegExact(file, sql, s) && Covers(s, r) && !s.synth
    ensures Origin(s, r).0 < |file| && sql[r] == file[Origin(s, r).0]
  {
    assert sql[s.rOff..s.rOff + s.rLen][r - s.rOff] == sql[r];
  }

  /** For every rendering of every shape: each offset of the SQL lies in exactly one
      segment, and unless that segment is synthesized the byte there is the template
      byte at the offset the map gives. */
  lemma SourceMapExact(p: Profile, q: Template, sh: Shape, file: string, r: nat)
    requires WellBehaved(p.next) && forall it <- q.items :: ItemAt(file, it)
    requires Render(p, q, sh).Ok? && r < |Render(p, q, sh).value.out.text|
    ensures
      var out := Render(p, q, sh).value;
      exists i :: 0 <= i < |out.segs| && Covers(out.segs[i], r) &&
        (forall j :: 0 <= j < |out.segs| && Covers(out.segs[j], r) ==> j == i) &&
        (!out.segs[i].synth ==>
          Origin(out.segs[i], r).0 < |file| && out.out.text[r] == file[Origin(out.segs[i], r).0])
  {
    RenderExact(p, q, sh, file);
    var out := Render(p, q, sh).value;
    hide Render, Tiles, SegExact, At, ItemAt;
    SomeCovers(out.segs, |out.out.text|, r);
    var i :| 0 <= i < |out.segs| && Covers(out.segs[i], r);
    forall j | 0 <= j < |out.segs| && Covers(out.segs[j], r) ensures j == i {
      CoverUnique(out.segs, |out.out.text|, r, i, j);
    }
    if !out.segs[i].synth {
      ByteExact(file, out.out.text, out.segs[i], r);
    }
  }
}
