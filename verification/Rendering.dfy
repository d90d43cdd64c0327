/**
 The verification renderer (internal/ast/render.go): one shape as located pieces, the
 emission loops proved to print exactly those pieces and to record their source map,
 and the map's exactness.
 */
module Rendering {
  import opened Core
  import opened Pieces
  import opened Lexing
  import opened Templates
  import opened Composing

  /** A piece with the template offset it comes from; `synth` pieces are only
      anchored there. */
  datatype Located = Located(piece: Piece<string>, off: nat, synth: bool)

  datatype Seg = Seg(rOff: nat, rLen: nat, tOff: nat, synth: bool)

  datatype RenderError = LexFailed | KeyRange

  /** What has been printed so far and where it came from. */
  datatype Printed = Printed(out: Emitted<string>, segs: seq<Seg>)

  function Width(style: Style, st: Emitted<string>, p: Piece<string>): nat {
    |Step(style, st, p).text| - |st.text|
  }

  function Print(style: Style, st: Printed, l: Located): Printed {
    var w := Width(style, st.out, l.piece);
    Printed(Step(style, st.out, l.piece),
            if w == 0 then st.segs else st.segs + [Seg(|st.out.text|, w, l.off, l.synth)])
  }

  function PrintAll(style: Style, st: Printed, ls: seq<Located>): Printed
    decreases |ls|
  {
    if ls == [] then st else PrintAll(style, Print(style, st, ls[0]), ls[1..])
  }

  function PiecesOf(ls: seq<Located>): seq<Piece<string>> { seq(|ls|, i requires 0 <= i < |ls| => ls[i].piece) }

  // ---------------------------------------------------------------- what is rendered

  function Synth(text: string, off: nat): seq<Located> { [Located(Lit(text), off, true)] }

  /** `emitText` from `pos`, with an unflushed run from `run`. */
  function TextFrom(next: Lexer, b: Body, synth: bool, pos: nat, run: nat): Result<seq<Located>, RenderError>
    requires WellBehaved(next) && run <= pos <= |b.text|
    decreases |b.text| - pos
  {
    assert StepOk(b.text, pos, next(b.text, pos));
    match next(b.text, pos)
    case LexError => Err(LexFailed)
    case Eof => Ok([Run_(b, synth, run, |b.text|)])
    case Token(kind, start, end) =>
      if !kind.ParamRef? then TextFrom(next, b, synth, end, run)
      else
        match TextFrom(next, b, synth, end, end)
        case Err(e) => Err(e)
        case Ok(rest) =>
          Ok([Run_(b, synth, run, start),
              Located(Ph(b.text[start + 1..end]), if synth then b.off else b.off + start, true)] + rest)
  }

  function Run_(b: Body, synth: bool, from: nat, to: nat): Located
    requires from <= to <= |b.text|
  {
    Located(Lit(b.text[from..to]), if synth then b.off else b.off + from, synth)
  }

  function BodyPieces(next: Lexer, b: Body, synth: bool): Result<seq<Located>, RenderError>
    requires WellBehaved(next)
  {
    TextFrom(next, b, synth, 0, 0)
  }

  function Then(a: Result<seq<Located>, RenderError>, b: Result<seq<Located>, RenderError>): Result<seq<Located>, RenderError> {
    match (a, b)
    case (Err(e), _) => Err(e)
    case (Ok(_), Err(e)) => Err(e)
    case (Ok(x), Ok(y)) => Ok(x + y)
  }

  /** The body an ordinal selects; past the last one there is none. */
  function CaseBody(cases: seq<Body>, deflt: Option<Body>, ord: nat): Option<Body> {
    if ord < |cases| then Some(cases[ord]) else deflt
  }

  function KeyList(next: Lexer, keys: seq<Body>, off: nat, first: bool): Result<seq<Located>, RenderError>
    requires WellBehaved(next)
  {
    if keys == [] then Ok([])
    else Then(Then(Ok(if first then [] else Synth(", ", off)), BodyPieces(next, keys[0], false)), KeyList(next, keys[1..], off, false))
  }

  function PickedList(next: Lexer, keys: seq<Body>, picked: seq<nat>, off: nat, first: bool): Result<seq<Located>, RenderError>
    requires WellBehaved(next)
  {
    if picked == [] then Ok([])
    else if picked[0] / 2 >= |keys| then Err(KeyRange)
    else
      Then(Then(Then(Ok(if first then [] else Synth(", ", off)), BodyPieces(next, keys[picked[0] / 2], false)),
                Ok(if picked[0] % 2 == 1 then Synth(" DESC", off) else [])),
           PickedList(next, keys, picked[1..], off, false))
  }

  function PredList(next: Lexer, preds: seq<Predicate>, off: nat, first: bool): Result<seq<Located>, RenderError>
    requires WellBehaved(next)
  {
    if preds == [] then Ok([])
    else
      Then(Then(Ok((if first then [] else Synth(" AND ", off)) + Synth("(", off)),
                Then(BodyPieces(next, preds[0].body, false), Ok(Synth(")", off)))),
           PredList(next, preds[1..], off, false))
  }

  function Counted(it: Item, n: Counts): Counts {
    match it
    case ChooseItem(_, _, _) => n.(choose := n.choose + 1)
    case OrderItem(_, _, _) => n.(order := n.order + 1)
    case InExpr(_, _) => n.(lists := n.lists + 1)
    case TreeItem(_, _) => n.(trees := n.trees + 1)
    case _ => n
  }

  /** Blocks of each kind met so far. */
  datatype Counts = Counts(choose: nat, order: nat, lists: nat, trees: nat)

  function OrdinalAt(sh: Shape, n: Counts): nat { if n.choose in sh.ordinals then sh.ordinals[n.choose] else 0 }

  function OrderAt(sh: Shape, n: Counts): Option<seq<nat>> { if n.order < |sh.orders| then sh.orders[n.order] else None }

  predicate ListEmpty(sh: Shape, n: Counts) { n.lists < |sh.arities| && sh.arities[n.lists] == 0 }

  predicate TreeEmpty(sh: Shape, n: Counts) { n.trees < |sh.trees| && sh.trees[n.trees] == 0 }

  function GuardedItem(next: Lexer, sep: Sep, body: Body, off: nat): Result<seq<Located>, RenderError>
    requires WellBehaved(next)
  {
    Then(Then(Ok(Synth("\n", off) + (match sep case SepNone => [] case SepAnd => Synth("AND (", off) case SepComma => Synth(", ", off))),
              BodyPieces(next, body, false)),
         Ok(if sep.SepAnd? then Synth(")", off) else []))
  }

  function ChosenItem(next: Lexer, body: Option<Body>, off: nat): Result<seq<Located>, RenderError>
    requires WellBehaved(next)
  {
    Then(Ok(Synth("\n", off)), if body.Some? then BodyPieces(next, body.value, false) else Ok([]))
  }

  function OrderedItem(next: Lexer, keys: seq<Body>, deflt: Option<Body>, off: nat, sel: Option<seq<nat>>): Result<seq<Located>, RenderError>
    requires WellBehaved(next)
  {
    match sel
    case None => Then(Ok(Synth("\n", off) + Synth("ORDER BY ", off)), KeyList(next, keys, off, true))
    case Some(picked) =>
      if picked == [] then
        Then(Ok(Synth("\n", off)), if deflt.Some? && deflt.value.text != "" then BodyPieces(next, deflt.value, false) else Ok([]))
      else Then(Ok(Synth("\n", off) + Synth("ORDER BY ", off)), PickedList(next, keys, picked, off, true))
  }

  function ListItem(p: Profile, param: string, off: nat, empty: bool): seq<Located> {
    var ref := [Located(Ph(param), off, true)];
    if p.style.Dollar? then Synth("= ANY(", off) + ref + Synth(")", off)
    else if empty then Synth(p.inEmpty, off)
    else Synth("IN (", off) + ref + Synth(")", off)
  }

  function TreeItemPieces(next: Lexer, preds: seq<Predicate>, off: nat, empty: bool): Result<seq<Located>, RenderError>
    requires WellBehaved(next)
  {
    if empty then Ok(Synth("TRUE", off))
    else Then(Then(Ok(Synth("(", off)), PredList(next, preds, off, true)), Ok(Synth(")", off)))
  }

  function ItemPieces(p: Profile, q: Template, sh: Shape, it: Item, n: Counts): Result<seq<Located>, RenderError>
    requires WellBehaved(p.next)
  {
    match it
    case Skeleton(body, synth) => BodyPieces(p.next, body, synth)
    case IfPresent(guards, sep, body, off) =>
      if GuardsOn(q.atoms, sh.active, guards) then GuardedItem(p.next, sep, body, off) else Ok([])
    case ChooseItem(cases, deflt, off) => ChosenItem(p.next, CaseBody(cases, deflt, OrdinalAt(sh, n)), off)
    case OrderItem(keys, deflt, off) => OrderedItem(p.next, keys, deflt, off, OrderAt(sh, n))
    case InExpr(param, off) => Ok(ListItem(p, param, off, ListEmpty(sh, n)))
    case TreeItem(preds, off) => TreeItemPieces(p.next, preds, off, TreeEmpty(sh, n))
  }

  function RenderPieces(p: Profile, q: Template, sh: Shape, items: seq<Item>, n: Counts): Result<seq<Located>, RenderError>
    requires WellBehaved(p.next)
  {
    if items == [] then Ok([])
    else Then(ItemPieces(p, q, sh, items[0], n), RenderPieces(p, q, sh, items[1..], Counted(items[0], n)))
  }

  const START := Printed(Emitted("", []), [])

  function Finish(style: Style, st: Printed, r: Result<seq<Located>, RenderError>): Result<Printed, RenderError> {
    match r
    case Err(e) => Err(e)
    case Ok(ls) => Ok(PrintAll(style, st, ls))
  }

  /** `renderCore` as a function: SQL, parameter sequence and source map of a shape. */
  function Render(p: Profile, q: Template, sh: Shape): Result<Printed, RenderError>
    requires WellBehaved(p.next)
  {
    Finish(p.style, START, RenderPieces(p, q, sh, q.items, Counts(0, 0, 0, 0)))
  }

  // ---------------------------------------------------------------- the emission loops

  class Renderer {
    const profile: Profile
    var sb: string
    var segs: seq<Seg>
    var paramSeq: seq<string>
    var paramNum: map<string, nat>

    constructor (profile: Profile)
      ensures this.profile == profile && Valid() && State() == START
    {
      this.profile := profile;
      sb, segs, paramSeq, paramNum := "", [], [], map[];
    }

    ghost predicate Valid()
      reads this
    {
      profile.style.Dollar? ==>
        (forall i :: 0 <= i < |paramSeq| ==> paramSeq[i] in paramNum && paramNum[paramSeq[i]] == i + 1) &&
        forall name <- paramNum :: 1 <= paramNum[name] <= |paramSeq| && paramSeq[paramNum[name] - 1] == name
    }

    ghost function State(): Printed
      reads this
    {
      Printed(Emitted(sb, paramSeq), segs)
    }

    /** The next placeholder for `name`: dollar style reuses its number. */
    method Placeholder(name: string) returns (ph: string)
      requires Valid()
      modifies this
      ensures Valid() && sb == old(sb) && segs == old(segs)
      ensures var (n, names) := Number(profile.style, old(paramSeq), name);
        paramSeq == names && ph == Pieces.Token(profile.style, n)
    {
      if profile.style.Question? {
        paramSeq := paramSeq + [name];
        return "?";
      }
      var n;
      if name in paramNum {
        n := paramNum[name];
        FindIsFirst(paramSeq, name, n - 1);
      } else {
        n := |paramSeq| + 1;
        paramNum := paramNum[name := n];
        paramSeq := paramSeq + [name];
      }
      ph := "$" + Digits.Dec(n);
    }

    method EmitParamRef(name: string, anchor: nat)
      requires Valid()
      modifies this
      ensures Valid() && State() == Print(profile.style, old(State()), Located(Ph(name), anchor, true))
    {
      var ph := Placeholder(name);
      segs := segs + [Seg(|sb|, |ph|, anchor, true)];
      sb := sb + ph;
    }

    method EmitLit(text: string, off: nat, synth: bool)
      requires Valid()
      modifies this
      ensures Valid() && State() == Print(profile.style, old(State()), Located(Lit(text), off, synth))
    {
      if text == "" {
        assert sb + text == sb;
        return;
      }
      segs := segs + [Seg(|sb|, |text|, off, synth)];
      sb := sb + text;
    }

    method EmitSynth(text: string, anchor: nat)
      requires Valid()
      modifies this
      ensures Valid() && State() == PrintAll(profile.style, old(State()), Synth(text, anchor))
    {
      PrintOne(profile.style, State(), Located(Lit(text), anchor, true));
      EmitLit(text, anchor, true);
    }

    method EmitText(b: Body, synth: bool) returns (ok: bool)
      requires Valid() && WellBehaved(profile.next)
      modifies this
      ensures Valid()
      ensures Outcome(old(State()), BodyPieces(profile.next, b, synth), ok)
    {
      hide PrintAll, Print;
      var pos: nat, run: nat := 0, 0;
      while true
        invariant Valid() && run <= pos <= |b.text|
        invariant Finish(profile.style, old(State()), BodyPieces(profile.next, b, synth)) ==
          Finish(profile.style, State(), TextFrom(profile.next, b, synth, pos, run))
        decreases |b.text| - pos
      {
        assert StepOk(b.text, pos, profile.next(b.text, pos));
        var tok := profile.next(b.text, pos);
        if tok.LexError? {
          return false;
        }
        if tok.Eof? {
          break;
        }
        if tok.kind.ParamRef? {
          TextStep(profile.style, State(), profile.next, b, synth, pos, run);
          EmitLit(b.text[run..tok.start], if synth then b.off else b.off + run, synth);
          EmitParamRef(b.text[tok.start + 1..tok.end], if synth then b.off else b.off + tok.start);
          run := tok.end;
        }
        pos := tok.end;
      }
      assert b.text[run..] == b.text[run..|b.text|] && TextFrom(profile.next, b, synth, pos, run) == Ok([Run_(b, synth, run, |b.text|)]);
      PrintOne(profile.style, State(), Run_(b, synth, run, |b.text|));
      EmitLit(b.text[run..], if synth then b.off else b.off + run, synth);
      ok := true;
    }

    /** The loops report a failure exactly when the shape has one, and otherwise have
        printed exactly its pieces. */
    ghost predicate Outcome(st: Printed, r: Result<seq<Located>, RenderError>, ok: bool)
      reads this
    {
      (ok <==> r.Ok?) && (ok ==> State() == PrintAll(profile.style, st, r.value))
    }

    method EmitKeys(keys: seq<Body>, off: nat) returns (ok: bool)
      requires Valid() && WellBehaved(profile.next)
      modifies this
      ensures Valid() && Outcome(old(State()), KeyList(profile.next, keys, off, true), ok)
    {
      hide PrintAll, BodyPieces;
      ghost var start := Finish(profile.style, State(), KeyList(profile.next, keys, off, true));
      assert keys[0..] == keys;
      for i := 0 to |keys|
        invariant Valid() && start == Finish(profile.style, State(), KeyList(profile.next, keys[i..], off, i == 0))
      {
        assert keys[i..][1..] == keys[i + 1..];
        ghost var sep := if i == 0 then [] else Synth(", ", off);
        ThenThen(profile.style, State(), Ok(sep), BodyPieces(profile.next, keys[i], false), KeyList(profile.next, keys[i + 1..], off, false));
        Nothing_(profile.style, State());
        if i > 0 {
          EmitSynth(", ", off);
        }
        ok := EmitText(keys[i], false);
        if !ok {
          return;
        }
      }
      Nothing_(profile.style, State());
      ok := true;
    }

    method EmitPicked(keys: seq<Body>, picked: seq<nat>, off: nat) returns (ok: bool)
      requires Valid() && WellBehaved(profile.next)
      modifies this
      ensures Valid() && Outcome(old(State()), PickedList(profile.next, keys, picked, off, true), ok)
    {
      hide PrintAll, BodyPieces;
      ghost var start := Finish(profile.style, State(), PickedList(profile.next, keys, picked, off, true));
      assert picked[0..] == picked;
      for i := 0 to |picked|
        invariant Valid() && start == Finish(profile.style, State(), PickedList(profile.next, keys, picked[i..], off, i == 0))
      {
        assert picked[i..][1..] == picked[i + 1..];
        var e := picked[i];
        if e / 2 >= |keys| {
          return false;
        }
        ghost var sep := if i == 0 then [] else Synth(", ", off);
        ghost var desc := if e % 2 == 1 then Synth(" DESC", off) else [];
        ghost var body := BodyPieces(profile.next, keys[e / 2], false);
        ghost var rest := PickedList(profile.next, keys, picked[i + 1..], off, false);
        ThenThen(profile.style, State(), Then(Ok(sep), body), Ok(desc), rest);
        ThenRun(profile.style, State(), Ok(sep), body);
        Nothing_(profile.style, State());
        if i > 0 {
          EmitSynth(", ", off);
        }
        ok := EmitText(keys[e / 2], false);
        if !ok {
          return;
        }
        Nothing_(profile.style, State());
        if e % 2 == 1 {
          EmitSynth(" DESC", off);
        }
      }
      Nothing_(profile.style, State());
      ok := true;
    }

    method EmitPreds(preds: seq<Predicate>, off: nat) returns (ok: bool)
      requires Valid() && WellBehaved(profile.next)
      modifies this
      ensures Valid() && Outcome(old(State()), PredList(profile.next, preds, off, true), ok)
    {
      hide PrintAll, BodyPieces;
      ghost var start := Finish(profile.style, State(), PredList(profile.next, preds, off, true));
      assert preds[0..] == preds;
      for i := 0 to |preds|
        invariant Valid() && start == Finish(profile.style, State(), PredList(profile.next, preds[i..], off, i == 0))
      {
        assert preds[i..][1..] == preds[i + 1..];
        ghost var sep := if i == 0 then [] else Synth(" AND ", off);
        ghost var body := BodyPieces(profile.next, preds[i].body, false);
        ghost var rest := PredList(profile.next, preds[i + 1..], off, false);
        ThenThen(profile.style, State(), Ok(sep + Synth("(", off)), Then(body, Ok(Synth(")", off))), rest);
        PrintConcat(profile.style, State(), sep, Synth("(", off));
        Nothing_(profile.style, State());
        if i > 0 {
          EmitSynth(" AND ", off);
        }
        EmitSynth("(", off);
        ThenRun(profile.style, State(), body, Ok(Synth(")", off)));
        ok := EmitText(preds[i].body, false);
        if !ok {
          return;
        }
        EmitSynth(")", off);
      }
      Nothing_(profile.style, State());
      ok := true;
    }

    method EmitGuarded(sep: Sep, body: Body, off: nat) returns (ok: bool)
      requires Valid() && WellBehaved(profile.next)
      modifies this
      ensures Valid() && Outcome(old(State()), GuardedItem(profile.next, sep, body, off), ok)
    {
      hide PrintAll, BodyPieces;
      ghost var open := match sep case SepNone => [] case SepAnd => Synth("AND (", off) case SepComma => Synth(", ", off);
      ghost var close: Result<seq<Located>, RenderError> := Ok(if sep.SepAnd? then Synth(")", off) else []);
      ThenThen(profile.style, State(), Ok(Synth("\n", off) + open), BodyPieces(profile.next, body, false), close);
      PrintConcat(profile.style, State(), Synth("\n", off), open);
      EmitSynth("\n", off);
      Nothing_(profile.style, State());
      match sep {
        case SepAnd => EmitSynth("AND (", off);
        case SepComma => EmitSynth(", ", off);
        case SepNone =>
      }
      ok := EmitText(body, false);
      if ok {
        Nothing_(profile.style, State());
        if sep.SepAnd? {
          EmitSynth(")", off);
        }
      }
    }

    method EmitChosen(body: Option<Body>, off: nat) returns (ok: bool)
      requires Valid() && WellBehaved(profile.next)
      modifies this
      ensures Valid() && Outcome(old(State()), ChosenItem(profile.next, body, off), ok)
    {
      hide PrintAll, BodyPieces;
      ThenRun(profile.style, State(), Ok(Synth("\n", off)), if body.Some? then BodyPieces(profile.next, body.value, false) else Ok([]));
      EmitSynth("\n", off);
      ok := true;
      Nothing_(profile.style, State());
      if body.Some? {
        if body.value.text != "" {
          ok := EmitText(body.value, false);
        } else {
          EmptyBody(profile.style, State(), profile.next, body.value);
        }
      }
    }

    method EmitOrdered(keys: seq<Body>, deflt: Option<Body>, off: nat, sel: Option<seq<nat>>) returns (ok: bool)
      requires Valid() && WellBehaved(profile.next)
      modifies this
      ensures Valid() && Outcome(old(State()), OrderedItem(profile.next, keys, deflt, off, sel), ok)
    {
      hide PrintAll, BodyPieces, KeyList, PickedList;
      ok := true;
      ghost var st := State();
      PrintConcat(profile.style, st, Synth("\n", off), Synth("ORDER BY ", off));
      EmitSynth("\n", off);
      if sel.None? {
        ThenRun(profile.style, st, Ok(Synth("\n", off) + Synth("ORDER BY ", off)), KeyList(profile.next, keys, off, true));
        EmitSynth("ORDER BY ", off);
        ok := EmitKeys(keys, off);
      } else if sel.value == [] {
        ThenRun(profile.style, st, Ok(Synth("\n", off)),
                if deflt.Some? && deflt.value.text != "" then BodyPieces(profile.next, deflt.value, false) else Ok([]));
        Nothing_(profile.style, State());
        if deflt.Some? && deflt.value.text != "" {
          ok := EmitText(deflt.value, false);
        }
      } else {
        ThenRun(profile.style, st, Ok(Synth("\n", off) + Synth("ORDER BY ", off)), PickedList(profile.next, keys, sel.value, off, true));
        EmitSynth("ORDER BY ", off);
        ok := EmitPicked(keys, sel.value, off);
      }
    }

    method EmitList(param: string, off: nat, empty: bool)
      requires Valid()
      modifies this
      ensures Valid() && State() == PrintAll(profile.style, old(State()), ListItem(profile, param, off, empty))
    {
      hide PrintAll;
      ghost var st := State();
      ghost var ref := [Located(Ph(param), off, true)];
      if profile.style.Question? && empty {
        EmitSynth(profile.inEmpty, off);
        return;
      }
      var open := if profile.style.Dollar? then "= ANY(" else "IN (";
      PrintConcat(profile.style, st, Synth(open, off) + ref, Synth(")", off));
      PrintConcat(profile.style, st, Synth(open, off), ref);
      EmitSynth(open, off);
      PrintOne(profile.style, State(), Located(Ph(param), off, true));
      EmitParamRef(param, off);
      EmitSynth(")", off);
    }

    method EmitTreeItem(preds: seq<Predicate>, off: nat, empty: bool) returns (ok: bool)
      requires Valid() && WellBehaved(profile.next)
      modifies this
      ensures Valid() && Outcome(old(State()), TreeItemPieces(profile.next, preds, off, empty), ok)
    {
      hide PrintAll, PredList;
      ok := true;
      if empty {
        EmitSynth("TRUE", off);
        return;
      }
      ThenThen(profile.style, State(), Ok(Synth("(", off)), PredList(profile.next, preds, off, true), Ok(Synth(")", off)));
      EmitSynth("(", off);
      ok := EmitPreds(preds, off);
      if ok {
        EmitSynth(")", off);
      }
    }

    /** One turn of the renderer's loop over the items. */
    method EmitItem(q: Template, sh: Shape, it: Item, n: Counts) returns (ok: bool)
      requires Valid() && WellBehaved(profile.next)
      modifies this
      ensures Valid() && Outcome(old(State()), ItemPieces(profile, q, sh, it, n), ok)
    {
      hide PrintAll, BodyPieces, GuardedItem, ChosenItem, OrderedItem, ListItem, TreeItemPieces, GuardsOn, CaseBody, OrdinalAt, OrderAt;
      ok := true;
      match it {
        case Skeleton(body, synth) =>
          ok := EmitText(body, synth);
        case IfPresent(guards, sep, body, off) =>
          Nothing_(profile.style, State());
          if GuardsOn(q.atoms, sh.active, guards) {
            ok := EmitGuarded(sep, body, off);
          }
        case ChooseItem(cases, deflt, off) =>
          ok := EmitChosen(CaseBody(cases, deflt, OrdinalAt(sh, n)), off);
        case OrderItem(keys, deflt, off) =>
          ok := EmitOrdered(keys, deflt, off, OrderAt(sh, n));
        case InExpr(param, off) =>
          EmitList(param, off, ListEmpty(sh, n));
        case TreeItem(preds, off) =>
          ok := EmitTreeItem(preds, off, TreeEmpty(sh, n));
      }
    }
  }

  /** `renderCore`; `None` when a text does not lex or an order key is out of range. */
  method RenderCore(p: Profile, q: Template, sh: Shape) returns (r: Option<Printed>)
    requires WellBehaved(p.next)
    ensures r == match Render(p, q, sh) case Ok(out) => Some(out) case Err(_) => None
  {
    hide PrintAll, ItemPieces;
    var rd := new Renderer(p);
    var n := Counts(0, 0, 0, 0);
    assert q.items[0..] == q.items;
    for i := 0 to |q.items|
      invariant rd.Valid() && rd.profile == p
      invariant Render(p, q, sh) == Finish(p.style, rd.State(), RenderPieces(p, q, sh, q.items[i..], n))
    {
      assert q.items[i..][1..] == q.items[i + 1..];
      ThenRun(p.style, rd.State(), ItemPieces(p, q, sh, q.items[i], n),
              RenderPieces(p, q, sh, q.items[i + 1..], Counted(q.items[i], n)));
      var ok := rd.EmitItem(q, sh, q.items[i], n);
      if !ok {
        return None;
      }
      n := Counted(q.items[i], n);
    }
    Nothing_(p.style, rd.State());
    r := Some(Printed(Emitted(rd.sb, rd.paramSeq), rd.segs));
  }

  // ---------------------------------------------------------------- runs of located pieces

  lemma {:induction false} PrintOne(style: Style, st: Printed, l: Located)
    ensures PrintAll(style, st, [l]) == Print(style, st, l)
  {
    assert PrintAll(style, st, [l]) == PrintAll(style, Print(style, st, l), []);
  }

  lemma {:induction false} PrintConcat(style: Style, st: Printed, ls: seq<Located>, ms: seq<Located>)
    ensures PrintAll(style, st, ls + ms) == PrintAll(style, PrintAll(style, st, ls), ms)
    decreases |ls|
  {
    if ls == [] {
      assert ls + ms == ms;
    } else {
      assert (ls + ms)[0] == ls[0] && (ls + ms)[1..] == ls[1..] + ms;
      PrintConcat(style, Print(style, st, ls[0]), ls[1..], ms);
    }
  }

  /** An empty body prints nothing, so skipping it changes nothing. */
  lemma {:induction false} EmptyBody(style: Style, st: Printed, next: Lexer, b: Body)
    requires WellBehaved(next) && b.text == ""
    ensures BodyPieces(next, b, false).Ok? && PrintAll(style, st, BodyPieces(next, b, false).value) == st
  {
    assert StepOk(b.text, 0, next(b.text, 0));
    PrintOne(style, st, Run_(b, false, 0, 0));
    assert st.out.text + b.text[0..0] == st.out.text;
  }

  lemma {:induction false} Nothing_(style: Style, st: Printed)
    ensures PrintAll(style, st, []) == st
  {
  }

  /** Printing in two parts: the first part's failure is the failure of both. */
  lemma {:induction false} ThenRun(style: Style, st: Printed, a: Result<seq<Located>, RenderError>, b: Result<seq<Located>, RenderError>)
    ensures a.Err? ==> Then(a, b) == a
    ensures a.Ok? ==> Finish(style, st, Then(a, b)) == Finish(style, PrintAll(style, st, a.value), b)
    ensures a.Ok? && b.Err? ==> Then(a, b) == b
    ensures a.Ok? && b.Ok? ==> Then(a, b).Ok? && PrintAll(style, st, Then(a, b).value) == PrintAll(style, PrintAll(style, st, a.value), b.value)
  {
    if a.Ok? && b.Ok? {
      PrintConcat(style, st, a.value, b.value);
    }
  }

  lemma {:induction false} ThenThen(style: Style, st: Printed, a: Result<seq<Located>, RenderError>, b: Result<seq<Located>, RenderError>, c: Result<seq<Located>, RenderError>)
    ensures a.Ok? && b.Ok? ==>
      Finish(style, st, Then(Then(a, b), c)) == Finish(style, PrintAll(style, PrintAll(style, st, a.value), b.value), c)
    ensures a.Err? || b.Err? ==> Then(Then(a, b), c).Err?
    ensures a.Ok? && b.Ok? && c.Ok? ==> Then(Then(a, b), c).Ok?
    ensures a.Ok? && b.Ok? && c.Ok? ==>
      PrintAll(style, st, Then(Then(a, b), c).value) == PrintAll(style, PrintAll(style, PrintAll(style, st, a.value), b.value), c.value)
    ensures a.Ok? && b.Ok? && c.Err? ==> Then(Then(a, b), c) == c
  {
    ThenRun(style, st, a, b);
    ThenRun(style, st, Then(a, b), c);
  }

  lemma {:induction false} TextStep(style: Style, st: Printed, next: Lexer, b: Body, synth: bool, pos: nat, run: nat)
    requires WellBehaved(next) && run <= pos <= |b.text|
    requires next(b.text, pos).Token? && next(b.text, pos).kind.ParamRef?
    requires StepOk(b.text, pos, next(b.text, pos))
    ensures
      var t := next(b.text, pos);
      var st' := Print(style, st, Run_(b, synth, run, t.start));
      var st'' := Print(style, st', Located(Ph(b.text[t.start + 1..t.end]), if synth then b.off else b.off + t.start, true));
      Finish(style, st, TextFrom(next, b, synth, pos, run)) == Finish(style, st'', TextFrom(next, b, synth, t.end, t.end))
  {
    hide Print;
    var t := next(b.text, pos);
    var lit, ph := Run_(b, synth, run, t.start), Located(Ph(b.text[t.start + 1..t.end]), if synth then b.off else b.off + t.start, true);
    var rest := TextFrom(next, b, synth, t.end, t.end);
    if rest.Ok? {
      assert TextFrom(next, b, synth, pos, run) == Ok([lit, ph] + rest.value);
      assert [lit, ph] + rest.value == [lit] + ([ph] + rest.value);
      PrintCons(style, st, lit, [ph] + rest.value);
      PrintCons(style, Print(style, st, lit), ph, rest.value);
    } else {
      assert TextFrom(next, b, synth, pos, run) == rest;
    }
  }

  lemma {:induction false} PrintCons(style: Style, st: Printed, l: Located, ls: seq<Located>)
    ensures PrintAll(style, st, [l] + ls) == PrintAll(style, Print(style, st, l), ls)
  {
    assert ([l] + ls)[1..] == ls;
  }
}
