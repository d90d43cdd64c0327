/** Scanned query templates (internal/template/model.go). */
module Templates {
  import opened Core
  import opened Lexing
  import opened Masks
  import opened Pieces
  import opened Composing

  datatype Profile = Profile(next: Lexer, style: Style, inEmpty: string)

  /** Template text and the file offset of its first byte. */
  datatype Body = Body(text: string, off: nat)

  datatype Atom = Atom(param: string, op: string, value: string)

  datatype Predicate = Predicate(body: Body, params: seq<string>)

  datatype Item =
    | Skeleton(body: Body, synth: bool)
    | IfPresent(guards: seq<Atom>, sep: Sep, body: Body, off: nat)
    | ChooseItem(cases: seq<Body>, deflt: Option<Body>, off: nat)
    | OrderItem(keys: seq<Body>, deflt: Option<Body>, off: nat)
    | InExpr(param: string, off: nat)
    | TreeItem(preds: seq<Predicate>, off: nat)

  datatype Template = Template(items: seq<Item>, paramOrder: seq<string>, atoms: seq<Atom>)

  /** The bit a guard atom occupies: the last of its positions, as a map built front
      to back keeps the last. */
  function BitOf(atoms: seq<Atom>, g: Atom): Option<nat> {
    if atoms == [] then None
    else if atoms[|atoms| - 1] == g then Some(|atoms| - 1)
    else BitOf(atoms[..|atoms| - 1], g)
  }

  /** Parameter names of a text in order of appearance, `None` if it does not lex. */
  function Names(next: Lexer, src: string, pos: nat): Option<seq<string>>
    requires WellBehaved(next) && pos <= |src|
    decreases |src| - pos
  {
    assert StepOk(src, pos, next(src, pos));
    match next(src, pos)
    case Eof => Some([])
    case LexError => None
    case Token(kind, start, end) =>
      match Names(next, src, end)
      case None => None
      case Some(rest) => Some(if kind.ParamRef? then [src[start + 1..end]] + rest else rest)
  }

  // ---------------------------------------------------------------- shapes

  datatype Active = Everything | Mask(bits: bv64)

  /** A selection as the renderer takes it: guard mask, ordinals by block, order
      sequences, list arities and, per filter tree, 0 for the empty tree. */
  datatype Shape = Shape(
    active: Active,
    ordinals: map<nat, nat>,
    orders: seq<Option<seq<nat>>>,
    arities: seq<nat>,
    trees: seq<nat>)

  predicate AtomOn(atoms: seq<Atom>, m: bv64, g: Atom) {
    BitOf(atoms, g).Some? && HasBit(m, BitOf(atoms, g).value)
  }

  predicate GuardsOn(atoms: seq<Atom>, a: Active, guards: seq<Atom>) {
    a.Everything? || forall g <- guards :: AtomOn(atoms, a.bits, g)
  }
}
