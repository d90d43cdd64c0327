/**
 Significant SQL tokens as the policy pass reads them (internal/policy/splice.go):
 whitespace and comments are gone, constructs stand as holes. Keyword tests fold ASCII
 case.
 */
module SqlTokens {
  import opened Lexing

  /** `at` is the absolute template offset of the first byte. */
  datatype Tok = Tok(kind: TokenKind, text: string, at: nat)

  function EndOf(t: Tok): nat { t.at + |t.text| }

  function UpperChar(c: char): char { if 'a' <= c <= 'z' then c - 'a' + 'A' else c }

  function Upper(s: string): string { seq(|s|, i requires 0 <= i < |s| => UpperChar(s[i])) }

  /** The identifier's upper-cased text, empty for other tokens. */
  function Word(t: Tok): string { if t.kind.Ident? then Upper(t.text) else "" }

  predicate IsDot(t: Tok) { t.kind.Other? && t.text == "." }

  predicate HasPipes(s: string) { exists i :: 0 <= i < |s| - 1 && s[i] == '|' && s[i + 1] == '|' }

  const TAIL := {"GROUP", "HAVING", "ORDER", "LIMIT", "OFFSET", "FETCH", "FOR", "RETURNING", "WINDOW", "UNION", "INTERSECT", "EXCEPT"}

  const JOINS := {"JOIN", "INNER", "LEFT", "RIGHT", "FULL", "CROSS", "NATURAL", "STRAIGHT_JOIN"}

  /** How an expression is read: whether `||` is a logical OR, and whether the expression
      is a join's ON, which join keywords, WHERE and SET end as well. */
  datatype Mode = Mode(pipesOr: bool, inOn: bool)

  function Stops(md: Mode): set<string> { if md.inOn then TAIL + JOINS + {"WHERE", "SET"} else TAIL }

  const INFIX := {"IS", "IN", "LIKE", "ILIKE", "GLOB", "MATCH", "REGEXP", "RLIKE", "BETWEEN", "SIMILAR", "ESCAPE", "COLLATE",
    "ANY", "ALL", "SOME", "OVERLAPS", "DIV", "MOD", "XOR", "INTERVAL", "BINARY", "FROM", "TO"}

  const ARMS := {"WHEN", "THEN", "ELSE"}

  /** Words after which an operand must follow. */
  predicate Introducer(w: string) { w in {"AND", "OR", "NOT", "CASE"} || w in ARMS || w in INFIX }

  /** Words that are a boundary in operator position and a name in operand position. */
  predicate Positional(w: string) { w in TAIL || w in JOINS || w in {"WHERE", "SET", "END"} }

  /** An infix word is no boundary and no part of a CASE. */
  lemma InfixApart(w: string)
    requires w in INFIX
    ensures w !in TAIL && w !in ARMS && w !in {"CASE", "END", "AND", "OR"}
  {
  }

  lemma InfixNoJoin(w: string)
    requires w in INFIX
    ensures w !in JOINS && w !in {"WHERE", "SET"}
  {
  }

  predicate CompletesOperand(k: TokenKind) {
    k.NumberLit? || k.StringLit? || k.QuotedIdent? || k.ParamRef? || k.PositionalParam? || k.RParen?
  }

  predicate OpensOperand(k: TokenKind) { k.LParen? || k.Comma? || k.Operator? || k.Cast? }

  /** `afterOperand`: is the next identifier in operand position? */
  function AfterOperand(t: Tok, cur: bool): bool {
    if CompletesOperand(t.kind) then false
    else if OpensOperand(t.kind) then true
    else if t.kind.Other? then IsDot(t) || cur
    else if t.kind.Ident? then Introducer(Word(t))
    else cur
  }

  /** `looseOrOperator`: OR's level, but not spelled OR. */
  predicate LooseOr(t: Tok, dotted: bool, md: Mode) {
    (t.kind.Ident? && Word(t) == "XOR" && !dotted) || (t.kind.Operator? && md.pipesOr && HasPipes(t.text))
  }

  // ---------------------------------------------------------------- segments

  /** One token of a conjunct segment; `ident` for unquoted identifiers. */
  datatype ConjTok = ConjTok(text: string, ident: bool, afterDot: bool)

  function Append(seg: seq<ConjTok>, t: Tok): seq<ConjTok> {
    var afterDot := seg != [] && !seg[|seg| - 1].ident && seg[|seg| - 1].text == ".";
    seg + [ConjTok(t.text, t.kind.Ident?, afterDot)]
  }

  function AppendAll(seg: seq<ConjTok>, ts: seq<Tok>): seq<ConjTok>
    decreases |ts|
  {
    if ts == [] then seg else AppendAll(Append(seg, ts[0]), ts[1..])
  }

  /** `normalizedTokens`, once the text is lexed. */
  function Normal(ts: seq<Tok>): seq<ConjTok> { AppendAll([], ts) }

  lemma {:induction false} AppendConcat(seg: seq<ConjTok>, ts: seq<Tok>, us: seq<Tok>)
    ensures AppendAll(seg, ts + us) == AppendAll(AppendAll(seg, ts), us)
    decreases |ts|
  {
    if ts == [] {
      assert ts + us == us;
    } else {
      assert (ts + us)[1..] == ts[1..] + us;
      AppendConcat(Append(seg, ts[0]), ts[1..], us);
    }
  }

  lemma {:induction false} AppendLength(seg: seq<ConjTok>, ts: seq<Tok>)
    ensures |AppendAll(seg, ts)| == |seg| + |ts|
    decreases |ts|
  {
    if ts != [] {
      AppendLength(Append(seg, ts[0]), ts[1..]);
    }
  }

  /** Normalizing does not look back past a first token that is no dot. */
  lemma {:induction false} AppendBehind(c: ConjTok, seg: seq<ConjTok>, ts: seq<Tok>)
    requires c.ident || c.text != "."
    ensures AppendAll([c] + seg, ts) == [c] + AppendAll(seg, ts)
    decreases |ts|
  {
    if ts != [] {
      assert Append([c] + seg, ts[0]) == [c] + Append(seg, ts[0]);
      AppendBehind(c, Append(seg, ts[0]), ts[1..]);
    }
  }

  method NormalizedTokens(ts: seq<Tok>) returns (out: seq<ConjTok>)
    ensures out == Normal(ts)
  {
    out := [];
    for i := 0 to |ts|
      invariant AppendAll(out, ts[i..]) == Normal(ts)
    {
      assert ts[i..][1..] == ts[i + 1..];
      out := Append(out, ts[i]);
    }
  }
}
