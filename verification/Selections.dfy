/**
 From generated arguments to the key components a shape is composed from
 (runtime/runtime.go): sort keys and enum values.
 */
module Selections {
  import opened Core
  import opened FilterTree
  import opened Composing

  const MAX_ORDER_KEYS := 64

  const MAX_CHOOSE_ORDINALS := 255

  datatype SelectionError = TooMany | OutOfRange | SelectedTwice | Required

  /** `e >> 1`, rounding down. */
  function KeyOf(e: int): int { e / 2 }

  predicate InRange(e: int, numKeys: int) { 0 <= e && KeyOf(e) < numKeys }

  predicate Repeats(vals: seq<int>, i: nat)
    requires i < |vals|
  {
    exists j :: 0 <= j < i && KeyOf(vals[j]) == KeyOf(vals[i])
  }

  /** What is wrong with the first value that cannot be taken. */
  function Fault(vals: seq<int>, i: nat, numKeys: int): Option<SelectionError>
    requires i <= |vals|
    decreases |vals| - i
  {
    if i == |vals| then None
    else if !InRange(vals[i], numKeys) then Some(OutOfRange)
    else if Repeats(vals, i) then Some(SelectedTwice)
    else Fault(vals, i + 1, numKeys)
  }

  /** Each key of the block at most once, in whichever direction. */
  predicate ValidKeys(vals: seq<int>, numKeys: int) {
    (forall e <- vals :: InRange(e, numKeys)) && forall i, j :: 0 <= i < j < |vals| ==> KeyOf(vals[i]) != KeyOf(vals[j])
  }

  lemma {:induction false} NoFault(vals: seq<int>, i: nat, numKeys: int)
    requires i <= |vals|
    ensures Fault(vals, i, numKeys).None? <==>
      forall j :: i <= j < |vals| ==> InRange(vals[j], numKeys) && !Repeats(vals, j)
    decreases |vals| - i
  {
    hide InRange, Repeats;
    if i < |vals| {
      NoFault(vals, i + 1, numKeys);
    }
  }

  lemma {:induction false} FaultOrValid(vals: seq<int>, numKeys: int)
    ensures Fault(vals, 0, numKeys).None? <==> ValidKeys(vals, numKeys)
  {
    hide InRange, KeyOf;
    NoFault(vals, 0, numKeys);
    if Fault(vals, 0, numKeys).None? {
      forall i, j | 0 <= i < j < |vals| ensures KeyOf(vals[i]) != KeyOf(vals[j]) {
        Unrepeated(vals, i, j);
      }
    }
    if ValidKeys(vals, numKeys) {
      assert forall j :: 0 <= j < |vals| ==> vals[j] in vals;
    }
  }

  lemma Unrepeated(vals: seq<int>, i: nat, j: nat)
    requires i < j < |vals| && !Repeats(vals, j)
    ensures KeyOf(vals[i]) != KeyOf(vals[j])
  {
    hide KeyOf;
  }

  /** `OrderSeq`, the bits of the duplicate mask as a set. */
  method OrderSeq(vals: seq<int>, numKeys: int) returns (out: Result<seq<nat>, SelectionError>)
    ensures numKeys > MAX_ORDER_KEYS ==> out == Err(TooMany)
    ensures numKeys <= MAX_ORDER_KEYS ==>
      match Fault(vals, 0, numKeys) case None => out == Ok(vals) && ValidKeys(vals, numKeys) case Some(e) => out == Err(e) && !ValidKeys(vals, numKeys)
  {
    if numKeys > MAX_ORDER_KEYS {
      return Err(TooMany);
    }
    FaultOrValid(vals, numKeys);
    hide ValidKeys;
    var taken: seq<nat> := [];
    var seen: set<int> := {};
    for i := 0 to |vals|
      invariant taken == vals[..i] && Fault(vals, i, numKeys) == Fault(vals, 0, numKeys)
      invariant forall k :: k in seen <==> exists j :: 0 <= j < i && KeyOf(vals[j]) == k
    {
      var e := vals[i];
      if e < 0 || KeyOf(e) >= numKeys {
        return Err(OutOfRange);
      }
      if KeyOf(e) in seen {
        return Err(SelectedTwice);
      }
      seen := seen + {KeyOf(e)};
      taken := taken + [e];
    }
    assert taken == vals;
    out := Ok(taken);
  }

  /** Composition refuses a sequence exactly when some key is out of the block's range. */
  lemma {:induction false} PickedOk(keys: seq<Case>, picked: seq<nat>, first: bool)
    requires forall c <- keys :: CaseOk(c)
    ensures PickedKeys(keys, picked, first).Ok? <==> forall i :: 0 <= i < |picked| ==> picked[i] / 2 < |keys|
    decreases |picked|
  {
    hide CaseOk, CasePieces;
    if picked != [] {
      assert forall i :: 1 <= i < |picked| ==> picked[i] == picked[1..][i - 1];
      assert forall i :: 0 <= i < |picked[1..]| ==> picked[1..][i] == picked[i + 1];
      if picked[0] / 2 < |keys| {
        PickedOk(keys, picked[1..], false);
      }
    }
  }

  /** What `OrderSeq` lets through always composes. */
  lemma {:induction false} AcceptedComposes(keys: seq<Case>, deflt: Option<Case>, vals: seq<nat>)
    requires FragOk(OrderBy(keys, deflt)) && ValidKeys(vals, |keys|)
    ensures OrderPieces(keys, deflt, Some(vals)).Ok?
  {
    hide CaseOk, PickedKeys, CasePieces;
    PickedOk(keys, vals, true);
    assert forall i :: 0 <= i < |vals| ==> vals[i] in vals;
  }

  function Ordinals(numNamed: int, hasDefault: bool): int { numNamed + if hasDefault then 1 else 0 }

  /** An enum value that stands for a case: 1 and up for the named ones, 0 for the default. */
  predicate Names(v: int, numNamed: int, hasDefault: bool) { 1 <= v <= numNamed || (v == 0 && hasDefault) }

  /** `ChooseOrdinal`. */
  method ChooseOrdinal(v: int, numNamed: nat, hasDefault: bool) returns (out: Result<nat, SelectionError>)
    ensures Ordinals(numNamed, hasDefault) > MAX_CHOOSE_ORDINALS <==> out == Err(TooMany)
    ensures out.Ok? <==> Ordinals(numNamed, hasDefault) <= MAX_CHOOSE_ORDINALS && Names(v, numNamed, hasDefault)
    ensures out.Ok? ==> out.value < Ordinals(numNamed, hasDefault) && (v == 0 <==> out.value == numNamed) && (v != 0 ==> out.value + 1 == v)
    ensures out == Err(Required) ==> v == 0 && !hasDefault
  {
    var ordinals := if hasDefault then numNamed + 1 else numNamed;
    if ordinals > MAX_CHOOSE_ORDINALS {
      return Err(TooMany);
    }
    if v == 0 && hasDefault {
      return Ok(numNamed);
    } else if 1 <= v <= numNamed {
      return Ok(v - 1);
    } else if v == 0 {
      return Err(Required);
    }
    return Err(OutOfRange);
  }
}
