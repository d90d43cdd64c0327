/**
 Second-chance eviction (`evictOne`) under interference: readers may set the bit of any
 entry between two examinations. `Touches` gives what they set before each one.
 */
module Eviction {
  import opened Core
  import opened CacheState

  /** The entries touched since the last examination, by examinations left. */
  type Touches = nat -> set<nat>

  ghost predicate Untouched(touches: Touches) { forall i :: touches(i) == {} }

  /** What one eviction leaves: one entry fewer, taken from those that were there. */
  ghost predicate OneFewer(c: Cache, r: Cache) {
    Good(r) && |r.m| == |c.m| - 1 && r.evictions == c.evictions + 1 &&
    r.m.Keys < c.m.Keys && (forall k <- r.m :: r.m[k] == c.m[k]) &&
    HitsTotal(r) == HitsTotal(c) && r.evictedSince &&
    r == c.(m := r.m, order := r.order, hitsFolded := r.hitsFolded, sqlBytes := r.sqlBytes, totalBytes := r.totalBytes,
            evictions := r.evictions, evictedSince := true, ref := r.ref)
  }

  lemma EvictBackOneFewer(c: Cache)
    requires Good(c) && c.order != []
    ensures Linked(c) && OneFewer(c, EvictedBack(c))
  {
    hide Sum, Without, NoDup, Lists, Maps, Snapshot, Tallied, HitsTotal, EntryBytes;
    var e := Back(c);
    assert e in c.order && e < |c.entries| && e < |c.hits| by {
      BackKnown(c);
    }
    RemoveGood(c, e);
    RemoveKeys(c, e);
    HitsIgnoreEvictions(Removed(c, e), c.evictions + 1);
    hide Good, Linked;
  }

  lemma BackKnown(c: Cache)
    requires Linked(c) && c.order != []
    ensures Back(c) in c.order && Back(c) < |c.entries| && Back(c) < |c.hits|
  {
  }

  lemma HitsIgnoreEvictions(c: Cache, n: nat)
    ensures HitsTotal(c.(evictions := n)) == HitsTotal(c)
  {
  }

  lemma RemoveKeys(c: Cache, e: nat)
    requires Linked(c) && e in c.order
    ensures Removed(c, e).m.Keys < c.m.Keys && forall k <- Removed(c, e).m :: Removed(c, e).m[k] == c.m[k]
  {
    assert c.entries[e].mapKey in c.m;
  }

  lemma OneFewerAfter(c: Cache, d: Cache, r: Cache)
    requires OneFewer(d, r) && HitsTotal(d) == HitsTotal(c) && d == c.(ref := d.ref, order := d.order)
    ensures OneFewer(c, r)
  {
    hide Good, HitsTotal;
  }

  /** The rest of an eviction with `left` reprieves still possible. */
  function Sweep(c: Cache, touches: Touches, left: nat): (r: Cache)
    requires Good(c) && c.order != []
    ensures OneFewer(c, r)
    decreases left
  {
    var d := c.(ref := c.ref + touches(left));
    RefGood(c, d.ref);
    if left > 0 && Reprieved(d) then
      ReprieveGood(d);
      OneFewerAfter(c, Reprieve(d), Sweep(Reprieve(d), touches, left - 1));
      Sweep(Reprieve(d), touches, left - 1)
    else
      EvictBackOneFewer(d);
      OneFewerAfter(c, d, EvictedBack(d));
      EvictedBack(d)
  }

  lemma {:induction false} SweepUnfolds(c: Cache, touches: Touches, left: nat)
    requires Good(c) && c.order != []
    ensures var d := c.(ref := c.ref + touches(left));
      Good(d) &&
      (left > 0 && Reprieved(d) ==> Good(Reprieve(d)) && Reprieve(d).order != [] && Sweep(c, touches, left) == Sweep(Reprieve(d), touches, left - 1)) &&
      (left == 0 || !Reprieved(d) ==> Sweep(c, touches, left) == EvictedBack(d))
  {
    var d := c.(ref := c.ref + touches(left));
    RefGood(c, d.ref);
    if left > 0 && Reprieved(d) {
      ReprieveGood(d);
    }
    hide Good;
  }

  /** Examinations made by `Sweep`, the last one included. */
  function Examinations(c: Cache, touches: Touches, left: nat): (n: nat)
    requires Good(c) && c.order != []
    ensures n <= left + 1
    decreases left
  {
    var d := c.(ref := c.ref + touches(left));
    RefGood(c, d.ref);
    if left > 0 && Reprieved(d) then
      ReprieveGood(d);
      1 + Examinations(Reprieve(d), touches, left - 1)
    else 1
  }

  /** `evictOne`: at most one full sweep of reprieves. */
  function EvictOne(c: Cache, touches: Touches): (r: Cache)
    requires Good(c) && c.order != []
    ensures OneFewer(c, r) && Examinations(c, touches, |c.m|) <= |c.m| + 1
  {
    Sweep(c, touches, |c.m|)
  }

  // ---------------------------------------------------------------- the victim

  function Members(s: seq<nat>): set<nat> { set x | x in s }

  /** The clock after the last `k` entries were reprieved: the list is rotated. */
  function Rotated(c: Cache, k: nat): Cache
    requires k <= |c.order|
  {
    var n := |c.order| - k;
    c.(order := c.order[n..] + c.order[..n], ref := c.ref - Members(c.order[n..]))
  }

  lemma RotatedNoDup(o: seq<nat>, n: nat)
    requires NoDup(o) && n <= |o|
    ensures NoDup(o[n..] + o[..n])
  {
    var r := o[n..] + o[..n];
    forall i, j | 0 <= i < j < |r| ensures r[i] != r[j] {
      assert r[i] == o[if i < |o| - n then n + i else i - (|o| - n)];
      assert r[j] == o[if j < |o| - n then n + j else j - (|o| - n)];
    }
  }

  /** Moving the back of the rotated list to its front rotates it once more. */
  lemma RotateOrder(o: seq<nat>, n: nat)
    requires NoDup(o) && 0 < n <= |o|
    ensures var r := o[n..] + o[..n];
      r[|r| - 1] == o[n - 1] && [o[n - 1]] + Without(r, o[n - 1]) == o[n - 1..] + o[..n - 1]
  {
    var r := o[n..] + o[..n];
    RotatedNoDup(o, n);
    WithoutLast(r, o[n - 1]);
    assert [o[n - 1]] + r[..|o| - 1] == o[n - 1..] + o[..n - 1];
  }

  lemma RotateMarks(o: seq<nat>, n: nat, ref: set<nat>)
    requires NoDup(o) && 0 < n <= |o|
    ensures o[n - 1] !in Members(o[n..])
    ensures ref - Members(o[n..]) - {o[n - 1]} == ref - Members(o[n - 1..])
  {
    assert o[n - 1..] == [o[n - 1]] + o[n..];
  }

  lemma RotateOne(c: Cache, k: nat)
    requires Linked(c) && k < |c.order|
    ensures var d := Rotated(c, k);
      d.order != [] && Back(d) == c.order[|c.order| - 1 - k] &&
      MovedToFront(d.(ref := d.ref - {Back(d)}), Back(d)) == Rotated(c, k + 1)
    ensures c.order[|c.order| - 1 - k] in c.ref ==> Reprieved(Rotated(c, k))
  {
    hide NoDup, Without, Members, Lists, Maps;
    RotateOrder(c.order, |c.order| - k);
    RotateMarks(c.order, |c.order| - k, c.ref);
  }

  lemma {:induction false} RotatedGood(c: Cache, k: nat)
    requires Good(c) && k <= |c.order|
    ensures Good(Rotated(c, k)) && |Rotated(c, k).order| == |c.order|
  {
    if k == 0 {
      assert c.order[|c.order|..] + c.order[..|c.order|] == c.order;
      RefGood(c, Rotated(c, 0).ref);
    } else {
      RotatedGood(c, k - 1);
      RotateOne(c, k - 1);
      hide Good, Rotated;
      var d := Rotated(c, k - 1);
      RefGood(d, d.ref - {Back(d)});
      MoveGood(d.(ref := d.ref - {Back(d)}), Back(d));
    }
  }

  /** With nobody touching, the sweep turns the list past every touched entry at its end. */
  lemma {:induction false} SweepRotates(c: Cache, touches: Touches, k: nat, stop: nat)
    requires Good(c) && c.order != [] && Untouched(touches) && k <= stop <= |c.order|
    requires forall i :: |c.order| - stop <= i < |c.order| ==> c.order[i] in c.ref
    ensures Good(Rotated(c, k)) && Good(Rotated(c, stop))
    ensures Rotated(c, k).order != [] && Rotated(c, stop).order != []
    ensures Sweep(Rotated(c, k), touches, |c.order| - k) == Sweep(Rotated(c, stop), touches, |c.order| - stop)
    decreases stop - k
  {
    hide *;
    RotatedGood(c, k);
    RotatedGood(c, stop);
    if k < stop {
      RotatedTurn(c, k);
      SweepTurn(Rotated(c, k), touches, |c.order| - k);
      SweepRotates(c, touches, k + 1, stop);
    }
  }

  lemma RotatedTurn(c: Cache, k: nat)
    requires Good(c) && k < |c.order| && c.order[|c.order| - 1 - k] in c.ref
    ensures Rotated(c, k).order != [] && Reprieved(Rotated(c, k)) && Reprieve(Rotated(c, k)) == Rotated(c, k + 1)
  {
    hide Rotated, MovedToFront;
    RotateOne(c, k);
    hide Good;
  }

  lemma SweepTurn(c: Cache, touches: Touches, left: nat)
    requires Good(c) && c.order != [] && Untouched(touches) && left > 0 && Reprieved(c)
    ensures Good(Reprieve(c)) && Reprieve(c).order != []
    ensures Sweep(c, touches, left) == Sweep(Reprieve(c), touches, left - 1)
  {
    assert c.ref + touches(left) == c.ref;
    assert c.(ref := c.ref) == c;
    ReprieveGood(c);
    hide Good;
  }

  lemma {:induction false} SweepStops(c: Cache, touches: Touches, left: nat)
    requires Good(c) && c.order != [] && Untouched(touches) && (left == 0 || !Reprieved(c))
    ensures Sweep(c, touches, left) == EvictedBack(c)
  {
    assert c.ref + touches(left) == c.ref;
    assert c.(ref := c.ref) == c;
    hide Good;
  }

  /** Where the hand stops: the last entry whose bit is clear, if there is one. */
  function LastClear(order: seq<nat>, ref: set<nat>): (j: Option<nat>)
    ensures j.Some? ==> j.value < |order| && order[j.value] !in ref && forall i :: j.value < i < |order| ==> order[i] in ref
    ensures j.None? ==> forall e <- order :: e in ref
  {
    if order == [] then None
    else if order[|order| - 1] !in ref then Some(|order| - 1)
    else LastClear(order[..|order| - 1], ref)
  }

  /** Second chance. With no concurrent touch the victim is the back-most entry whose
      bit is clear, and the entries behind it are reprieved, in their order, at the
      front; when every bit is set, all are cleared and the back entry goes. */
  lemma SecondChance(c: Cache, touches: Touches)
    requires Good(c) && c.order != [] && Untouched(touches)
    ensures
      var o, r, j := c.order, EvictOne(c, touches), LastClear(c.order, c.ref);
      if j.Some? then r.order == o[j.value + 1..] + o[..j.value] && r.ref == c.ref - Members(o[j.value + 1..])
      else r.order == o[..|o| - 1] && r.ref == c.ref - Members(o)
  {
    hide *;
    var j := LastClear(c.order, c.ref);
    var n := if j.Some? then j.value + 1 else 0;
    ClearStops(c.order, c.ref, n);
    EvictStops(c, touches, |c.order| - n);
    DropLast(c.order, n);
  }

  /** Behind the last entry whose bit is clear every bit is set. */
  lemma {:induction false} ClearStops(o: seq<nat>, ref: set<nat>, n: nat)
    requires var j := LastClear(o, ref); n == if j.Some? then j.value + 1 else 0
    ensures n <= |o| && (forall i :: n <= i < |o| ==> o[i] in ref) && (n > 0 ==> o[n - 1] !in ref)
  {
    hide *;
  }

  lemma DropLast(o: seq<nat>, n: nat)
    requires n <= |o| && o != []
    ensures (o[n..] + o[..n])[..|o| - 1] == if n == 0 then o[..|o| - 1] else o[n..] + o[..n - 1]
    ensures n == 0 ==> o[n..] == o
  {
  }

  /** An eviction whose last `stop` entries are touched and whose next is not, or that
      has no next, ends by dropping the back of the rotated list. */
  lemma EvictStops(c: Cache, touches: Touches, stop: nat)
    requires Good(c) && c.order != [] && Untouched(touches) && stop <= |c.order|
    requires forall i :: |c.order| - stop <= i < |c.order| ==> c.order[i] in c.ref
    requires stop < |c.order| ==> c.order[|c.order| - 1 - stop] !in c.ref
    ensures
      var r, n := EvictOne(c, touches), |c.order| - stop;
      r.order == (c.order[n..] + c.order[..n])[..|c.order| - 1] && r.ref == c.ref - Members(c.order[n..])
  {
    hide Good, Sweep, Without, Members, Rotated, EvictedBack, OneFewer, Linked, Examinations, Reprieved, Back;
    GoodSize(c);
    RotatedNone(c);
    RotatedGood(c, stop);
    SweepRotates(c, touches, 0, stop);
    Stopped(c, stop);
    SweepStops(Rotated(c, stop), touches, |c.order| - stop);
    DropBack(c, stop);
  }

  lemma GoodSize(c: Cache)
    requires Good(c)
    ensures |c.m| == |c.order|
  {
  }

  lemma RotatedNone(c: Cache)
    ensures Rotated(c, 0) == c
  {
    var o, n := c.order, |c.order|;
    assert o[n..] + o[..n] == o && c.ref - Members(o[n..]) == c.ref;
  }

  lemma DropBack(c: Cache, stop: nat)
    requires Good(c) && c.order != [] && stop <= |c.order|
    requires Good(Rotated(c, stop))
    ensures
      var d, n := Rotated(c, stop), |c.order| - stop;
      Linked(d) && EvictedBack(d).order == (c.order[n..] + c.order[..n])[..|c.order| - 1] && EvictedBack(d).ref == c.ref - Members(c.order[n..])
  {
    hide Members;
    WithoutLast(Rotated(c, stop).order, Back(Rotated(c, stop)));
    hide Good;
  }

  lemma Stopped(c: Cache, stop: nat)
    requires Good(c) && stop <= |c.order| && c.order != []
    ensures NoDup(Rotated(c, stop).order)
    ensures stop < |c.order| ==>
      Back(Rotated(c, stop)) == c.order[|c.order| - 1 - stop] && (c.order[|c.order| - 1 - stop] !in c.ref ==> !Reprieved(Rotated(c, stop)))
    ensures stop == |c.order| ==> Rotated(c, stop).order == c.order
  {
    RotatedNoDup(c.order, |c.order| - stop);
  }

  /** An entry that was just inserted, its bit clear, survives the eviction its own
      insertion causes exactly when some other entry's bit is clear too. */
  lemma FreshSurvives(c: Cache, en: Entry, touches: Touches)
    requires Good(c) && en.mapKey !in c.m && |c.entries| !in c.ref && Untouched(touches)
    ensures Good(Inserted(c, en)) && Inserted(c, en).order != []
    ensures |c.entries| in EvictOne(Inserted(c, en), touches).order <==> exists e :: e in c.order && e !in c.ref
  {
    InsertGood(c, en);
    var d := Inserted(c, en);
    SecondChance(d, touches);
    hide Good, EvictOne;
    assert d.order == [|c.entries|] + c.order && d.order[0] == |c.entries|;
    var j := LastClear(d.order, d.ref);
    assert d.order[0] !in d.ref;
    if j.value > 0 {
      assert d.order[j.value] in c.order;
      assert d.order[..j.value][0] == |c.entries|;
    } else {
      assert forall e <- c.order :: e in c.ref;
      FreshUnlisted(c);
      assert d.order[1..] + d.order[..0] == c.order;
    }
  }

  lemma FreshUnlisted(c: Cache)
    requires Good(c)
    ensures |c.entries| !in c.order
  {
  }
}
