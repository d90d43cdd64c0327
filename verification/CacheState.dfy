/**
 The shared state of a composed-statement cache and every change made to it under the
 mutex (runtime/runtime.go), as functions on one value. Entries live in an arena that
 only grows, so a reader that still holds an evicted entry keeps a meaning.
 */
module CacheState {
  import opened Core
  import opened ShapeKeys
  import opened Composing

  /** The immutable part of a cache entry. */
  datatype Entry = Entry(mapKey: string, query: string, key: ShapeKey, sql: string, binds: seq<Bind>, argIdx: seq<int>)

  const BIND_BYTES := 8

  function EntryBytes(e: Entry): nat { |e.sql| + |e.mapKey| + |e.binds| * BIND_BYTES + |e.argIdx| * 2 }

  /** `order` is the recency list, front first; `fast` is the published snapshot; `ref`
      holds the entries whose second-chance bit is set; `hits` counts per entry. */
  datatype Cache = Cache(
    cap: nat,
    m: map<string, nat>,
    order: seq<nat>,
    fast: Option<map<string, nat>>,
    sinceSnap: nat,
    evictedSince: bool,
    snapshots: nat,
    credit: bool,
    pendingHits: nat,
    track: bool,
    misses: nat,
    inserts: nat,
    evictions: nat,
    hitsFolded: nat,
    sqlBytes: int,
    maxBytes: int,
    totalBytes: int,
    entries: seq<Entry>,
    ref: set<nat>,
    hits: seq<nat>)

  const DEFAULT_CAPACITY := 256
  const DEFAULT_MAX_BYTES := 0x400_0000

  function NewCache(capacity: int): Cache {
    Cache(if capacity <= 0 then DEFAULT_CAPACITY else capacity, map[], [], None, 0, false, 0, false, 0, false,
          0, 0, 0, 0, 0, DEFAULT_MAX_BYTES, 0, [], {}, [])
  }

  // ---------------------------------------------------------------- list and sums

  function Without(s: seq<nat>, x: nat): seq<nat> {
    if s == [] then [] else (if s[0] == x then [] else [s[0]]) + Without(s[1..], x)
  }

  predicate NoDup(s: seq<nat>) { forall i, j :: 0 <= i < j < |s| ==> s[i] != s[j] }

  lemma TailNoDup(s: seq<nat>)
    requires NoDup(s) && s != []
    ensures NoDup(s[1..]) && s[0] !in s[1..] && forall y :: y in s <==> y == s[0] || y in s[1..]
  {
    assert s == [s[0]] + s[1..];
  }

  lemma FrontNoDup(x: nat, s: seq<nat>)
    requires NoDup(s) && x !in s
    ensures NoDup([x] + s)
  {
  }

  lemma {:induction false} WithoutMember(s: seq<nat>, x: nat)
    requires NoDup(s)
    ensures forall y :: y in Without(s, x) <==> y in s && y != x
    ensures NoDup(Without(s, x))
    ensures |Without(s, x)| == if x in s then |s| - 1 else |s|
  {
    if s != [] {
      TailNoDup(s);
      hide NoDup;
      WithoutMember(s[1..], x);
      if s[0] != x {
        FrontNoDup(s[0], Without(s[1..], x));
      }
    }
  }

  lemma {:induction false} WithoutLast(s: seq<nat>, x: nat)
    requires s != [] && NoDup(s) && s[|s| - 1] == x
    ensures Without(s, x) == s[..|s| - 1]
  {
    if |s| > 1 {
      assert s[1..][|s| - 2] == x;
      WithoutLast(s[1..], x);
      assert s[..|s| - 1] == [s[0]] + s[1..][..|s| - 2];
    }
  }

  function At(weight: seq<nat>, x: nat): nat { if x < |weight| then weight[x] else 0 }

  /** Sum of a weight over the listed entries. */
  function Sum(weight: seq<nat>, s: seq<nat>): nat {
    if s == [] then 0 else At(weight, s[0]) + Sum(weight, s[1..])
  }

  lemma {:induction false} SumFront(weight: seq<nat>, x: nat, s: seq<nat>)
    ensures Sum(weight, [x] + s) == At(weight, x) + Sum(weight, s)
  {
    assert ([x] + s)[1..] == s;
  }

  lemma {:induction false} SumWithout(weight: seq<nat>, s: seq<nat>, x: nat)
    requires NoDup(s)
    ensures Sum(weight, s) == Sum(weight, Without(s, x)) + (if x in s then At(weight, x) else 0)
  {
    if s != [] {
      TailNoDup(s);
      hide NoDup, At;
      WithoutMember(s[1..], x);
      SumWithout(weight, s[1..], x);
      if s[0] != x {
        SumFront(weight, s[0], Without(s[1..], x));
      } else {
        assert Without(s, x) == [] + Without(s[1..], x) == Without(s[1..], x);
      }
    }
  }

  lemma {:induction false} SumSame(weight: seq<nat>, weight': seq<nat>, s: seq<nat>)
    requires forall x <- s :: At(weight, x) == At(weight', x)
    ensures Sum(weight, s) == Sum(weight', s)
  {
    if s != [] {
      SumSame(weight, weight', s[1..]);
    }
  }

  lemma {:induction false} SumBump(weight: seq<nat>, x: nat, s: seq<nat>)
    requires x < |weight| && NoDup(s)
    ensures Sum(weight[x := weight[x] + 1], s) == Sum(weight, s) + (if x in s then 1 else 0)
  {
    SumWithout(weight, s, x);
    SumWithout(weight[x := weight[x] + 1], s, x);
    WithoutMember(s, x);
    SumSame(weight, weight[x := weight[x] + 1], Without(s, x));
  }

  function SqlWeights(es: seq<Entry>): seq<nat> { seq(|es|, i requires 0 <= i < |es| => |es[i].sql|) }

  function ByteWeights(es: seq<Entry>): seq<nat> { seq(|es|, i requires 0 <= i < |es| => EntryBytes(es[i])) }

  // ---------------------------------------------------------------- well-formed states

  /** Every text of the map leads to a listed entry made for it. */
  ghost predicate Maps(m: map<string, nat>, order: seq<nat>, es: seq<Entry>) {
    forall k <- m :: m[k] in order && m[k] < |es| && es[m[k]].mapKey == k
  }

  /** Every listed entry is found in the map under its own text. */
  ghost predicate Lists(m: map<string, nat>, order: seq<nat>, es: seq<Entry>) {
    forall e <- order :: e < |es| && es[e].mapKey in m && m[es[e].mapKey] == e
  }

  /** The map and the list hold the same entries, each under its own text. */
  ghost predicate Linked(c: Cache) {
    |c.hits| == |c.entries| && |c.m| == |c.order| &&
    NoDup(c.order) && Lists(c.m, c.order, c.entries) && Maps(c.m, c.order, c.entries)
  }

  /** A map from lookup texts to entries made for them. */
  ghost predicate Snapshot(es: seq<Entry>, f: map<string, nat>) {
    forall k <- f :: f[k] < |es| && es[f[k]].mapKey == k
  }

  ghost predicate Tallied(c: Cache) {
    c.sqlBytes == Sum(SqlWeights(c.entries), c.order) &&
    c.totalBytes == Sum(ByteWeights(c.entries), c.order) &&
    c.inserts - c.evictions == |c.m|
  }

  /** What holds between any two steps of any threads. */
  ghost predicate Good(c: Cache) {
    c.cap >= 1 && Linked(c) && Tallied(c) &&
    (c.fast.Some? ==> Snapshot(c.entries, c.fast.value) && |c.fast.value| <= c.cap)
  }

  predicate OverBytes(c: Cache) { c.maxBytes > 0 && c.totalBytes > c.maxBytes }

  /** What holds besides whenever the mutex is free. */
  ghost predicate Settled(c: Cache) {
    |c.m| <= c.cap && c.pendingHits < c.cap && (OverBytes(c) ==> |c.m| <= 1)
  }

  /** All hits ever counted on entries that are, or were at their removal, resident. */
  function HitsTotal(c: Cache): nat { c.hitsFolded + Sum(c.hits, c.order) }

  // ---------------------------------------------------------------- steps

  function Touched(c: Cache, e: nat): Cache { c.(ref := c.ref + {e}) }

  function Counted(c: Cache, e: nat): Cache
    requires e < |c.hits|
  {
    c.(hits := c.hits[e := c.hits[e] + 1])
  }

  function MovedToFront(c: Cache, e: nat): Cache { c.(order := [e] + Without(c.order, e)) }

  function Removed(c: Cache, e: nat): Cache
    requires e < |c.entries| && e < |c.hits|
  {
    c.(order := Without(c.order, e), m := c.m - {c.entries[e].mapKey}, hitsFolded := c.hitsFolded + c.hits[e],
       sqlBytes := c.sqlBytes - |c.entries[e].sql|, totalBytes := c.totalBytes - EntryBytes(c.entries[e]), evictedSince := true)
  }

  function Back(c: Cache): nat
    requires c.order != []
  {
    c.order[|c.order| - 1]
  }

  /** One turn of the clock hand: the back entry is reprieved or evicted. */
  predicate Reprieved(c: Cache)
    requires c.order != []
  {
    Back(c) in c.ref
  }

  function Reprieve(c: Cache): Cache
    requires c.order != []
  {
    MovedToFront(c.(ref := c.ref - {Back(c)}), Back(c))
  }

  function EvictedBack(c: Cache): Cache
    requires Linked(c) && c.order != []
  {
    assert Back(c) in c.order;
    Removed(c, Back(c)).(evictions := c.evictions + 1)
  }

  function PublishedNow(c: Cache): Cache {
    c.(fast := Some(c.m), sinceSnap := 0, evictedSince := false, snapshots := c.snapshots + 1, pendingHits := 0, credit := true)
  }

  /** An insert publishes unless the window saw an eviction and is not yet full. */
  predicate PublishDue(c: Cache) { !c.evictedSince || c.sinceSnap + 1 >= c.cap }

  function Published(c: Cache): Cache {
    if PublishDue(c) then PublishedNow(c.(sinceSnap := c.sinceSnap + 1)) else c.(sinceSnap := c.sinceSnap + 1)
  }

  /** A hit found under the mutex: credit, or `cap` hits without one, flushes. */
  function HitLocked(c: Cache, e: nat): Cache {
    var d := MovedToFront(c, e).(pendingHits := c.pendingHits + 1);
    if d.credit || d.pendingHits >= d.cap then PublishedNow(d).(credit := false) else d
  }

  function Inserted(c: Cache, en: Entry): Cache {
    var e := |c.entries|;
    c.(entries := c.entries + [en], hits := c.hits + [0], order := [e] + c.order, m := c.m[en.mapKey := e],
       inserts := c.inserts + 1, sqlBytes := c.sqlBytes + |en.sql|, totalBytes := c.totalBytes + EntryBytes(en))
  }

  /** The loop condition after an insert. */
  predicate MustEvict(c: Cache) { |c.m| > c.cap || (OverBytes(c) && |c.m| > 1) }

  /** The loop condition of `SetMaxBytes`. */
  predicate MustShrink(c: Cache) { |c.m| > 1 && OverBytes(c) }

  // ---------------------------------------------------------------- they keep states good

  lemma NewCacheGood(capacity: int)
    ensures Good(NewCache(capacity)) && Settled(NewCache(capacity))
  {
  }

  lemma {:induction false} MovedOrder(c: Cache, e: nat)
    requires Linked(c) && e in c.order
    ensures var o := [e] + Without(c.order, e); NoDup(o) && |o| == |c.order| && forall x :: x in o <==> x in c.order
  {
    WithoutMember(c.order, e);
  }

  lemma {:induction false} MovedKeepsSum(c: Cache, e: nat, weight: seq<nat>)
    requires Linked(c) && e in c.order
    ensures Sum(weight, [e] + Without(c.order, e)) == Sum(weight, c.order)
  {
    SumWithout(weight, c.order, e);
    SumFront(weight, e, Without(c.order, e));
  }

  lemma MoveGood(c: Cache, e: nat)
    requires Good(c) && e in c.order
    ensures Good(MovedToFront(c, e)) && HitsTotal(MovedToFront(c, e)) == HitsTotal(c)
  {
    hide NoDup, Without, Sum, Snapshot;
    MovedOrder(c, e);
    MovedKeepsSum(c, e, SqlWeights(c.entries));
    MovedKeepsSum(c, e, ByteWeights(c.entries));
    MovedKeepsSum(c, e, c.hits);
  }

  lemma RemoveGood(c: Cache, e: nat)
    requires Good(c) && e in c.order
    ensures |Removed(c, e).m| == |c.m| - 1
    ensures Good(Removed(c, e).(evictions := c.evictions + 1))
    ensures HitsTotal(Removed(c, e)) == HitsTotal(c)
  {
    hide NoDup, Without, Sum, Lists, Maps, Snapshot;
    RemoveLinked(c, e);
    RemoveTallied(c, e);
  }

  lemma RemoveLinked(c: Cache, e: nat)
    requires Linked(c) && e in c.order
    ensures Linked(Removed(c, e)) && |Removed(c, e).m| == |c.m| - 1
  {
    hide NoDup, Without;
    WithoutMember(c.order, e);
    var k := c.entries[e].mapKey;
    assert (c.m - {k}).Keys == c.m.Keys - {k};
    assert Lists(c.m - {k}, Without(c.order, e), c.entries);
    assert Maps(c.m - {k}, Without(c.order, e), c.entries);
  }

  lemma RemoveTallied(c: Cache, e: nat)
    requires Linked(c) && Tallied(c) && e in c.order
    ensures Tallied(Removed(c, e).(evictions := c.evictions + 1)) && HitsTotal(Removed(c, e)) == HitsTotal(c)
  {
    hide NoDup, Without, Sum, Snapshot;
    RemoveLinked(c, e);
    SumWithout(SqlWeights(c.entries), c.order, e);
    SumWithout(ByteWeights(c.entries), c.order, e);
    SumWithout(c.hits, c.order, e);
  }

  lemma ReprieveGood(c: Cache)
    requires Good(c) && c.order != []
    ensures Good(Reprieve(c)) && HitsTotal(Reprieve(c)) == HitsTotal(c)
  {
    hide Linked, Tallied, NoDup, Sum, Without, Snapshot;
    MoveGood(c.(ref := c.ref - {Back(c)}), Back(c)) by {
      RefGood(c, c.ref - {Back(c)});
    }
    RefGood(c, c.ref - {Back(c)});
  }

  lemma RefGood(c: Cache, ref: set<nat>)
    ensures Good(c) ==> Good(c.(ref := ref)) && HitsTotal(c.(ref := ref)) == HitsTotal(c)
  {
  }

  lemma InsertGood(c: Cache, en: Entry)
    requires Good(c) && en.mapKey !in c.m
    ensures Good(Inserted(c, en)) && |Inserted(c, en).m| == |c.m| + 1
    ensures HitsTotal(Inserted(c, en)) == HitsTotal(c)
  {
    InsertLinked(c, en);
    InsertTallied(c, en);
  }

  lemma InsertLinked(c: Cache, en: Entry)
    requires Linked(c) && en.mapKey !in c.m
    ensures Linked(Inserted(c, en)) && |Inserted(c, en).m| == |c.m| + 1
  {
    hide Maps, Lists;
    var e := |c.entries|;
    assert c.m[en.mapKey := e].Keys == c.m.Keys + {en.mapKey};
    InsertLists(c.m, c.order, c.entries, en);
    InsertMaps(c.m, c.order, c.entries, en);
  }

  lemma InsertLists(m: map<string, nat>, order: seq<nat>, es: seq<Entry>, en: Entry)
    requires Lists(m, order, es) && en.mapKey !in m
    ensures |es| !in order && Lists(m[en.mapKey := |es|], [|es|] + order, es + [en])
  {
    assert forall e <- order :: (es + [en])[e] == es[e];
  }

  lemma InsertMaps(m: map<string, nat>, order: seq<nat>, es: seq<Entry>, en: Entry)
    requires Maps(m, order, es) && en.mapKey !in m
    ensures Maps(m[en.mapKey := |es|], [|es|] + order, es + [en])
  {
    assert forall k <- m :: (es + [en])[m[k]] == es[m[k]];
  }

  lemma ListedKnown(c: Cache, x: nat)
    requires Linked(c) && x in c.order
    ensures x < |c.entries| && x < |c.hits|
  {
  }

  lemma InsertTallied(c: Cache, en: Entry)
    requires Linked(c) && Tallied(c) && en.mapKey !in c.m
    ensures Tallied(Inserted(c, en)) && HitsTotal(Inserted(c, en)) == HitsTotal(c)
  {
    hide NoDup, Sum, Lists, Maps;
    InsertLinked(c, en);
    var d, e := Inserted(c, en), |c.entries|;
    SumFront(SqlWeights(d.entries), e, c.order);
    SumFront(ByteWeights(d.entries), e, c.order);
    SumFront(d.hits, e, c.order);
    forall x | x in c.order
      ensures At(SqlWeights(c.entries), x) == At(SqlWeights(d.entries), x) && At(ByteWeights(c.entries), x) == At(ByteWeights(d.entries), x)
    {
      ListedKnown(c, x);
    }
    SumSame(SqlWeights(c.entries), SqlWeights(d.entries), c.order);
    SumSame(ByteWeights(c.entries), ByteWeights(d.entries), c.order);
    SumSame(c.hits, d.hits, c.order);
  }

  lemma MapIsSnapshot(m: map<string, nat>, order: seq<nat>, es: seq<Entry>)
    requires Maps(m, order, es)
    ensures Snapshot(es, m)
  {
  }

  lemma PublishGood(c: Cache)
    requires Good(c) && |c.m| <= c.cap
    ensures Good(PublishedNow(c)) && HitsTotal(PublishedNow(c)) == HitsTotal(c)
    ensures Good(Published(c)) && HitsTotal(Published(c)) == HitsTotal(c)
  {
    hide NoDup, Lists, Maps, Snapshot, Sum;
    MapIsSnapshot(c.m, c.order, c.entries);
  }

  lemma HitGood(c: Cache, e: nat)
    requires Good(c) && Settled(c) && e in c.order
    ensures Good(HitLocked(c, e)) && Settled(HitLocked(c, e)) && HitsTotal(HitLocked(c, e)) == HitsTotal(c)
  {
    hide Linked, Tallied, NoDup, Sum, Without, Snapshot;
    MoveGood(c, e);
    var d := MovedToFront(c, e).(pendingHits := c.pendingHits + 1);
    PendingGood(MovedToFront(c, e), c.pendingHits + 1);
    PublishGood(d);
    CreditGood(PublishedNow(d));
  }

  lemma PendingGood(c: Cache, n: nat)
    requires Good(c)
    ensures Good(c.(pendingHits := n)) && HitsTotal(c.(pendingHits := n)) == HitsTotal(c)
  {
  }

  lemma CreditGood(c: Cache)
    requires Good(c)
    ensures Good(c.(credit := false)) && HitsTotal(c.(credit := false)) == HitsTotal(c)
  {
  }

  lemma CountGood(c: Cache, e: nat)
    requires Good(c) && e < |c.hits|
    ensures Good(Counted(c, e))
    ensures HitsTotal(Counted(c, e)) == HitsTotal(c) + (if e in c.order then 1 else 0)
  {
    hide Sum;
    SumBump(c.hits, e, c.order);
  }
}
