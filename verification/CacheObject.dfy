/**
 The cache as its methods change it in place (runtime/runtime.go, runtime/observe.go).
 Each method is held to a function on `CacheState.Cache`; the eviction loops run under
 whatever touches other threads make meanwhile.
 */
module CacheObject {
  import opened Core
  import opened ShapeKeys
  import opened Composing
  import opened CacheKeys
  import opened CacheState
  import opened CacheProtocol
  import opened CacheSafety
  import opened CacheLedger
  import opened Eviction

  /** The touches that interfere with the k-th eviction of a loop. */
  type Interference = nat -> Touches

  /** The eviction loop of an insert. */
  function Trim(c: Cache, touches: Interference, k: nat): (r: Cache)
    requires Good(c)
    ensures Good(r) && !MustEvict(r) && r.m.Keys <= c.m.Keys && (c.m != map[] ==> r.m != map[]) && SameBut(c, r)
    decreases |c.m|
  {
    if !MustEvict(c) then c
    else
      NonEmpty(c);
      Trim(EvictOne(c, touches(k)), touches, k + 1)
  }

  /** The eviction loop of `SetMaxBytes`. */
  function Shrink(c: Cache, touches: Interference, k: nat): (r: Cache)
    requires Good(c)
    ensures Good(r) && !MustShrink(r) && r.m.Keys <= c.m.Keys && |r.m| <= |c.m| && SameBut(c, r)
    decreases |c.m|
  {
    if !MustShrink(c) then c
    else
      NonEmpty(c);
      Shrink(EvictOne(c, touches(k)), touches, k + 1)
  }

  /** What evictions leave alone. */
  ghost predicate SameBut(c: Cache, r: Cache) {
    r.cap == c.cap && r.entries == c.entries && r.fast == c.fast && r.pendingHits == c.pendingHits && HitsTotal(r) == HitsTotal(c)
  }

  /** Served from an entry: touched, and counted if anyone is watching. */
  function ServedFrom(c: Cache, e: nat): Cache
    requires e < |c.hits|
  {
    if c.track then Counted(Touched(c, e), e) else Touched(c, e)
  }

  function FastHit(c: Cache, r: Request): Option<nat> {
    if c.fast.Some? && MapKeyOf(r) in c.fast.value then Some(c.fast.value[MapKeyOf(r)]) else None
  }

  /** The state one access leaves when nothing but touches happens beside it. */
  function Accessed(w: Tables, c: Cache, r: Request, touches: Interference): Cache
    requires Good(c) && Sound(w, r)
  {
    if FastHit(c, r).Some? then FastServed(c, FastHit(c, r).value)
    else if MapKeyOf(r) in c.m then MutexServed(c, c.m[MapKeyOf(r)])
    else if Composed(w, r).Err? then c
    else Missed(c, MadeFor(r, Composed(w, r).value), touches)
  }

  function FastServed(c: Cache, e: nat): Cache
    requires Good(c)
  {
    if e < |c.hits| then ServedFrom(c, e) else c
  }

  function MutexServed(c: Cache, e: nat): Cache
    requires Good(c)
  {
    if e < |c.hits| then ServedFrom(HitLocked(c, e), e) else c
  }

  /** A miss: counted, inserted at the front, trimmed and perhaps published. */
  function Missed(c: Cache, en: Entry, touches: Interference): Cache
    requires Good(c) && en.mapKey !in c.m
  {
    var d := c.(misses := c.misses + 1);
    MissGood(c, c.misses + 1);
    InsertGood(d, en);
    Published(Trim(Inserted(d, en), touches, 0))
  }

  lemma RemoveKeepsCounts(c: Cache, e: nat)
    requires e < |c.entries| && e < |c.hits|
    ensures Removed(c, e).evictions == c.evictions
  {
  }

  lemma ShrunkSettled(c: Cache)
    requires Good(c) && |c.m| <= c.cap && !MustShrink(c)
    ensures Good(PublishedNow(c)) && Settled(PublishedNow(c))
  {
    PublishGood(c);
  }

  lemma {:induction false} ShrinkUnfolds(c: Cache, touches: Interference, k: nat)
    requires Good(c) && MustShrink(c)
    ensures c.order != [] && Good(Eviction.EvictOne(c, touches(k))) && |Eviction.EvictOne(c, touches(k)).m| < |c.m|
    ensures Shrink(c, touches, k) == Shrink(Eviction.EvictOne(c, touches(k)), touches, k + 1)
  {
    hide Good, Eviction.EvictOne, SameBut;
    NonEmpty(c);
  }

  lemma {:induction false} TrimUnfolds(c: Cache, touches: Interference, k: nat)
    requires Good(c) && MustEvict(c)
    ensures c.order != [] && Good(Eviction.EvictOne(c, touches(k))) && |Eviction.EvictOne(c, touches(k)).m| < |c.m|
    ensures Trim(c, touches, k) == Trim(Eviction.EvictOne(c, touches(k)), touches, k + 1)
  {
    hide Good, Eviction.EvictOne, SameBut;
    NonEmpty(c);
  }

  lemma FastServes(w: Tables, c: Cache, r: Request)
    requires Good(c) && EntriesOk(w, c.entries) && Sound(w, r) && c.fast.Some? && MapKeyOf(r) in c.fast.value
    ensures var e := c.fast.value[MapKeyOf(r)]; e < |c.hits| && c.entries[e].key == r.key && Found(w, c, r, e)
  {
    hide Sound, Composed, MapKeyOf, EntryOk;
    var e := c.fast.value[MapKeyOf(r)];
    assert c.entries[e] in c.entries;
    FoundServes(w, c.entries[e], r);
  }

  lemma MapKnown(c: Cache, k: string)
    requires Good(c) && k in c.m
    ensures c.m[k] < |c.entries| && c.m[k] < |c.hits|
  {
  }

  lemma TableKnown(w: Tables, r: Request)
    requires Sound(w, r)
    ensures r.query in w && TableOk(w[r.query]) && Composed(w, r) == Compose(r.style, w[r.query], r.key, r.tree, r.caps)
  {
  }

  lemma ServedGood(w: Tables, c: Cache, e: nat)
    requires Good(c) && EntriesOk(w, c.entries) && e < |c.hits|
    ensures Good(ServedFrom(c, e)) && ServedFrom(c, e).entries == c.entries && |c.hits| == |c.entries|
    ensures Settled(c) ==> Settled(ServedFrom(c, e))
  {
    hide EntriesOk;
    RefGood(c, c.ref + {e});
    CountGood(Touched(c, e), e);
    GoodHits(c);
    hide Good;
  }

  lemma MutexGood(w: Tables, c: Cache, e: nat)
    requires Good(c) && EntriesOk(w, c.entries) && e in c.order && e < |c.hits| && Settled(c)
    ensures HitLocked(c, e).hits == c.hits && Good(ServedFrom(HitLocked(c, e), e)) && ServedFrom(HitLocked(c, e), e).entries == c.entries
    ensures Settled(ServedFrom(HitLocked(c, e), e))
  {
    hide EntriesOk, Good, HitLocked, ServedFrom;
    HitGood(c, e);
    HitKeeps(c, e);
    ServedGood(w, HitLocked(c, e), e);
  }

  lemma MissKeeps(w: Tables, c: Cache, r: Request, en: Entry, touches: Interference)
    requires Good(c) && Settled(c) && EntriesOk(w, c.entries) && ComposedFor(w, r, en) && en.mapKey !in c.m
    ensures var d := Missed(c, en, touches); Good(d) && EntriesOk(w, d.entries) && Settled(d)
  {
    hide EntriesOk, Good, ComposedFor, Trim, Inserted, Published;
    var d := c.(misses := c.misses + 1);
    MissGood(c, c.misses + 1);
    InsertGood(d, en);
    InsertBooks(d, en);
    InsertEntries(d, en);
    EntriesGrow(w, c.entries, r, en);
    var e := Trim(Inserted(d, en), touches, 0);
    PublishGood(e);
    PublishKeeps(e);
  }

  lemma InsertEntries(c: Cache, en: Entry)
    ensures Inserted(c, en).entries == c.entries + [en]
  {
  }

  /** An access keeps every invariant of the shared state. */
  lemma AccessedGood(w: Tables, c: Cache, r: Request, touches: Interference)
    requires Good(c) && Settled(c) && EntriesOk(w, c.entries) && Sound(w, r)
    ensures var d := Accessed(w, c, r, touches); Good(d) && Settled(d) && EntriesOk(w, d.entries)
  {
    hide Good, Settled, EntriesOk, Sound, MapKeyOf, Missed, ServedFrom, HitLocked, MadeFor;
    TableKnown(w, r);
    if FastHit(c, r).Some? {
      FastServes(w, c, r);
      ServedGood(w, c, FastHit(c, r).value);
    } else if MapKeyOf(r) in c.m {
      NoCollision(w, c, r);
      MapKnown(c, MapKeyOf(r));
      MutexGood(w, c, c.m[MapKeyOf(r)]);
    } else if Composed(w, r).Ok? {
      var en := MadeFor(r, Composed(w, r).value);
      MadeUnder(r, Composed(w, r).value);
      MissKeeps(w, c, r, en, touches);
    }
  }

  datatype CacheStats = CacheStats(
    hits: nat, misses: nat, inserts: nat, evictions: nat, entries: nat, capacity: nat, sqlBytes: int)

  /** `walk` holds the entries of the visited texts, each once. */
  ghost predicate Walked(c: Cache, walk: seq<nat>, rest: set<string>) {
    NoDup(walk) && rest <= c.m.Keys &&
    (forall k <- c.m :: k in rest || c.m[k] in walk) &&
    forall e <- walk :: e in c.order && e < |c.entries| && c.entries[e].mapKey !in rest
  }

  lemma {:induction false} WalkOn(c: Cache, walk: seq<nat>, rest: set<string>, k: string)
    requires Linked(c) && Walked(c, walk, rest) && k in rest
    ensures Walked(c, [c.m[k]] + walk, rest - {k})
    ensures c.m[k] < |c.hits| && Sum(c.hits, [c.m[k]] + walk) == c.hits[c.m[k]] + Sum(c.hits, walk)
  {
    assert c.m[k] in c.order;
    assert c.m[k] !in walk;
    FrontNoDup(c.m[k], walk);
    SumFront(c.hits, c.m[k], walk);
  }

  lemma WalkStarts(c: Cache)
    ensures Walked(c, [], c.m.Keys) && Sum(c.hits, []) == 0
  {
  }

  lemma {:induction false} WalkDone(c: Cache, walk: seq<nat>)
    requires Linked(c) && Walked(c, walk, {})
    ensures Sum(c.hits, walk) == Sum(c.hits, c.order)
  {
    forall e | e in c.order ensures e in walk {
      assert c.m[c.entries[e].mapKey] == e;
    }
    SumWalk(c.hits, walk, c.order);
  }

  class ComposedCache {
    const cap: nat
    var m: map<string, nat>
    var order: seq<nat>
    var fast: Option<map<string, nat>>
    var sinceSnap: nat
    var evictedSince: bool
    var snapshots: nat
    var hitFlushCredit: bool
    var pendingHits: nat
    var track: bool
    var misses: nat
    var inserts: nat
    var evictions: nat
    var hitsFolded: nat
    var sqlBytes: int
    var maxBytes: int
    var totalBytes: int
    var entries: seq<Entry>
    var ref: set<nat>
    var hits: seq<nat>

    function State(): Cache
      reads this
    {
      Cache(cap, m, order, fast, sinceSnap, evictedSince, snapshots, hitFlushCredit, pendingHits, track,
            misses, inserts, evictions, hitsFolded, sqlBytes, maxBytes, totalBytes, entries, ref, hits)
    }

    constructor (capacity: int)
      ensures cap == if capacity <= 0 then DEFAULT_CAPACITY else capacity
      ensures m == map[] && order == [] && fast.None? && entries == [] && ref == {} && hits == []
      ensures sinceSnap == snapshots == pendingHits == misses == inserts == evictions == hitsFolded == sqlBytes == totalBytes == 0
      ensures !evictedSince && !hitFlushCredit && !track && maxBytes == DEFAULT_MAX_BYTES
    {
      cap := if capacity <= 0 then DEFAULT_CAPACITY else capacity;
      m, order, fast, entries, ref, hits := map[], [], None, [], {}, [];
      sinceSnap, evictedSince, snapshots, hitFlushCredit, pendingHits, track := 0, false, 0, false, 0, false;
      misses, inserts, evictions, hitsFolded, sqlBytes, maxBytes, totalBytes := 0, 0, 0, 0, 0, DEFAULT_MAX_BYTES, 0;
    }

    method Touch(e: nat)
      modifies this`ref
      ensures State() == Touched(old(State()), e)
    {
      if e !in ref {
        ref := ref + {e};
      }
      assert ref == old(ref) + {e};
    }

    method CountHit(e: nat)
      requires e < |hits|
      modifies this`hits
      ensures State() == if track then Counted(old(State()), e) else old(State())
    {
      if track {
        hits := hits[e := hits[e] + 1];
      }
    }

    method MoveToFront(e: nat)
      modifies this`order
      ensures State() == MovedToFront(old(State()), e)
    {
      order := [e] + Without(order, e);
    }

    /** The list, the map and the totals give an entry up together. */
    method Unlink(e: nat)
      requires e < |entries| && e < |hits|
      modifies this`order, this`m, this`hitsFolded, this`sqlBytes, this`totalBytes, this`evictedSince
      ensures order == Without(old(order), e) && m == old(m) - {entries[e].mapKey}
      ensures hitsFolded == old(hitsFolded) + hits[e] && evictedSince
      ensures sqlBytes == old(sqlBytes) - |entries[e].sql| && totalBytes == old(totalBytes) - EntryBytes(entries[e])
    {
      order := Without(order, e);
      m := m - {entries[e].mapKey};
      hitsFolded := hitsFolded + hits[e];
      sqlBytes := sqlBytes - |entries[e].sql|;
      totalBytes := totalBytes - EntryBytes(entries[e]);
      evictedSince := true;
    }

    method Remove(e: nat)
      requires e < |entries| && e < |hits|
      modifies this
      ensures State() == Removed(old(State()), e)
    {
      Unlink(e);
    }

    /** One turn of the clock hand with `i` reprieves left. */
    method Examine(touched: set<nat>, i: nat) returns (evicted: bool)
      requires Good(State()) && order != []
      modifies this
      ensures
        var d := old(State()).(ref := old(State()).ref + touched);
        Good(d) && evicted == (i == 0 || !Reprieved(d)) && State() == if evicted then EvictedBack(d) else Reprieve(d)
    {
      hide Linked, Tallied, OneFewer, Removed, MovedToFront;
      RefGood(State(), ref + touched);
      ref := ref + touched;
      ghost var d := State();
      OrderLinked(d);
      var e := order[|order| - 1];
      if i > 0 && e in ref {
        ref := ref - {e};
        MoveToFront(e);
        return false;
      }
      BackKnown(d);
      Remove(e);
      ghost var f := State();
      evictions := evictions + 1;
      assert State() == f.(evictions := f.evictions + 1);
      RemoveKeepsCounts(d, e);
      return true;
    }

    /** `evictOne`: bounded reprieves, then the back entry goes regardless. */
    method EvictOne(touches: Touches)
      requires Good(State()) && order != []
      modifies this
      ensures State() == Eviction.EvictOne(old(State()), touches)
      ensures OneFewer(old(State()), State())
    {
      hide Good, Sweep, OneFewer, Linked, Reprieve, EvictedBack, Reprieved;
      ghost var start := State();
      var i: nat := |m|;
      var evicted := false;
      while !evicted
        invariant Good(start) && start.order != []
        invariant if evicted then State() == Sweep(start, touches, |start.m|)
          else Good(State()) && order != [] && Sweep(State(), touches, i) == Sweep(start, touches, |start.m|)
        decreases !evicted, i
      {
        SweepUnfolds(State(), touches, i);
        evicted := Examine(touches(i), i);
        i := if i > 0 then i - 1 else 0;
      }
    }

    /** `publishNow`, field by field. */
    method Republish()
      modifies this`fast, this`sinceSnap, this`evictedSince, this`snapshots, this`pendingHits, this`hitFlushCredit
      ensures fast == Some(m) && sinceSnap == 0 && !evictedSince && snapshots == old(snapshots) + 1 && pendingHits == 0 && hitFlushCredit
    {
      fast := Some(m);
      sinceSnap := 0;
      evictedSince := false;
      snapshots := snapshots + 1;
      pendingHits := 0;
      hitFlushCredit := true;
    }

    method PublishNow()
      modifies this
      ensures State() == PublishedNow(old(State()))
    {
      Republish();
    }

    method Publish()
      modifies this
      ensures State() == Published(old(State()))
    {
      sinceSnap := sinceSnap + 1;
      if evictedSince && sinceSnap < cap {
        return;
      }
      PublishNow();
    }

    /** The eviction loop of `SetMaxBytes`. */
    method EvictToLimit(touches: Interference)
      requires Good(State())
      modifies this
      ensures State() == Shrink(old(State()), touches, 0)
    {
      hide OneFewer, Good, Linked, SameBut;
      ghost var start := State();
      var k := 0;
      while |m| > 1 && maxBytes > 0 && totalBytes > maxBytes
        invariant Good(start) && Good(State()) && Shrink(State(), touches, k) == Shrink(start, touches, 0)
        decreases |m|
      {
        ShrinkUnfolds(State(), touches, k);
        EvictOne(touches(k));
        k := k + 1;
      }
    }

    method SetMaxBytes(n: int, touches: Interference)
      requires Good(State()) && Settled(State())
      modifies this
      ensures Good(old(State()).(maxBytes := n))
      ensures State() == PublishedNow(Shrink(old(State()).(maxBytes := n), touches, 0))
      ensures Good(State()) && Settled(State())
    {
      hide Good, Settled, SameBut, PublishedNow, Shrink;
      LimitGood(State(), n);
      maxBytes := n;
      EvictToLimit(touches);
      ShrunkSettled(State());
      PublishNow();
    }

    /** The eviction loop of an insert. */
    method EvictToBounds(touches: Interference)
      requires Good(State())
      modifies this
      ensures State() == Trim(old(State()), touches, 0)
    {
      hide OneFewer, Good, Linked, SameBut;
      ghost var start := State();
      var k := 0;
      while |m| > cap || (maxBytes > 0 && totalBytes > maxBytes && |m| > 1)
        invariant Good(start) && Good(State()) && Trim(State(), touches, k) == Trim(start, touches, 0)
        decreases |m|
      {
        TrimUnfolds(State(), touches, k);
        EvictOne(touches(k));
        k := k + 1;
      }
    }

    /** A new entry at the front of the list, indexed and counted. */
    method Link(en: Entry)
      modifies this`entries, this`hits, this`order, this`m, this`inserts, this`sqlBytes, this`totalBytes
      ensures entries == old(entries) + [en] && hits == old(hits) + [0] && order == [|old(entries)|] + old(order)
      ensures m == old(m)[en.mapKey := |old(entries)|] && inserts == old(inserts) + 1
      ensures sqlBytes == old(sqlBytes) + |en.sql| && totalBytes == old(totalBytes) + EntryBytes(en)
    {
      var e := |entries|;
      entries := entries + [en];
      hits := hits + [0];
      order := [e] + order;
      m := m[en.mapKey := e];
      inserts := inserts + 1;
      sqlBytes := sqlBytes + |en.sql|;
      totalBytes := totalBytes + EntryBytes(en);
    }

    method Insert(en: Entry)
      modifies this
      ensures State() == Inserted(old(State()), en)
    {
      Link(en);
    }

    method HitUnderLock(e: nat)
      modifies this
      ensures State() == HitLocked(old(State()), e)
    {
      hide Without;
      MoveToFront(e);
      ghost var moved := State();
      pendingHits := pendingHits + 1;
      assert State() == moved.(pendingHits := moved.pendingHits + 1);
      if hitFlushCredit || pendingHits >= cap {
        PublishNow();
        ghost var flushed := State();
        hitFlushCredit := false;
        assert State() == flushed.(credit := false);
      }
    }

    method Serve(e: nat)
      requires e < |hits|
      modifies this
      ensures State() == ServedFrom(old(State()), e)
    {
      Touch(e);
      ghost var touched := State();
      CountHit(e);
    }

    /** The miss path after composition. */
    method Miss(en: Entry, touches: Interference)
      requires Good(State()) && en.mapKey !in m
      modifies this
      ensures State() == Missed(old(State()), en, touches)
    {
      hide Good, Inserted, Published, Trim;
      MissGood(State(), misses + 1);
      misses := misses + 1;
      InsertGood(State(), en);
      Insert(en);
      EvictToBounds(touches);
      Publish();
    }

    /** The lock-free lookup, with the full key compared. */
    method LookFast(w: Tables, r: Request) returns (answer: Option<Answer>)
      requires Sound(w, r) && Good(State()) && EntriesOk(w, entries)
      modifies this
      ensures answer.Some? <==> FastHit(old(State()), r).Some?
      ensures answer.None? ==> State() == old(State())
      ensures answer.Some? ==>
        State() == FastServed(old(State()), FastHit(old(State()), r).value) && r.query in w && TableOk(w[r.query]) && answer == Some(Composed(w, r))
    {
      hide Good, EntriesOk, Sound, Composed, MapKeyOf, ServedFrom, Served, TableOk;
      var mk := MapKeyOf(r);
      answer := None;
      if fast.Some? && mk in fast.value {
        FastServes(w, State(), r);
        TableKnown(w, r);
        var e := fast.value[mk];
        var same := KeysEqual(entries[e].key, r.key);
        if same {
          answer := Some(Ok(Served(entries[e])));
          Serve(e);
        }
      }
    }

    /** The lookup under the mutex; a colliding entry would be dropped. */
    method LookLocked(w: Tables, r: Request) returns (answer: Option<Answer>)
      requires Sound(w, r) && Good(State()) && EntriesOk(w, entries)
      modifies this
      ensures answer.Some? <==> MapKeyOf(r) in old(State()).m
      ensures answer.None? ==> State() == old(State())
      ensures answer.Some? ==>
        State() == MutexServed(old(State()), old(State()).m[MapKeyOf(r)]) && r.query in w && TableOk(w[r.query]) && answer == Some(Composed(w, r))
    {
      hide Good, EntriesOk, Sound, Composed, MapKeyOf, ServedFrom, HitLocked, Served, Removed, TableOk;
      var mk := MapKeyOf(r);
      ghost var start := State();
      answer := None;
      if mk in m {
        var e := m[mk];
        MapKnown(start, mk);
        var same := KeysEqual(entries[e].key, r.key);
        if same {
          NoCollision(w, start, r);
          TableKnown(w, r);
          answer := Some(Ok(Served(entries[e])));
          HitUnderLock(e);
          HitKeeps(start, e);
          Serve(e);
        } else {
          Remove(e);
          NoCollision(w, start, r);
          assert false;
        }
      }
    }

    /** `entry` after the tree check, undisturbed but for touches: the answer is the
        composed statement, and the state is what the path taken says. */
    method Entry(w: Tables, r: Request, touches: Interference) returns (answer: Answer)
      requires Sound(w, r) && Good(State()) && Settled(State()) && EntriesOk(w, entries)
      modifies this
      ensures State() == Accessed(w, old(State()), r, touches)
      ensures r.query in w && TableOk(w[r.query]) && answer == Composed(w, r)
    {
      hide Good, EntriesOk, Sound, MapKeyOf, Missed, FastServed, MutexServed, FastHit, MadeFor, TableOk, Composing.Compose;
      TableKnown(w, r);
      var found := LookFast(w, r);
      if found.None? {
        found := LookLocked(w, r);
      }
      if found.Some? {
        return found.value;
      }
      answer := ComposeTreeStyle(r.style, w[r.query], r.key, r.tree, r.caps);
      if answer.Ok? {
        var en := MadeFor(r, answer.value);
        MadeUnder(r, answer.value);
        Miss(en, touches);
      }
    }

    /** `Stats`: the map is walked in no particular order. */
    method Stats() returns (s: CacheStats)
      requires Good(State())
      modifies this`track
      ensures track && State() == old(State()).(track := true)
      ensures s == CacheStats(HitsTotal(State()), misses, inserts, evictions, |m|, cap, sqlBytes)
      ensures s.inserts == s.evictions + s.entries
    {
      hide NoDup, Sum, Lists, Maps, Snapshot;
      track := true;
      var rest, acc := m.Keys, hitsFolded;
      ghost var walk: seq<nat> := [];
      WalkStarts(State());
      while rest != {}
        invariant track && Walked(State(), walk, rest) && acc == hitsFolded + Sum(hits, walk)
        decreases rest
      {
        hide Walked;
        var k: string :| k in rest;
        WalkOn(State(), walk, rest, k);
        acc := acc + hits[m[k]];
        walk := [m[k]] + walk;
        rest := rest - {k};
      }
      WalkDone(State(), walk);
      s := CacheStats(acc, misses, inserts, evictions, |m|, cap, sqlBytes);
    }
  }
}
