/**
 Safety of the cache protocol: under every schedule each finished access has the answer
 it is owed, and the published and the current map stay within the capacity.
 */
module CacheSafety {
  import opened Core
  import opened Pieces
  import opened FilterTree
  import opened Composing
  import opened CacheKeys
  import opened CacheState
  import opened CacheProtocol

  /** What one thread may rely on before its step. */
  ghost predicate Local(w: Tables, s: Sys, t: nat) {
    t < |s.threads| && TablesOk(w) && Good(s.c) && EntriesOk(w, s.c.entries) && PcOk(w, s.c, s.threads[t]) &&
    (Holds(s.threads[t]) <==> s.owner == Some(t)) && (s.owner.None? ==> Settled(s.c))
  }

  ghost predicate Safe(w: Tables, s: Sys) {
    (forall t :: 0 <= t < |s.threads| ==> Local(w, s, t)) &&
    TablesOk(w) && Good(s.c) && EntriesOk(w, s.c.entries) && (s.owner.None? ==> Settled(s.c)) &&
    (s.owner.Some? ==> s.owner.value < |s.threads|)
  }

  /** Changes a thread makes without the mutex. */
  ghost predicate LockFree(c: Cache, d: Cache) {
    d == c.(ref := d.ref, track := d.track) ||
    exists e :: CountsOne(c, d, e)
  }

  ghost predicate CountsOne(c: Cache, d: Cache, e: nat) { e < |c.hits| && d == Counted(c, e) }

  /** What one thread owes the others after its step. */
  ghost predicate SafeMove(w: Tables, s: Sys, t: nat, mv: Move) {
    Good(mv.c) && EntriesOk(w, mv.c.entries) && s.c.entries <= mv.c.entries && mv.c.cap == s.c.cap && PcOk(w, mv.c, mv.pc) &&
    (Holds(mv.pc) <==> mv.owner == Some(t)) && (mv.owner.None? ==> Settled(mv.c)) &&
    (if s.owner.Some? && s.owner != Some(t) then mv.owner == s.owner && LockFree(s.c, mv.c)
     else mv.owner.None? || mv.owner == Some(t))
  }

  // ---------------------------------------------------------------- other threads

  lemma SnapshotGrows(es: seq<Entry>, es': seq<Entry>, f: map<string, nat>)
    requires es <= es' && Snapshot(es, f)
    ensures Snapshot(es', f)
  {
  }

  lemma FoundGrows(w: Tables, c: Cache, d: Cache, r: Request, e: nat)
    requires Found(w, c, r, e) && c.entries <= d.entries && |d.hits| == |d.entries|
    ensures Found(w, d, r, e)
  {
    hide Sound, Composed;
  }

  /** A thread outside the mutex only depends on entries, which are never taken back. */
  lemma OutsideStable(w: Tables, c: Cache, d: Cache, pc: Pc)
    requires PcOk(w, c, pc) && !Holds(pc) && c.entries <= d.entries && |d.hits| == |d.entries|
    ensures PcOk(w, d, pc)
  {
    hide Serving, Found, Snapshot, Owed, Composed;
    match pc
    case Looking(call, r, snap) =>
      if snap.Some? { SnapshotGrows(c.entries, d.entries, snap.value); }
    case Touching(call, r, e, _) => FoundGrows(w, c, d, r, e);
    case Storing(call, r, e, _) => FoundGrows(w, c, d, r, e);
    case Counting(call, r, e) => FoundGrows(w, c, d, r, e);
    case _ =>
  }

  lemma {:induction false} CountSums(c: Cache, e: nat, walk: seq<nat>)
    requires Good(c) && e < |c.hits| && NoDup(walk) && forall x <- walk :: x in c.order
    ensures Sum(Counted(c, e).hits, walk) == Sum(c.hits, walk) + (if e in walk then 1 else 0)
    ensures HitsTotal(Counted(c, e)) == HitsTotal(c) + (if e in c.order then 1 else 0)
  {
    SumBump(c.hits, e, walk);
    CountGood(c, e);
  }

  /** The holder keeps what it knows while others touch and count. */
  lemma HolderStable(w: Tables, c: Cache, d: Cache, pc: Pc)
    requires Good(c) && PcOk(w, c, pc) && Holds(pc) && LockFree(c, d)
    ensures PcOk(w, d, pc)
  {
    hide Serving, Sum, NoDup, Good, Found;
    SameEntries(c, d);
    if pc.Inserting? || pc.Evicting? {
      FoundGrows(w, c, d, pc.r, pc.e);
    }
    if pc.Summing? && d != c.(ref := d.ref, track := d.track) {
      var e :| CountsOne(c, d, e);
      CountSums(c, e, pc.walk);
    }
  }

  lemma SameEntries(c: Cache, d: Cache)
    requires Good(c) && LockFree(c, d)
    ensures d.entries == c.entries && |d.hits| == |d.entries|
  {
  }

  lemma SafeOthers(w: Tables, s: Sys, t: nat, mv: Move, u: nat)
    requires t < |s.threads| && Safe(w, s) && SafeMove(w, s, t, mv) && u < |s.threads| && u != t
    ensures Local(w, Apply(s, t, mv), u)
  {
    hide PcOk, EntriesOk, TablesOk, Good, Settled, LockFree, MidInsert, Holds;
    assert Local(w, s, u);
    GoodHits(s.c);
    GoodHits(mv.c);
    if Holds(s.threads[u]) {
      HolderStable(w, s.c, mv.c, s.threads[u]);
    } else {
      OutsideStable(w, s.c, mv.c, s.threads[u]);
    }
  }

  lemma GoodHits(c: Cache)
    requires Good(c)
    ensures |c.hits| == |c.entries|
  {
  }

  lemma SafeApply(w: Tables, s: Sys, t: nat, mv: Move)
    requires t < |s.threads| && Safe(w, s) && SafeMove(w, s, t, mv)
    ensures Safe(w, Apply(s, t, mv))
  {
    hide PcOk, EntriesOk, TablesOk, Good, Settled, LockFree, Holds;
    var d := Apply(s, t, mv);
    assert Local(w, s, t);
    forall u | 0 <= u < |d.threads| ensures Local(w, d, u) {
      if u != t {
        SafeOthers(w, s, t, mv, u);
      }
    }
  }

  // ---------------------------------------------------------------- one step

  lemma BeginSafe(w: Tables, s: Sys, t: nat, a: Action)
    requires Local(w, s, t) && !Holds(s.threads[t])
    ensures SafeMove(w, s, t, Begin(w, s, t, a))
  {
    hide Good, EntriesOk, Owed, Rejected, CheckCaps, Sound, Composed, RequestOf, Settled;
    match a
    case Ask(call) =>
      if CallOk(w, call) {
        AskSafe(w, s, t, call);
      }
    case Limit(n) =>
      if s.owner.None? {
        LimitGood(s.c, n);
      }
    case Scrape(_) => TrackGood(s.c);
    case Go =>
  }

  lemma AskSafe(w: Tables, s: Sys, t: nat, call: Call)
    requires Local(w, s, t) && !Holds(s.threads[t]) && CallOk(w, call)
    ensures SafeMove(w, s, t, Begin(w, s, t, Ask(call)))
  {
    hide Good, EntriesOk, Owed, Rejected, CheckCaps, Sound, Composed, RequestOf, Settled, TableOk;
    if call.GetTree? && CheckCaps(call.tree, call.caps).Some? {
      CapsAreValidated(w, call);
    } else {
      OwedIsComposed(w, call);
    }
  }

  lemma LimitGood(c: Cache, n: int)
    requires Good(c) && Settled(c)
    ensures Good(c.(maxBytes := n)) && InHand(c.(maxBytes := n)) && |c.m| <= c.cap
  {
  }

  lemma TrackGood(c: Cache)
    requires Good(c)
    ensures Good(c.(track := true))
    ensures Settled(c) ==> Settled(c.(track := true))
  {
  }

  lemma LookSafe(w: Tables, s: Sys, t: nat, call: Call, r: Request, snap: Option<map<string, nat>>)
    requires Local(w, s, t) && s.threads[t] == Looking(call, r, snap)
    ensures SafeMove(w, s, t, Look(s, call, r, snap))
  {
    hide Good, Sound, Composed, Owed, MapKeyOf, EntryOk, Settled;
    if snap.Some? && MapKeyOf(r) in snap.value {
      var e := snap.value[MapKeyOf(r)];
      assert s.c.entries[e] in s.c.entries;
      FoundServes(w, s.c.entries[e], r);
      GoodHits(s.c);
    }
  }

  lemma TouchSafe(w: Tables, s: Sys, t: nat, call: Call, r: Request, e: nat, count: bool)
    requires Local(w, s, t) && (s.threads[t] == Touching(call, r, e, count) || s.threads[t] == Storing(call, r, e, count))
    ensures s.threads[t].Touching? ==> SafeMove(w, s, t, Touch(s, call, r, e, count))
    ensures s.threads[t].Storing? ==> SafeMove(w, s, t, Store(s, call, r, e, count))
  {
    hide Good, Sound, Composed, Owed, Settled, EntriesOk;
    if s.owner.None? {
      SettledRef(s.c, s.c.ref + {e});
    }
    RefGood(s.c, s.c.ref + {e});
  }

  lemma SettledRef(c: Cache, ref: set<nat>)
    requires Settled(c)
    ensures Settled(c.(ref := ref))
  {
  }

  lemma CountSafe(w: Tables, s: Sys, t: nat, call: Call, r: Request, e: nat)
    requires Local(w, s, t) && s.threads[t] == Counting(call, r, e)
    ensures SafeMove(w, s, t, Count(s, call, e))
  {
    hide Sound, Composed, Owed, EntriesOk;
    hide Sum, NoDup, Linked, Tallied;
    CountGood(s.c, e);
    assert CountsOne(s.c, Counted(s.c, e), e);
    GoodHits(s.c);
    hide Good, HitsTotal;
  }

  /** Under a request's text the map holds nothing but its own statement, so the
      branches that drop a colliding entry are never taken. */
  lemma NoCollision(w: Tables, c: Cache, r: Request)
    requires Good(c) && EntriesOk(w, c.entries) && Sound(w, r) && MapKeyOf(r) in c.m
    ensures var e := c.m[MapKeyOf(r)]; e in c.order && c.entries[e].key == r.key && Found(w, c, r, e)
  {
    hide Sound, Composed, MapKeyOf, EntryOk;
    var e := c.m[MapKeyOf(r)];
    assert c.entries[e] in c.entries;
    FoundServes(w, c.entries[e], r);
  }

  lemma FirstLockSafe(w: Tables, s: Sys, t: nat, call: Call, r: Request)
    requires Local(w, s, t) && s.threads[t] == Waiting(call, r)
    ensures SafeMove(w, s, t, FirstLock(s, t, call, r))
  {
    hide Sound, Composed, Owed, EntriesOk, MapKeyOf, Settled, Good, HitLocked, Removed;
    if s.owner.None? && MapKeyOf(r) in s.c.m {
      NoCollision(w, s.c, r);
      var e := s.c.m[MapKeyOf(r)];
      HitGood(s.c, e);
      HitKeeps(s.c, e);
      FoundGrows(w, s.c, HitLocked(s.c, e), r, e);
    }
  }

  lemma HitKeeps(c: Cache, e: nat)
    ensures HitLocked(c, e).entries == c.entries && HitLocked(c, e).hits == c.hits && HitLocked(c, e).cap == c.cap
  {
  }

  lemma ComposeSafe(w: Tables, s: Sys, t: nat, call: Call, r: Request)
    requires Local(w, s, t) && s.threads[t] == Composing(call, r)
    ensures SafeMove(w, s, t, CacheProtocol.ComposeOutside(w, s, call, r))
  {
    hide Composed, Owed, EntriesOk, Settled, Good;
  }

  lemma SecondLockSafe(w: Tables, s: Sys, t: nat, call: Call, r: Request, out: Emitted<Bind>)
    requires Local(w, s, t) && s.threads[t] == Relocking(call, r, out)
    ensures SafeMove(w, s, t, SecondLock(s, t, call, r, out))
  {
    hide Sound, Composed, Owed, EntriesOk, MapKeyOf, Settled, Good, Inserted, Removed, MadeFor, MovedToFront;
    if s.owner.None? {
      var c := s.c.(misses := s.c.misses + 1);
      MissGood(s.c, s.c.misses + 1);
      if MapKeyOf(r) in c.m {
        var e := c.m[MapKeyOf(r)];
        NoCollision(w, c, r);
        MoveGood(c, e);
        MoveKeeps(c, e);
        FoundGrows(w, c, MovedToFront(c, e), r, e);
      } else {
        InsertSafe(w, s, t, c, call, r, out);
      }
    }
  }

  lemma MissGood(c: Cache, n: nat)
    requires Good(c)
    ensures Good(c.(misses := n)) && (Settled(c) ==> Settled(c.(misses := n)))
  {
  }

  lemma MoveKeeps(c: Cache, e: nat)
    ensures MovedToFront(c, e).entries == c.entries && MovedToFront(c, e).hits == c.hits && MovedToFront(c, e).cap == c.cap
    ensures Settled(c) ==> Settled(MovedToFront(c, e))
  {
  }

  lemma InsertSafe(w: Tables, s: Sys, t: nat, c: Cache, call: Call, r: Request, out: Emitted<Bind>)
    requires Local(w, s, t) && Good(c) && Settled(c) && c.entries == s.c.entries && c.cap == s.c.cap && s.owner.None?
    requires Serving(w, call, r) && Composed(w, r) == Ok(out) && MapKeyOf(r) !in c.m
    ensures SafeMove(w, s, t, Insert(s, t, c, call, r, out))
  {
    hide Sound, Composed, Owed, EntriesOk, MapKeyOf, Good;
    var en := MadeFor(r, out);
    InsertGood(c, en);
    GoodHits(c);
    EntriesGrow(w, c.entries, r, en);
  }

  lemma EntriesGrow(w: Tables, es: seq<Entry>, r: Request, en: Entry)
    requires EntriesOk(w, es) && ComposedFor(w, r, en)
    ensures EntriesOk(w, es + [en])
  {
    hide ComposedFor;
  }

  lemma AfterInsertSafe(w: Tables, s: Sys, t: nat, call: Call, r: Request, e: nat)
    requires Local(w, s, t) && s.threads[t] == Inserting(call, r, e)
    ensures SafeMove(w, s, t, AfterInsert(s, call, r, e))
  {
    hide Sound, Composed, Owed, EntriesOk, Good;
    if !MustEvict(s.c) {
      PublishGood(s.c);
      PublishKeeps(s.c);
    }
    hide Published, Found;
  }

  lemma PublishKeeps(c: Cache)
    requires |c.m| <= c.cap && c.pendingHits < c.cap && !MustEvict(c)
    ensures Published(c).entries == c.entries && Published(c).cap == c.cap && Settled(Published(c))
  {
  }

  /** The back entry is reprieved or goes; nothing else happens to the maps. */
  lemma ExamineKeeps(c: Cache)
    requires Good(c) && c.order != [] && Linked(c)
    ensures Good(Reprieve(c)) && Good(EvictedBack(c))
    ensures Reprieve(c).entries == EvictedBack(c).entries == c.entries && Reprieve(c).hits == EvictedBack(c).hits == c.hits
    ensures Reprieve(c).m == c.m && |EvictedBack(c).m| == |c.m| - 1
    ensures Reprieve(c) == c.(ref := Reprieve(c).ref, order := Reprieve(c).order)
    ensures Reprieve(c).cap == EvictedBack(c).cap == c.cap && EvictedBack(c).pendingHits == c.pendingHits
    ensures HitsTotal(Reprieve(c)) == HitsTotal(c) == HitsTotal(EvictedBack(c))
  {
    hide Sum, Without, NoDup, Lists, Maps, Snapshot, Tallied, HitsTotal, EntryBytes, Good;
    ReprieveGood(c);
    RemoveGood(c, Back(c));
    EvictHits(c);
  }

  lemma EvictHits(c: Cache)
    requires Linked(c) && c.order != []
    ensures HitsTotal(EvictedBack(c)) == HitsTotal(Removed(c, Back(c)))
  {
  }

  lemma NonEmpty(c: Cache)
    requires Good(c) && (MustEvict(c) || MustShrink(c))
    ensures c.order != [] && Linked(c)
  {
  }

  lemma EvictSafe(w: Tables, s: Sys, t: nat, call: Call, r: Request, e: nat, left: nat)
    requires Local(w, s, t) && s.threads[t] == Evicting(call, r, e, left)
    ensures s.c.order != [] && Linked(s.c)
    ensures SafeMove(w, s, t, Examine(s, left, Evicting(call, r, e, if left > 0 then left - 1 else 0), Inserting(call, r, e)))
  {
    hide Sound, Composed, Owed, EntriesOk, Good, Linked, Reprieve, EvictedBack;
    NonEmpty(s.c);
    ExamineKeeps(s.c);
    FoundGrows(w, s.c, Reprieve(s.c), r, e);
    FoundGrows(w, s.c, EvictedBack(s.c), r, e);
    hide Found;
  }

  lemma ShrinkSafe(w: Tables, s: Sys, t: nat, left: nat)
    requires Local(w, s, t) && s.threads[t] == Shrinking(left)
    ensures s.c.order != [] && Linked(s.c)
    ensures SafeMove(w, s, t, Examine(s, left, Shrinking(if left > 0 then left - 1 else 0), Limiting))
  {
    hide EntriesOk, Good, Linked, Reprieve, EvictedBack;
    NonEmpty(s.c);
    ExamineKeeps(s.c);
  }

  lemma ApplyLimitSafe(w: Tables, s: Sys, t: nat)
    requires Local(w, s, t) && s.threads[t].Limiting?
    ensures SafeMove(w, s, t, ApplyLimit(s))
  {
    hide EntriesOk, Good;
    PublishGood(s.c);
  }

  lemma HasMember(s: seq<nat>)
    requires s != []
    ensures exists e :: e in s
  {
    assert s[0] in s;
  }

  lemma {:induction false} SumWalk(weight: seq<nat>, walk: seq<nat>, order: seq<nat>)
    requires NoDup(order) && IsWalk(walk, order)
    ensures Sum(weight, walk) == Sum(weight, order)
    decreases |walk|
  {
    if walk == [] {
      if order != [] {
        HasMember(order);
      }
    } else {
      var x, rest := walk[0], Without(order, walk[0]);
      assert x in order;
      WithoutMember(order, x);
      SumWithout(weight, order, x);
      assert IsWalk(walk[1..], rest) by {
        assert walk == [x] + walk[1..];
      }
      SumWalk(weight, walk[1..], rest);
    }
  }

  lemma StatsSafe(w: Tables, s: Sys, t: nat, a: Action)
    requires Local(w, s, t) && s.threads[t].Scraping?
    ensures SafeMove(w, s, t, LockStats(s, t, a))
  {
    hide EntriesOk, Sum, NoDup, Lists, Maps, Snapshot, Tallied;
    if s.owner.None? && a.Scrape? && IsWalk(a.walk, s.c.order) {
      SumWalk(s.c.hits, a.walk, s.c.order);
    }
    hide Good;
  }

  lemma SumOneSafe(w: Tables, s: Sys, t: nat, walk: seq<nat>, acc: nat, low: nat)
    requires Local(w, s, t) && s.threads[t] == Summing(walk, acc, low)
    ensures SafeMove(w, s, t, SumOne(s, walk, acc, low))
  {
    hide EntriesOk, Good, Settled;
  }

  // ---------------------------------------------------------------- any step, any run

  lemma StepSafe(w: Tables, s: Sys, t: nat, a: Action)
    requires Safe(w, s) && t < |s.threads|
    ensures Local(w, s, t) && SafeMove(w, s, t, Turn(w, s, t, a))
  {
    hide Good, EntriesOk, TablesOk, Settled, PcOk, SafeMove;
    assert Local(w, s, t);
    LocalStep(w, s, t, a);
  }

  lemma LocalStep(w: Tables, s: Sys, t: nat, a: Action)
    requires Local(w, s, t)
    ensures SafeMove(w, s, t, Turn(w, s, t, a))
  {
    hide Good, EntriesOk, TablesOk, Settled, SafeMove, Turn;
    if Holds(s.threads[t]) {
      InsideStep(w, s, t, a);
    } else {
      OutsideStep(w, s, t, a);
    }
  }

  lemma OutsideStep(w: Tables, s: Sys, t: nat, a: Action)
    requires Local(w, s, t) && !Holds(s.threads[t])
    ensures SafeMove(w, s, t, Turn(w, s, t, a))
  {
    hide Good, EntriesOk, TablesOk, Settled, SafeMove, Serving, Found, Begin, Look, Touch, Store, Count, FirstLock, CacheProtocol.ComposeOutside, SecondLock, LockStats;
    match s.threads[t]
    case Idle => BeginSafe(w, s, t, a);
    case Answered(_, _) => BeginSafe(w, s, t, a);
    case Reported(_) => BeginSafe(w, s, t, a);
    case Loading(call, r) => LoadSafe(w, s, t, call, r);
    case Looking(call, r, snap) => LookSafe(w, s, t, call, r, snap);
    case Touching(call, r, e, count) => TouchSafe(w, s, t, call, r, e, count);
    case Storing(call, r, e, count) => TouchSafe(w, s, t, call, r, e, count);
    case Counting(call, r, e) => CountSafe(w, s, t, call, r, e);
    case Waiting(call, r) => FirstLockSafe(w, s, t, call, r);
    case Composing(call, r) => ComposeSafe(w, s, t, call, r);
    case Relocking(call, r, out) => SecondLockSafe(w, s, t, call, r, out);
    case Scraping => StatsSafe(w, s, t, a);
  }

  lemma InsideStep(w: Tables, s: Sys, t: nat, a: Action)
    requires Local(w, s, t) && Holds(s.threads[t])
    ensures SafeMove(w, s, t, Turn(w, s, t, a))
  {
    hide Good, EntriesOk, TablesOk, Settled, SafeMove, Serving, Found, Examine, ApplyLimit, AfterInsert, SumOne;
    match s.threads[t]
    case Inserting(call, r, e) => AfterInsertSafe(w, s, t, call, r, e);
    case Evicting(call, r, e, left) => EvictSafe(w, s, t, call, r, e, left);
    case Limiting => ApplyLimitSafe(w, s, t);
    case Shrinking(left) => ShrinkSafe(w, s, t, left);
    case Summing(walk, acc, low) => SumOneSafe(w, s, t, walk, acc, low);
  }

  lemma LoadSafe(w: Tables, s: Sys, t: nat, call: Call, r: Request)
    requires Local(w, s, t) && s.threads[t] == Loading(call, r)
    ensures SafeMove(w, s, t, To(s, Looking(call, r, s.c.fast)))
  {
    hide Serving, EntriesOk, Settled, Linked, Tallied;
  }

  /** A new cache and `n` idle threads. */
  function Start(capacity: int, n: nat): Sys {
    Sys(NewCache(capacity), None, seq(n, _ => Idle), Ledger(0, 0, 0, 0, 0, 0, 0, 0, 0, 0))
  }

  /** One scheduled step; a thread that does not exist does nothing. */
  function Next(w: Tables, s: Sys, t: nat, a: Action): (s': Sys)
    requires Safe(w, s)
    ensures Safe(w, s') && |s'.threads| == |s.threads| && s'.c.cap == s.c.cap
  {
    if t >= |s.threads| then s
    else
      StepSafe(w, s, t, a);
      SafeApply(w, s, t, Turn(w, s, t, a));
      Apply(s, t, Turn(w, s, t, a))
  }

  /** The state after a schedule: which thread moves and what it may begin. */
  function Execute(w: Tables, s: Sys, schedule: seq<(nat, Action)>): (s': Sys)
    requires Safe(w, s)
    ensures Safe(w, s') && |s'.threads| == |s.threads| && s'.c.cap == s.c.cap
    decreases |schedule|
  {
    if schedule == [] then s
    else
      var last := schedule[|schedule| - 1];
      Next(w, Execute(w, s, schedule[..|schedule| - 1]), last.0, last.1)
  }

  lemma StartSafe(w: Tables, capacity: int, n: nat)
    requires TablesOk(w)
    ensures Safe(w, Start(capacity, n))
  {
    NewCacheGood(capacity);
    hide Good, Settled;
  }
}
