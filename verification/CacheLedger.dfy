/**
 What a run of the cache costs and counts: snapshots are amortized over inserts and
 mutex hits, and no counted hit is unaccounted for (runtime/runtime.go,
 runtime/observe.go).
 */
module CacheLedger {
  import opened Core
  import opened FilterTree
  import opened CacheKeys
  import opened CacheState
  import opened CacheProtocol
  import opened CacheSafety

  predicate Mid(s: Sys) {
    s.owner.Some? && s.owner.value < |s.threads| && MidInsert(s.threads[s.owner.value])
  }

  function Least(a: nat, b: nat): nat { if a < b then a else b }

  /** The four causes of a snapshot, each charged to what pays for it; `mid` says that an
      insert has been made and not yet published. */
  ghost predicate Booked(c: Cache, led: Ledger, mid: bool) {
    c.snapshots == led.filling + led.full + led.credited + led.overdue + led.limits &&
    led.filling <= Least(|c.m|, c.cap) + led.forced &&
    (mid && !c.evictedSince && |c.m| <= c.cap ==> led.filling + 1 <= |c.m| + led.forced) &&
    led.full * c.cap + c.sinceSnap + (if mid then 1 else 0) <= c.inserts &&
    led.credited + (if c.credit then 1 else 0) <= led.filling + led.full + led.limits &&
    led.overdue * c.cap + c.pendingHits <= led.mutexHits
  }

  /** Every counted hit is in the total, or was counted on an entry no longer resident. */
  ghost predicate HitsBooked(c: Cache, led: Ledger, pc: Option<Pc>) {
    HitsTotal(c) + led.lost == led.counted && led.reported <= HitsTotal(c) &&
    (pc.Some? && pc.value.Summing? ==> led.reported <= pc.value.low)
  }

  function Holder(s: Sys): Option<Pc> {
    if s.owner.Some? && s.owner.value < |s.threads| then Some(s.threads[s.owner.value]) else None
  }

  ghost predicate Accounted(s: Sys) {
    Booked(s.c, s.led, Mid(s)) && HitsBooked(s.c, s.led, Holder(s))
  }

  // ---------------------------------------------------------------- snapshots

  /** Who is in the middle of an insert after thread `t` has moved. */
  predicate MidAfter(s: Sys, t: nat, mv: Move) {
    if mv.owner == Some(t) then MidInsert(mv.pc) else mv.owner.Some? && Mid(s)
  }

  /** The fields the ledger speaks of are untouched. */
  predicate SameBooks(c: Cache, d: Cache) {
    d.snapshots == c.snapshots && d.cap == c.cap && |d.m| == |c.m| && d.evictedSince == c.evictedSince &&
    d.sinceSnap == c.sinceSnap && d.inserts == c.inserts && d.credit == c.credit && d.pendingHits == c.pendingHits
  }

  predicate SameCauses(l: Ledger, k: Ledger) {
    k.filling == l.filling && k.full == l.full && k.credited == l.credited && k.overdue == l.overdue &&
    k.limits == l.limits && k.forced == l.forced && k.mutexHits == l.mutexHits
  }

  lemma BookedStays(c: Cache, d: Cache, l: Ledger, k: Ledger, mid: bool)
    requires Booked(c, l, mid) && SameBooks(c, d) && SameCauses(l, k)
    ensures Booked(d, k, mid)
  {
  }

  lemma TimesNext(n: nat, cap: nat)
    ensures (n + 1) * cap == n * cap + cap
  {
  }

  lemma HitBooked(s: Sys, e: nat)
    requires Booked(s.c, s.led, false) && Good(s.c) && e in s.c.order
    ensures Booked(HitLocked(s.c, e), HitLedger(s), false)
  {
    hide Good, Without;
    TimesNext(s.led.overdue, s.c.cap);
  }

  lemma InsertBooked(c: Cache, led: Ledger, en: Entry)
    requires Booked(c, led, false) && Good(c) && |c.m| <= c.cap && en.mapKey !in c.m
    ensures Booked(Inserted(c, en), led, true)
  {
    hide Good, Inserted;
    InsertGood(c, en);
    InsertBooks(c, en);
  }

  lemma InsertBooks(c: Cache, en: Entry)
    ensures var d := Inserted(c, en);
      d.inserts == c.inserts + 1 && d.snapshots == c.snapshots && d.cap == c.cap && d.evictedSince == c.evictedSince &&
      d.sinceSnap == c.sinceSnap && d.credit == c.credit && d.pendingHits == c.pendingHits
  {
  }

  lemma DoneBooked(s: Sys, call: Call, r: Request, e: nat)
    requires Booked(s.c, s.led, true) && e < |s.c.entries|
    ensures var mv := AfterInsert(s, call, r, e); Booked(mv.c, mv.led, MidInsert(mv.pc))
  {
    TimesNext(s.led.full, s.c.cap);
  }

  lemma ReprieveBooked(c: Cache, led: Ledger, mid: bool)
    requires Good(c) && c.order != [] && Booked(c, led, mid)
    ensures Booked(Reprieve(c), led, mid)
  {
    hide Good, Booked, Linked, Without;
    BookedStays(c, Reprieve(c), led, led, mid);
  }

  lemma EvictBooked(c: Cache, led: Ledger, mid: bool)
    requires Good(c) && c.order != [] && Booked(c, led, mid) && |c.m| <= c.cap + 1
    ensures Linked(c) && Booked(EvictedBack(c), led.(forced := led.forced + (if |c.m| > c.cap then 0 else 1)), mid)
  {
    hide Good, Linked, EvictedBack;
    OrderLinked(c);
    ExamineKeeps(c);
    EvictBooks(c);
  }

  lemma OrderLinked(c: Cache)
    requires Good(c)
    ensures Linked(c)
  {
  }

  lemma EvictBooks(c: Cache)
    requires Linked(c) && c.order != []
    ensures var d := EvictedBack(c);
      d.evictedSince && d.snapshots == c.snapshots && d.sinceSnap == c.sinceSnap && d.inserts == c.inserts && d.credit == c.credit
  {
  }

  lemma ExamineBooked(s: Sys, left: nat, again: Pc, back: Pc, mid: bool)
    requires Good(s.c) && s.c.order != [] && Booked(s.c, s.led, mid) && |s.c.m| <= s.c.cap + 1
    requires MidInsert(again) == MidInsert(back) == mid
    ensures Linked(s.c)
    ensures var mv := Examine(s, left, again, back); Booked(mv.c, mv.led, mid) && MidInsert(mv.pc) == mid
  {
    hide Good, Booked, Linked, EvictedBack, Reprieve;
    OrderLinked(s.c);
    ReprieveBooked(s.c, s.led, mid);
    EvictBooked(s.c, s.led, mid);
  }

  lemma LimitBooked(s: Sys)
    requires Booked(s.c, s.led, false)
    ensures var mv := ApplyLimit(s); Booked(mv.c, mv.led, false) && !MidInsert(mv.pc)
  {
  }

  /** Every step keeps the books. */
  lemma StepBooked(w: Tables, s: Sys, t: nat, a: Action)
    requires Local(w, s, t) && Booked(s.c, s.led, Mid(s)) && (s.owner.Some? ==> s.owner.value < |s.threads|)
    ensures var mv := Turn(w, s, t, a); Booked(mv.c, mv.led, MidAfter(s, t, mv))
  {
    if Holds(s.threads[t]) {
      InsideBooked(w, s, t, a);
    } else {
      OutsideBooked(w, s, t, a);
    }
  }

  lemma InsideBooked(w: Tables, s: Sys, t: nat, a: Action)
    requires Local(w, s, t) && Holds(s.threads[t]) && Booked(s.c, s.led, MidInsert(s.threads[t]))
    ensures var mv := Turn(w, s, t, a); Booked(mv.c, mv.led, MidInsert(mv.pc))
  {
    hide Good, EntriesOk, TablesOk, Serving, Sound, Composed, Booked, Linked, AfterInsert, Examine, ApplyLimit;
    match s.threads[t]
    case Inserting(call, r, e) => DoneBooked(s, call, r, e);
    case Evicting(call, r, e, left) =>
      NonEmpty(s.c);
      ExamineBooked(s, left, Evicting(call, r, e, if left > 0 then left - 1 else 0), Inserting(call, r, e), true);
    case Limiting => LimitBooked(s);
    case Shrinking(left) =>
      NonEmpty(s.c);
      ExamineBooked(s, left, Shrinking(if left > 0 then left - 1 else 0), Limiting, false);
    case Summing(walk, acc, low) =>
      BookedStays(s.c, s.c, s.led, SumOne(s, walk, acc, low).led, false);
  }

  lemma OutsideBooked(w: Tables, s: Sys, t: nat, a: Action)
    requires Local(w, s, t) && !Holds(s.threads[t]) && Booked(s.c, s.led, Mid(s))
    ensures var mv := Turn(w, s, t, a); Booked(mv.c, mv.led, MidAfter(s, t, mv))
  {
    hide Good, EntriesOk, TablesOk, Booked, MapKeyOf, Sound, Composed, Owed, Rejected, CheckCaps, RequestOf, Served, HitLocked, Inserted, Removed, HitLedger;
    var pc := s.threads[t];
    if pc.Waiting? {
      if s.owner.None? && MapKeyOf(pc.r) in s.c.m {
        NoCollision(w, s.c, pc.r);
        HitBooked(s, s.c.m[MapKeyOf(pc.r)]);
      }
    } else if pc.Relocking? {
      if s.owner.None? { RelockBooked(w, s, t, pc.call, pc.r, pc.out); }
    } else {
      QuietStep(w, s, t, a);
      hide Turn;
      BookedStays(s.c, Turn(w, s, t, a).c, s.led, Turn(w, s, t, a).led, Mid(s));
    }
  }

  lemma RelockBooked(w: Tables, s: Sys, t: nat, call: Call, r: Request, out: Pieces.Emitted<Composing.Bind>)
    requires Local(w, s, t) && s.threads[t] == Relocking(call, r, out) && Booked(s.c, s.led, false) && s.owner.None?
    ensures var mv := SecondLock(s, t, call, r, out); Booked(mv.c, mv.led, mv.owner.Some?)
  {
    hide Good, EntriesOk, TablesOk, Booked, MapKeyOf, Sound, Composed, Owed, MadeFor;
    var c := s.c.(misses := s.c.misses + 1);
    MissGood(s.c, s.c.misses + 1);
    BookedStays(s.c, c, s.led, s.led, false);
    if MapKeyOf(r) in c.m {
      NoCollision(w, c, r);
      BookedStays(c, MovedToFront(c, c.m[MapKeyOf(r)]), s.led, s.led, false);
    } else {
      MadeUnder(r, out);
      InsertBooked(c, s.led, MadeFor(r, out));
    }
  }

  lemma MadeUnder(r: Request, out: Pieces.Emitted<Composing.Bind>)
    ensures MadeFor(r, out).mapKey == MapKeyOf(r)
  {
  }

  /** Steps that touch neither the maps nor the publication window. */
  lemma QuietStep(w: Tables, s: Sys, t: nat, a: Action)
    requires Local(w, s, t) && !Holds(s.threads[t]) && !s.threads[t].Waiting? && !s.threads[t].Relocking?
    ensures var mv := Turn(w, s, t, a);
      SameBooks(s.c, mv.c) && SameCauses(s.led, mv.led) && !MidInsert(mv.pc) && (mv.owner == s.owner || (s.owner.None? && mv.owner == Some(t)))
  {
    hide Good, EntriesOk, TablesOk, MapKeyOf, Sound, Composed, Owed, Rejected, CheckCaps, RequestOf, Served, Sum, HitsTotal;
  }

  // ---------------------------------------------------------------- hits

  /** How a step changes the hit total: only by counting, and then by one, unless the
      entry it was counted on is no longer resident. */
  ghost predicate HitsMove(s: Sys, mv: Move) {
    mv.led.reported == (if mv.pc.Reported? && s.owner.Some? && mv.owner.None? then mv.pc.total else s.led.reported) &&
    HitsTotal(mv.c) + mv.led.lost - mv.led.counted == HitsTotal(s.c) + s.led.lost - s.led.counted &&
    HitsTotal(s.c) <= HitsTotal(mv.c)
  }

  lemma FieldsKeepHits(c: Cache, d: Cache)
    requires d.hits == c.hits && d.order == c.order && d.hitsFolded == c.hitsFolded
    ensures HitsTotal(d) == HitsTotal(c)
  {
  }

  lemma CountHits(s: Sys, call: Call, e: nat)
    requires Good(s.c) && e < |s.c.entries|
    ensures |s.c.hits| == |s.c.entries| && HitsMove(s, Count(s, call, e))
  {
    hide HitsTotal, Sum;
    GoodHits(s.c);
    CountGood(s.c, e);
    hide Good;
  }

  lemma WaitHits(w: Tables, s: Sys, t: nat, call: Call, r: Request)
    requires Local(w, s, t) && s.threads[t] == Waiting(call, r)
    ensures HitsMove(s, FirstLock(s, t, call, r))
  {
    hide Good, EntriesOk, TablesOk, MapKeyOf, Sound, Composed, Owed, HitLocked, Removed, HitsTotal;
    if s.owner.None? && MapKeyOf(r) in s.c.m {
      NoCollision(w, s.c, r);
      HitGood(s.c, s.c.m[MapKeyOf(r)]);
    }
  }

  lemma RelockHits(w: Tables, s: Sys, t: nat, call: Call, r: Request, out: Pieces.Emitted<Composing.Bind>)
    requires Local(w, s, t) && s.threads[t] == Relocking(call, r, out)
    ensures HitsMove(s, SecondLock(s, t, call, r, out))
  {
    hide Good, EntriesOk, TablesOk, MapKeyOf, Sound, Composed, Owed, Inserted, MovedToFront, Removed, HitsTotal, MadeFor;
    if s.owner.None? {
      var c := s.c.(misses := s.c.misses + 1);
      MissGood(s.c, s.c.misses + 1);
      FieldsKeepHits(s.c, c);
      MadeUnder(r, out);
      if MapKeyOf(r) in c.m {
        NoCollision(w, c, r);
        MoveGood(c, c.m[MapKeyOf(r)]);
      } else {
        InsertGood(c, MadeFor(r, out));
      }
    }
  }

  lemma ExamineHits(s: Sys, left: nat, again: Pc, back: Pc)
    requires Good(s.c) && s.c.order != [] && !again.Reported? && !back.Reported?
    ensures Linked(s.c) && HitsMove(s, Examine(s, left, again, back))
  {
    hide Good, Linked, EvictedBack, Reprieve, HitsTotal;
    OrderLinked(s.c);
    ExamineKeeps(s.c);
  }

  lemma InsideHits(w: Tables, s: Sys, t: nat, a: Action)
    requires Local(w, s, t) && Holds(s.threads[t])
    ensures HitsMove(s, Turn(w, s, t, a))
  {
    hide Good, EntriesOk, TablesOk, Serving, Found, Linked, Examine, HitsTotal;
    match s.threads[t]
    case Inserting(call, r, e) => FieldsKeepHits(s.c, Turn(w, s, t, a).c);
    case Evicting(call, r, e, left) =>
      NonEmpty(s.c);
      ExamineHits(s, left, Evicting(call, r, e, if left > 0 then left - 1 else 0), Inserting(call, r, e));
    case Limiting => FieldsKeepHits(s.c, Turn(w, s, t, a).c);
    case Shrinking(left) =>
      NonEmpty(s.c);
      ExamineHits(s, left, Shrinking(if left > 0 then left - 1 else 0), Limiting);
    case Summing(walk, acc, low) =>
  }

  lemma OutsideHits(w: Tables, s: Sys, t: nat, a: Action)
    requires Local(w, s, t) && !Holds(s.threads[t])
    ensures HitsMove(s, Turn(w, s, t, a))
  {
    hide Good, EntriesOk, TablesOk, MapKeyOf, Sound, Composed, Owed, Rejected, CheckCaps, RequestOf, Served, FirstLock, SecondLock, Count, HitsTotal;
    var pc := s.threads[t];
    if pc.Waiting? {
      WaitHits(w, s, t, pc.call, pc.r);
    } else if pc.Relocking? {
      RelockHits(w, s, t, pc.call, pc.r, pc.out);
    } else if pc.Counting? {
      CountHits(s, pc.call, pc.e);
    } else {
      FieldsKeepHits(s.c, Turn(w, s, t, a).c);
    }
  }

  /** A statistics walk in progress has seen no fewer hits than the last one reported. */
  lemma StepHits(w: Tables, s: Sys, t: nat, a: Action)
    requires Local(w, s, t) && HitsBooked(s.c, s.led, Holder(s)) && (s.owner.Some? ==> s.owner.value < |s.threads|)
    ensures var mv := Turn(w, s, t, a);
      HitsBooked(mv.c, mv.led, if mv.owner == Some(t) then Some(mv.pc) else if mv.owner.None? then None else Holder(s))
  {
    hide HitsTotal, Good, EntriesOk, TablesOk, Serving, Found, Turn, Sum;
    if Holds(s.threads[t]) {
      InsideHits(w, s, t, a);
      InsideLow(w, s, t, a);
    } else {
      OutsideHits(w, s, t, a);
      OutsideLow(w, s, t, a);
    }
  }

  lemma InsideLow(w: Tables, s: Sys, t: nat, a: Action)
    requires Local(w, s, t) && Holds(s.threads[t])
    ensures var mv, pc := Turn(w, s, t, a), s.threads[t];
      (mv.owner.None? || mv.owner == Some(t)) &&
      (mv.pc.Summing? ==> pc.Summing? && mv.pc.low == pc.low && mv.led.reported == s.led.reported) &&
      (mv.pc.Reported? ==> pc.Summing? && pc.low <= mv.pc.total <= HitsTotal(mv.c))
  {
    hide HitsTotal, Good, EntriesOk, TablesOk, Serving, Found, Linked;
  }

  lemma OutsideLow(w: Tables, s: Sys, t: nat, a: Action)
    requires Local(w, s, t) && !Holds(s.threads[t])
    ensures var mv := Turn(w, s, t, a);
      mv.led.reported == s.led.reported && (mv.owner == s.owner || mv.owner == Some(t)) &&
      (mv.pc.Summing? ==> mv.pc.low == HitsTotal(s.c) && mv.c == s.c)
  {
    hide HitsTotal, Good, EntriesOk, TablesOk, MapKeyOf, Sound, Composed, Owed, Rejected, CheckCaps, RequestOf, Served;
  }

  // ---------------------------------------------------------------- between two publishes

  /** Until the next snapshot every mutex hit is pending, and nothing else is. */
  predicate KeepsPending(c: Cache, led: Ledger, d: Cache, k: Ledger) {
    c.snapshots <= d.snapshots && led.mutexHits <= k.mutexHits &&
    (d.snapshots == c.snapshots ==> k.mutexHits + c.pendingHits == led.mutexHits + d.pendingHits)
  }

  lemma HitPending(s: Sys, e: nat)
    ensures KeepsPending(s.c, s.led, HitLocked(s.c, e), HitLedger(s))
  {
    hide Without;
  }

  lemma RelockPending(w: Tables, s: Sys, t: nat, call: Call, r: Request, out: Pieces.Emitted<Composing.Bind>)
    requires Local(w, s, t) && s.threads[t] == Relocking(call, r, out)
    ensures var mv := SecondLock(s, t, call, r, out); KeepsPending(s.c, s.led, mv.c, mv.led)
  {
    hide Good, EntriesOk, TablesOk, MapKeyOf, Sound, Composed, Owed, MadeFor, Removed, Without;
    if s.owner.None? {
      var c := s.c.(misses := s.c.misses + 1);
      MissGood(s.c, s.c.misses + 1);
      if MapKeyOf(r) in c.m {
        NoCollision(w, c, r);
      }
    }
  }

  lemma ExaminePending(s: Sys, left: nat, again: Pc, back: Pc)
    requires Good(s.c) && s.c.order != []
    ensures Linked(s.c)
    ensures var mv := Examine(s, left, again, back); KeepsPending(s.c, s.led, mv.c, mv.led)
  {
    hide Good, Linked, Without;
    OrderLinked(s.c);
  }

  lemma InsidePending(w: Tables, s: Sys, t: nat, a: Action)
    requires Local(w, s, t) && Holds(s.threads[t])
    ensures var mv := Turn(w, s, t, a); KeepsPending(s.c, s.led, mv.c, mv.led)
  {
    hide Good, EntriesOk, TablesOk, Serving, Sound, Composed, Linked, Examine, HitsTotal, Sum;
    match s.threads[t]
    case Inserting(call, r, e) =>
    case Evicting(call, r, e, left) =>
      NonEmpty(s.c);
      ExaminePending(s, left, Evicting(call, r, e, if left > 0 then left - 1 else 0), Inserting(call, r, e));
    case Limiting =>
    case Shrinking(left) =>
      NonEmpty(s.c);
      ExaminePending(s, left, Shrinking(if left > 0 then left - 1 else 0), Limiting);
    case Summing(walk, acc, low) =>
  }

  /** So it is in every step. */
  lemma StepPending(w: Tables, s: Sys, t: nat, a: Action)
    requires Local(w, s, t)
    ensures var mv := Turn(w, s, t, a); KeepsPending(s.c, s.led, mv.c, mv.led)
  {
    hide Good, EntriesOk, TablesOk, MapKeyOf, Sound, Composed, Owed, Rejected, CheckCaps, RequestOf, Served, HitLocked, Inserted, Removed, HitLedger, KeepsPending;
    var pc := s.threads[t];
    if Holds(pc) {
      InsidePending(w, s, t, a);
    } else if pc.Waiting? {
      SamePending(s.c, s.c, s.led, s.led);
      if s.owner.None? && MapKeyOf(pc.r) in s.c.m {
        NoCollision(w, s.c, pc.r);
        HitPending(s, s.c.m[MapKeyOf(pc.r)]);
      }
    } else if pc.Relocking? {
      RelockPending(w, s, t, pc.call, pc.r, pc.out);
    } else {
      QuietStep(w, s, t, a);
      hide Turn;
      SamePending(s.c, Turn(w, s, t, a).c, s.led, Turn(w, s, t, a).led);
    }
  }

  lemma SamePending(c: Cache, d: Cache, l: Ledger, k: Ledger)
    requires SameBooks(c, d) && SameCauses(l, k)
    ensures KeepsPending(c, l, d, k)
  {
  }

  lemma PendingThen(c: Cache, l: Ledger, d: Cache, k: Ledger, e: Cache, m: Ledger)
    requires KeepsPending(c, l, d, k) && KeepsPending(d, k, e, m)
    ensures KeepsPending(c, l, e, m)
  {
  }

  lemma {:induction false} RunPending(w: Tables, s: Sys, more: seq<(nat, Action)>)
    requires Safe(w, s)
    ensures KeepsPending(s.c, s.led, Execute(w, s, more).c, Execute(w, s, more).led)
    decreases |more|
  {
    hide Good, EntriesOk, TablesOk, PcOk, Settled, Turn, KeepsPending;
    SamePending(s.c, s.c, s.led, s.led);
    if more != [] {
      var mid, last := Execute(w, s, more[..|more| - 1]), more[|more| - 1];
      RunPending(w, s, more[..|more| - 1]);
      SamePending(mid.c, mid.c, mid.led, mid.led);
      if last.0 < |mid.threads| {
        StepPending(w, mid, last.0, last.1);
      }
      var end := Next(w, mid, last.0, last.1);
      PendingThen(s.c, s.led, mid.c, mid.led, end.c, end.led);
    }
  }

  /** Fewer hits are pending than the cache may hold, mutex held or not. */
  lemma PendingBelow(w: Tables, s: Sys)
    requires Safe(w, s)
    ensures s.c.pendingHits < s.c.cap
  {
    hide Good, EntriesOk, TablesOk, Serving, Found, Sum, HitsTotal;
    if s.owner.Some? {
      assert Local(w, s, s.owner.value);
    }
  }
}
