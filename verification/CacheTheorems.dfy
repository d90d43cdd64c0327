/** What holds in every run of the cache, for any threads, capacity and schedule. */
module CacheTheorems {
  import opened Core
  import opened CacheKeys
  import opened CacheState
  import opened CacheProtocol
  import opened CacheSafety
  import opened CacheLedger

  /** The state a schedule leads to. */
  function Reached(w: Tables, capacity: int, n: nat, schedule: seq<(nat, Action)>): (s: Sys)
    requires TablesOk(w)
    ensures Safe(w, s) && |s.threads| == n && s.c.cap == NewCache(capacity).cap
  {
    StartSafe(w, capacity, n);
    Execute(w, Start(capacity, n), schedule)
  }

  lemma NextAccounted(w: Tables, s: Sys, t: nat, a: Action)
    requires Safe(w, s) && Accounted(s)
    ensures Accounted(Next(w, s, t, a))
  {
    hide Good, EntriesOk, TablesOk, Settled, PcOk, Booked, HitsBooked, Turn;
    if t < |s.threads| {
      StepSafe(w, s, t, a);
      assert Local(w, s, t);
      StepBooked(w, s, t, a);
      StepHits(w, s, t, a);
    }
  }

  lemma {:induction false} RunAccounted(w: Tables, s: Sys, schedule: seq<(nat, Action)>)
    requires Safe(w, s) && Accounted(s)
    ensures Accounted(Execute(w, s, schedule))
    decreases |schedule|
  {
    hide Safe, Accounted, Next;
    if schedule != [] {
      var last := schedule[|schedule| - 1];
      RunAccounted(w, s, schedule[..|schedule| - 1]);
      NextAccounted(w, Execute(w, s, schedule[..|schedule| - 1]), last.0, last.1);
    }
  }

  lemma ReachedAccounted(w: Tables, capacity: int, n: nat, schedule: seq<(nat, Action)>)
    requires TablesOk(w)
    ensures Accounted(Reached(w, capacity, n, schedule))
  {
    StartSafe(w, capacity, n);
    RunAccounted(w, Start(capacity, n), schedule);
  }

  // ---------------------------------------------------------------- answers

  /** Lock-free hit, mutex hit, miss, raced miss or stale snapshot: whatever path an
      access took, its answer is the one its own style, query, key and tree compose to. */
  lemma AnswersAreOwed(w: Tables, capacity: int, n: nat, schedule: seq<(nat, Action)>, t: nat)
    requires TablesOk(w) && t < n && Reached(w, capacity, n, schedule).threads[t].Answered?
    ensures
      var pc := Reached(w, capacity, n, schedule).threads[t];
      CallOk(w, pc.call) && pc.answer == Owed(w, pc.call)
  {
    hide Execute, Good, Owed;
    var s := Reached(w, capacity, n, schedule);
    assert Local(w, s, t);
  }

  /** The branches that drop an entry whose text collides are never taken. */
  lemma NeverCollides(w: Tables, capacity: int, n: nat, schedule: seq<(nat, Action)>, t: nat)
    requires TablesOk(w) && t < n
    requires var pc := Reached(w, capacity, n, schedule).threads[t]; pc.Waiting? || pc.Relocking?
    ensures
      var s := Reached(w, capacity, n, schedule);
      var text := MapKeyOf(s.threads[t].r);
      text in s.c.m ==> s.c.m[text] < |s.c.entries| && s.c.entries[s.c.m[text]].key == s.threads[t].r.key
  {
    hide Execute, Good, MapKeyOf;
    var s := Reached(w, capacity, n, schedule);
    assert Local(w, s, t);
    if MapKeyOf(s.threads[t].r) in s.c.m {
      NoCollision(w, s.c, s.threads[t].r);
    }
  }

  // ---------------------------------------------------------------- bounds

  /** Entries the cache itself keeps alive: those of the map and of the snapshot. */
  function Retained(c: Cache): set<nat> {
    (set k | k in c.m :: c.m[k]) + (if c.fast.Some? then set k | k in c.fast.value :: c.fast.value[k] else {})
  }

  lemma {:induction false} SubsetSize(a: set<nat>, b: set<nat>)
    requires a <= b
    ensures |a| <= |b|
  {
    if a != {} {
      var x :| x in a;
      SubsetSize(a - {x}, b - {x});
    }
  }

  lemma {:induction false} ImageSmall(f: map<string, nat>)
    ensures |set k | k in f :: f[k]| <= |f|
    decreases |f|
  {
    if f.Keys != {} {
      var x :| x in f.Keys;
      var g := f - {x};
      assert g.Keys == f.Keys - {x};
      ImageSmall(g);
      var a, b := set k | k in f :: f[k], set k | k in g :: g[k];
      assert a <= b + {f[x]} by {
        forall y | y in a ensures y in b + {f[x]} {
          var k :| k in f && f[k] == y;
          assert k != x ==> k in g.Keys && g[k] == y;
        }
      }
      SubsetSize(a, b + {f[x]});
    }
  }

  /** With the mutex free the map and the snapshot hold at most `cap` entries each, so at
      most twice that is retained, and the byte ceiling holds or one entry remains. */
  lemma WithinCapacity(w: Tables, capacity: int, n: nat, schedule: seq<(nat, Action)>)
    requires TablesOk(w)
    ensures
      var c := Reached(w, capacity, n, schedule).c;
      c.cap >= 1 && (capacity > 0 ==> c.cap == capacity) &&
      (c.fast.Some? ==> |c.fast.value| <= c.cap) &&
      (Reached(w, capacity, n, schedule).owner.None? ==>
        |c.m| <= c.cap && |Retained(c)| <= 2 * c.cap && (c.maxBytes <= 0 || c.totalBytes <= c.maxBytes || |c.m| <= 1))
  {
    hide Execute, Linked, Tallied, EntriesOk, Snapshot;
    var c := Reached(w, capacity, n, schedule).c;
    ImageSmall(c.m);
    if c.fast.Some? {
      ImageSmall(c.fast.value);
    }
  }

  /** At every moment, mutex held or not: list and map hold the same entries, byte totals
      are their sums, and inserts less evictions is their number. */
  lemma Consistent(w: Tables, capacity: int, n: nat, schedule: seq<(nat, Action)>)
    requires TablesOk(w)
    ensures
      var c := Reached(w, capacity, n, schedule).c;
      Linked(c) && Tallied(c) && (c.fast.Some? ==> Snapshot(c.entries, c.fast.value))
  {
    hide Execute, Linked, Tallied, EntriesOk, Snapshot;
  }

  // ---------------------------------------------------------------- the holder finishes

  function Weight(m: nat): nat { m * (m + 3) }

  /** Steps the holder of the mutex may still need. */
  function Fuel(c: Cache, pc: Pc): nat {
    match pc
    case Inserting(_, _, _) => Weight(|c.m|) + 1
    case Limiting => Weight(|c.m|) + 1
    case Evicting(_, _, _, left) => Weight(if |c.m| > 0 then |c.m| - 1 else 0) + 2 + left
    case Shrinking(left) => Weight(if |c.m| > 0 then |c.m| - 1 else 0) + 2 + left
    case Summing(walk, _, _) => |walk| + 1
    case _ => 0
  }

  lemma WeightStep(m: nat)
    requires m > 0
    ensures Weight(m) + 1 > Weight(m - 1) + 2 + m
  {
  }

  /** However readers touch in between, each step of the holder brings it closer to the
      unlock: no interference can keep the hand spinning. */
  lemma HolderProgress(w: Tables, s: Sys, t: nat, a: Action)
    requires Safe(w, s) && t < |s.threads| && Holds(s.threads[t])
    ensures var s' := Next(w, s, t, a); s'.owner.None? || Fuel(s'.c, s'.threads[t]) < Fuel(s.c, s.threads[t])
  {
    hide Good, EntriesOk, TablesOk, Serving, Sound, Composed, Weight, Linked, Examine, Next, AfterInsert, ApplyLimit;
    assert Local(w, s, t);
    NextMoves(w, s, t, a);
    match s.threads[t]
    case Inserting(call, r, e) => InsertFuel(s, call, r, e);
    case Evicting(call, r, e, left) =>
      NonEmpty(s.c);
      ExamineFuel(s, left, Evicting(call, r, e, if left > 0 then left - 1 else 0), Inserting(call, r, e));
    case Limiting => LimitFuel(s);
    case Shrinking(left) =>
      NonEmpty(s.c);
      ExamineFuel(s, left, Shrinking(if left > 0 then left - 1 else 0), Limiting);
    case Summing(_, _, _) =>
  }

  lemma NextMoves(w: Tables, s: Sys, t: nat, a: Action)
    requires Safe(w, s) && t < |s.threads|
    ensures Local(w, s, t) && Next(w, s, t, a) == Apply(s, t, Turn(w, s, t, a))
  {
    hide Turn, Local;
    StepSafe(w, s, t, a);
  }

  lemma InsertFuel(s: Sys, call: Call, r: Request, e: nat)
    requires e < |s.c.entries|
    ensures var mv := AfterInsert(s, call, r, e); mv.owner.None? || Fuel(mv.c, mv.pc) < Fuel(s.c, Inserting(call, r, e))
  {
    hide Weight;
    if MustEvict(s.c) { WeightStep(|s.c.m|); }
  }

  lemma LimitFuel(s: Sys)
    ensures var mv := ApplyLimit(s); mv.owner.None? || Fuel(mv.c, mv.pc) < Fuel(s.c, Limiting)
  {
    hide Weight;
    if MustShrink(s.c) { WeightStep(|s.c.m|); }
  }

  lemma ExamineFuel(s: Sys, left: nat, again: Pc, back: Pc)
    requires Good(s.c) && s.c.order != [] && |s.c.m| > 0
    requires (again.Evicting? && back.Inserting?) || (again.Shrinking? && back.Limiting?)
    requires again.left == if left > 0 then left - 1 else 0
    ensures Linked(s.c)
    ensures var mv := Examine(s, left, again, back);
      Fuel(mv.c, mv.pc) < Weight(|s.c.m| - 1) + 2 + left
  {
    hide Good, Linked, Weight, Reprieve, EvictedBack;
    OrderLinked(s.c);
    ExamineKeeps(s.c);
  }

  lemma WaitingKeepsFuel(w: Tables, s: Sys, u: nat, a: Action, t: nat)
    requires Safe(w, s) && t < |s.threads| && Holds(s.threads[t]) && u != t
    ensures var s' := Next(w, s, u, a); s'.owner == Some(t) && s'.threads[t] == s.threads[t] && Fuel(s'.c, s'.threads[t]) == Fuel(s.c, s.threads[t])
  {
    hide Good, EntriesOk, TablesOk, PcOk, Turn, Settled;
    assert Local(w, s, t);
    if u < |s.threads| {
      StepSafe(w, s, u, a);
    }
  }

  // ---------------------------------------------------------------- publishing

  lemma AtMostQuotient(n: nat, cap: nat, total: nat)
    requires cap >= 1 && n * cap <= total
    ensures n <= total / cap
  {
    var q := total / cap;
    assert total < (q + 1) * cap;
    assert n >= q + 1 ==> n * cap >= (q + 1) * cap;
  }

  /** Snapshots are amortized over inserts and mutex hits; each eviction forced by the
      byte ceiling may cost two more. */
  lemma SnapshotsAmortized(w: Tables, capacity: int, n: nat, schedule: seq<(nat, Action)>)
    requires TablesOk(w)
    ensures
      var s := Reached(w, capacity, n, schedule);
      s.c.cap >= 1 &&
      s.c.snapshots <= 2 * (s.c.cap + s.led.forced + s.c.inserts / s.c.cap) + s.led.mutexHits / s.c.cap + 2 * s.led.limits
  {
    hide Execute, Linked, Tallied, EntriesOk, Snapshot, HitsBooked;
    var s := Reached(w, capacity, n, schedule);
    ReachedAccounted(w, capacity, n, schedule);
    AtMostQuotient(s.led.full, s.c.cap, s.c.inserts);
    AtMostQuotient(s.led.overdue, s.c.cap, s.led.mutexHits);
  }

  /** The schedule so far and more of it. */
  lemma {:induction false} ExecuteMore(w: Tables, s: Sys, schedule: seq<(nat, Action)>, more: seq<(nat, Action)>)
    requires Safe(w, s)
    ensures Execute(w, s, schedule + more) == Execute(w, Execute(w, s, schedule), more)
    decreases |more|
  {
    hide Safe, Next;
    if more == [] {
      assert schedule + more == schedule;
    } else {
      var front, last := more[..|more| - 1], more[|more| - 1];
      assert (schedule + more)[..|schedule + more| - 1] == schedule + front;
      ExecuteMore(w, s, schedule, front);
    }
  }

  /** Fewer than `cap` mutex hits ever pass between two snapshots: in any stretch of any run
      in which none is taken, the threads serve fewer than `cap` hits under the mutex. */
  lemma FlushIsNear(w: Tables, capacity: int, n: nat, schedule: seq<(nat, Action)>, more: seq<(nat, Action)>)
    requires TablesOk(w)
    requires Reached(w, capacity, n, schedule + more).c.snapshots == Reached(w, capacity, n, schedule).c.snapshots
    ensures
      var s, s' := Reached(w, capacity, n, schedule), Reached(w, capacity, n, schedule + more);
      s.led.mutexHits <= s'.led.mutexHits < s.led.mutexHits + s.c.cap
  {
    hide Execute, Safe;
    StartSafe(w, capacity, n);
    ExecuteMore(w, Start(capacity, n), schedule, more);
    RunPending(w, Reached(w, capacity, n, schedule), more);
    PendingBelow(w, Reached(w, capacity, n, schedule + more));
  }

  // ---------------------------------------------------------------- statistics

  /** Every hit ever counted is in the total, folded or resident, or was counted on an
      entry that had already left the map. */
  lemma HitsConserved(w: Tables, capacity: int, n: nat, schedule: seq<(nat, Action)>)
    requires TablesOk(w)
    ensures var s := Reached(w, capacity, n, schedule);
      HitsTotal(s.c) + s.led.lost == s.led.counted && s.led.reported <= HitsTotal(s.c)
  {
    hide Execute, HitsTotal;
    ReachedAccounted(w, capacity, n, schedule);
  }

  /** A statistics call never reports fewer hits than the one before it, although it
      reads the entries one by one while others count. */
  lemma StatsNeverDecrease(w: Tables, capacity: int, n: nat, schedule: seq<(nat, Action)>, t: nat, a: Action)
    requires TablesOk(w) && t < n
    requires
      var s := Reached(w, capacity, n, schedule);
      s.threads[t].Summing? && Next(w, s, t, a).threads[t].Reported?
    ensures
      var s := Reached(w, capacity, n, schedule);
      var s' := Next(w, s, t, a);
      s.led.reported <= s'.threads[t].total == s'.led.reported && s'.threads[t].total <= HitsTotal(s'.c)
  {
    hide Execute, HitsTotal, Good, EntriesOk;
    var s := Reached(w, capacity, n, schedule);
    ReachedAccounted(w, capacity, n, schedule);
    assert Local(w, s, t);
  }
}
