/**
 The cache as a concurrent protocol (runtime/runtime.go, runtime/observe.go). Any number
 of threads take turns, one step at a time and in any order: the lock-free lookup, the
 two critical sections of a miss, second-chance examinations one by one, the byte limit
 and the statistics walk. Only the mutex makes a step wait.
 */
module CacheProtocol {
  import opened Core
  import opened Pieces
  import opened FilterTree
  import opened Composing
  import opened CacheKeys
  import opened CacheState

  // ---------------------------------------------------------------- threads

  /** Where a thread stands. From `Inserting` on, the last six hold the mutex. */
  datatype Pc =
    | Idle
    | Loading(call: Call, r: Request)
    | Looking(call: Call, r: Request, snap: Option<map<string, nat>>)
    | Touching(call: Call, r: Request, e: nat, count: bool)
    | Storing(call: Call, r: Request, e: nat, count: bool)
    | Counting(call: Call, r: Request, e: nat)
    | Waiting(call: Call, r: Request)
    | Composing(call: Call, r: Request)
    | Relocking(call: Call, r: Request, out: Emitted<Bind>)
    | Answered(call: Call, answer: Answer)
    | Scraping
    | Reported(total: nat)
    | Inserting(call: Call, r: Request, e: nat)
    | Evicting(call: Call, r: Request, e: nat, left: nat)
    | Limiting
    | Shrinking(left: nat)
    | Summing(walk: seq<nat>, acc: nat, low: nat)

  predicate Holds(pc: Pc) { pc.Inserting? || pc.Evicting? || pc.Limiting? || pc.Shrinking? || pc.Summing? }

  predicate MidInsert(pc: Pc) { pc.Inserting? || pc.Evicting? }

  /** What a scheduler may have a thread do next. */
  datatype Action = Ask(call: Call) | Limit(maxBytes: int) | Scrape(walk: seq<nat>) | Go

  /** History, read by no step: mutex hits, publishes by cause, evictions forced by the
      byte ceiling, and the fate of every counted hit. */
  datatype Ledger = Ledger(
    mutexHits: nat, filling: nat, full: nat, credited: nat, overdue: nat, limits: nat,
    forced: nat, counted: nat, lost: nat, reported: nat)

  datatype Sys = Sys(c: Cache, owner: Option<nat>, threads: seq<Pc>, led: Ledger)

  /** The outcome of one step for the thread that took it. */
  datatype Move = Move(c: Cache, owner: Option<nat>, pc: Pc, led: Ledger)

  function Stay(s: Sys, t: nat): Move
    requires t < |s.threads|
  {
    Move(s.c, s.owner, s.threads[t], s.led)
  }

  function To(s: Sys, pc: Pc): Move { Move(s.c, s.owner, pc, s.led) }

  // ---------------------------------------------------------------- entries

  function ArgIdx(binds: seq<Bind>): (idx: seq<int>)
    ensures |idx| == |binds|
  {
    seq(|binds|, i requires 0 <= i < |binds| => binds[i].idx)
  }

  function MadeFor(r: Request, out: Emitted<Bind>): Entry {
    Entry(MapKeyOf(r), r.query, r.key, out.text, out.binds, ArgIdx(out.binds))
  }

  function Served(en: Entry): Emitted<Bind> { Emitted(en.sql, en.binds) }

  /** Every stored entry was composed for some sound request. */
  ghost predicate EntryOk(w: Tables, en: Entry) {
    exists r: Request :: ComposedFor(w, r, en)
  }

  ghost predicate ComposedFor(w: Tables, r: Request, en: Entry) {
    Sound(w, r) && Composed(w, r).Ok? && en == MadeFor(r, Composed(w, r).value)
  }

  ghost predicate EntriesOk(w: Tables, es: seq<Entry>) { forall en <- es :: EntryOk(w, en) }

  /** An entry found under a request's text has the request's key and its answer: the
      key comparison never fails, and the entry may be served. */
  lemma FoundServes(w: Tables, en: Entry, r: Request)
    requires EntryOk(w, en) && Sound(w, r) && en.mapKey == MapKeyOf(r)
    ensures en.key == r.key && Composed(w, r) == Ok(Served(en))
  {
    hide Sound, Composed, MapKeyOf;
    var r0: Request :| ComposedFor(w, r0, en);
    SameTextSameAnswer(w, r0, r);
  }

  // ---------------------------------------------------------------- steps

  /** A thread between calls. */
  function Begin(w: Tables, s: Sys, t: nat, a: Action): Move
    requires t < |s.threads| && TablesOk(w)
  {
    match a
    case Ask(call) =>
      if !CallOk(w, call) then Stay(s, t)
      else if call.GetTree? && CheckCaps(call.tree, call.caps).Some? then
        To(s, Answered(call, Err(BadTree(CheckCaps(call.tree, call.caps).value))))
      else
        var r := RequestOf(call);
        if Rejected(w, r).Some? then To(s, Answered(call, Err(BadTree(Rejected(w, r).value)))) else To(s, Loading(call, r))
    case Limit(n) =>
      if s.owner.Some? then Stay(s, t) else Move(s.c.(maxBytes := n), Some(t), Limiting, s.led)
    case Scrape(_) => Move(s.c.(track := true), s.owner, Scraping, s.led)
    case Go => Stay(s, t)
  }

  /** The snapshot lookup, with the full key compared. */
  function Look(s: Sys, call: Call, r: Request, snap: Option<map<string, nat>>): Move
    requires snap.Some? ==> Snapshot(s.c.entries, snap.value)
  {
    if snap.Some? && MapKeyOf(r) in snap.value && s.c.entries[snap.value[MapKeyOf(r)]].key == r.key
    then To(s, Touching(call, r, snap.value[MapKeyOf(r)], true))
    else To(s, Waiting(call, r))
  }

  /** `touch`: read the bit, and store it only when it is clear. */
  function Touch(s: Sys, call: Call, r: Request, e: nat, count: bool): Move
    requires e < |s.c.entries|
  {
    To(s, if e !in s.c.ref then Storing(call, r, e, count) else AfterTouch(s, call, r, e, count))
  }

  function AfterTouch(s: Sys, call: Call, r: Request, e: nat, count: bool): Pc
    requires e < |s.c.entries|
  {
    if count then Counting(call, r, e) else Answered(call, Ok(Served(s.c.entries[e])))
  }

  function Store(s: Sys, call: Call, r: Request, e: nat, count: bool): Move
    requires e < |s.c.entries|
  {
    Move(Touched(s.c, e), s.owner, AfterTouch(s, call, r, e, count), s.led)
  }

  function Count(s: Sys, call: Call, e: nat): Move
    requires e < |s.c.entries| && |s.c.hits| == |s.c.entries|
  {
    var done := Answered(call, Ok(Served(s.c.entries[e])));
    if !s.c.track then To(s, done)
    else
      Move(Counted(s.c, e), s.owner, done,
           s.led.(counted := s.led.counted + 1, lost := s.led.lost + (if e in s.c.order then 0 else 1)))
  }

  /** The first critical section: a hit the snapshot missed, or a miss. */
  function FirstLock(s: Sys, t: nat, call: Call, r: Request): Move
    requires t < |s.threads| && Good(s.c)
  {
    if s.owner.Some? then Stay(s, t)
    else if MapKeyOf(r) !in s.c.m then To(s, Composing(call, r))
    else
      var e := s.c.m[MapKeyOf(r)];
      if s.c.entries[e].key == r.key then
        Move(HitLocked(s.c, e), s.owner, Touching(call, r, e, true), HitLedger(s))
      else Move(Removed(s.c, e), s.owner, Composing(call, r), s.led)
  }

  function HitLedger(s: Sys): Ledger {
    var led := s.led.(mutexHits := s.led.mutexHits + 1);
    if s.c.credit then led.(credited := led.credited + 1)
    else if s.c.pendingHits + 1 >= s.c.cap then led.(overdue := led.overdue + 1)
    else led
  }

  function ComposeOutside(w: Tables, s: Sys, call: Call, r: Request): Move
    requires r.query in w && TableOk(w[r.query])
  {
    match Composed(w, r)
    case Err(e) => To(s, Answered(call, Err(e)))
    case Ok(out) => To(s, Relocking(call, r, out))
  }

  /** The second critical section up to the eviction loop: a raced hit, or the insert. */
  function SecondLock(s: Sys, t: nat, call: Call, r: Request, out: Emitted<Bind>): Move
    requires t < |s.threads| && Good(s.c)
  {
    if s.owner.Some? then Stay(s, t)
    else
      var c := s.c.(misses := s.c.misses + 1);
      if MapKeyOf(r) !in c.m then Insert(s, t, c, call, r, out)
      else
        var e := c.m[MapKeyOf(r)];
        if c.entries[e].key == r.key then Move(MovedToFront(c, e), s.owner, Touching(call, r, e, false), s.led)
        else Insert(s, t, Removed(c, e), call, r, out)
  }

  function Insert(s: Sys, t: nat, c: Cache, call: Call, r: Request, out: Emitted<Bind>): Move {
    Move(Inserted(c, MadeFor(r, out)), Some(t), Inserting(call, r, |c.entries|), s.led)
  }

  /** The eviction loop's test; past it the insert publishes and unlocks. */
  function AfterInsert(s: Sys, call: Call, r: Request, e: nat): Move
    requires e < |s.c.entries|
  {
    if MustEvict(s.c) then To(s, Evicting(call, r, e, |s.c.m|))
    else
      var led :=
        if !PublishDue(s.c) then s.led
        else if s.c.evictedSince then s.led.(full := s.led.full + 1)
        else s.led.(filling := s.led.filling + 1);
      Move(Published(s.c), None, Answered(call, Ok(Served(s.c.entries[e]))), led)
  }

  /** One examination; `back` says where the loop goes when the entry was evicted. */
  function Examine(s: Sys, left: nat, again: Pc, back: Pc): Move
    requires Linked(s.c) && s.c.order != []
  {
    if left > 0 && Reprieved(s.c) then Move(Reprieve(s.c), s.owner, again, s.led)
    else Move(EvictedBack(s.c), s.owner, back, s.led.(forced := s.led.forced + (if |s.c.m| > s.c.cap then 0 else 1)))
  }

  function ApplyLimit(s: Sys): Move {
    if MustShrink(s.c) then To(s, Shrinking(|s.c.m|))
    else Move(PublishedNow(s.c), None, Idle, s.led.(limits := s.led.limits + 1))
  }

  /** `walk` is the order in which the map iteration happens to visit the entries. */
  predicate IsWalk(walk: seq<nat>, order: seq<nat>) {
    NoDup(walk) && (forall e <- walk :: e in order) && forall e <- order :: e in walk
  }

  function LockStats(s: Sys, t: nat, a: Action): Move
    requires t < |s.threads|
  {
    if s.owner.None? && a.Scrape? && IsWalk(a.walk, s.c.order)
    then Move(s.c, Some(t), Summing(a.walk, s.c.hitsFolded, HitsTotal(s.c)), s.led)
    else Stay(s, t)
  }

  function SumOne(s: Sys, walk: seq<nat>, acc: nat, low: nat): Move {
    if walk == [] then Move(s.c, None, Reported(acc), s.led.(reported := acc))
    else To(s, Summing(walk[1..], acc + At(s.c.hits, walk[0]), low))
  }

  /** A step without the mutex, or the one that takes it. */
  function OutsideTurn(w: Tables, s: Sys, t: nat, a: Action): Move
    requires t < |s.threads| && TablesOk(w) && Good(s.c) && PcOk(w, s.c, s.threads[t]) && !Holds(s.threads[t])
  {
    match s.threads[t]
    case Idle => Begin(w, s, t, a)
    case Answered(_, _) => Begin(w, s, t, a)
    case Reported(_) => Begin(w, s, t, a)
    case Loading(call, r) => To(s, Looking(call, r, s.c.fast))
    case Looking(call, r, snap) => Look(s, call, r, snap)
    case Touching(call, r, e, count) => Touch(s, call, r, e, count)
    case Storing(call, r, e, count) => Store(s, call, r, e, count)
    case Counting(call, r, e) => Count(s, call, e)
    case Waiting(call, r) => FirstLock(s, t, call, r)
    case Composing(call, r) => ComposeOutside(w, s, call, r)
    case Relocking(call, r, out) => SecondLock(s, t, call, r, out)
    case Scraping => LockStats(s, t, a)
  }

  /** A step of the holder of the mutex. */
  function InsideTurn(w: Tables, s: Sys, t: nat): Move
    requires t < |s.threads| && Good(s.c) && PcOk(w, s.c, s.threads[t]) && Holds(s.threads[t])
  {
    match s.threads[t]
    case Inserting(call, r, e) => AfterInsert(s, call, r, e)
    case Evicting(call, r, e, left) =>
      Examine(s, left, Evicting(call, r, e, if left > 0 then left - 1 else 0), Inserting(call, r, e))
    case Limiting => ApplyLimit(s)
    case Shrinking(left) => Examine(s, left, Shrinking(if left > 0 then left - 1 else 0), Limiting)
    case Summing(walk, acc, low) => SumOne(s, walk, acc, low)
  }

  /** The step thread `t` takes. */
  function Turn(w: Tables, s: Sys, t: nat, a: Action): Move
    requires t < |s.threads| && TablesOk(w) && Good(s.c) && PcOk(w, s.c, s.threads[t])
  {
    if Holds(s.threads[t]) then InsideTurn(w, s, t) else OutsideTurn(w, s, t, a)
  }

  function Apply(s: Sys, t: nat, mv: Move): Sys
    requires t < |s.threads|
  {
    Sys(mv.c, mv.owner, s.threads[t := mv.pc], mv.led)
  }

  // ---------------------------------------------------------------- the invariant

  /** The thread's own call, accepted and turned into the request it now serves. */
  ghost predicate Serving(w: Tables, call: Call, r: Request) {
    CallOk(w, call) && Sound(w, r) && TablesOk(w) && Owed(w, call) == Composed(w, r)
  }

  ghost predicate Found(w: Tables, c: Cache, r: Request, e: nat) {
    e < |c.entries| && |c.hits| == |c.entries| && Sound(w, r) && Composed(w, r) == Ok(Served(c.entries[e]))
  }

  ghost predicate PcOk(w: Tables, c: Cache, pc: Pc) {
    match pc
    case Idle => true
    case Scraping => true
    case Reported(_) => true
    case Loading(call, r) => Serving(w, call, r)
    case Looking(call, r, snap) => Serving(w, call, r) && (snap.Some? ==> Snapshot(c.entries, snap.value))
    case Touching(call, r, e, _) => Serving(w, call, r) && Found(w, c, r, e)
    case Storing(call, r, e, _) => Serving(w, call, r) && Found(w, c, r, e)
    case Counting(call, r, e) => Serving(w, call, r) && Found(w, c, r, e)
    case Waiting(call, r) => Serving(w, call, r)
    case Composing(call, r) => Serving(w, call, r)
    case Relocking(call, r, out) => Serving(w, call, r) && Composed(w, r) == Ok(out)
    case Answered(call, answer) => TablesOk(w) && CallOk(w, call) && answer == Owed(w, call)
    case Inserting(call, r, e) => Serving(w, call, r) && Found(w, c, r, e) && InHand(c)
    case Evicting(call, r, e, left) => Serving(w, call, r) && Found(w, c, r, e) && InHand(c) && MustEvict(c) && left <= |c.m|
    case Limiting => InHand(c) && |c.m| <= c.cap
    case Shrinking(left) => InHand(c) && |c.m| <= c.cap && MustShrink(c) && left <= |c.m|
    case Summing(walk, acc, low) =>
      Settled(c) && NoDup(walk) && (forall e <- walk :: e in c.order) && low <= acc + Sum(c.hits, walk) <= HitsTotal(c)
  }

  /** While the mutex is held for a change. */
  ghost predicate InHand(c: Cache) { |c.m| <= c.cap + 1 && c.pendingHits < c.cap }
}
