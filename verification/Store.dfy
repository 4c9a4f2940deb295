/**
 * The registry store (src/store.rs): an in-memory map, generation-stamped
 * snapshots written by tasks that finish in any order, a dirty flag, a derived
 * id cache and a file that survives crashes.
 *
 * Threads interleave at lock sections. `History` is bookkeeping the source does
 * not have: it records what was done to the map, so that "the file is a past
 * state" and "the change is durable" can be said.
 */
module Store {
  import opened Text
  import opened RegistryText

  // ---- what is done to the map ----------------------------------------------------

  datatype Mutation =
    | Bind(schema: string, rec: Rec)
    | Bump(schema: string, now: nat)
    | Retier(schema: string, tier: Tier)

  function Mutate(m: Registry, mu: Mutation): Registry {
    match mu
    case Bind(schema, rec) => m[schema := rec]
    case Bump(schema, now) => if schema in m then m[schema := m[schema].(lastActive := now)] else m
    case Retier(schema, tier) => if schema in m then m[schema := m[schema].(tier := tier)] else m
  }

  function Replay(init: Registry, log: seq<Mutation>): Registry {
    if log == [] then init else Mutate(Replay(init, log[..|log| - 1]), log[|log| - 1])
  }

  function Ids(m: Registry): set<string> { set k | k in m :: m[k].id }

  const ADOPTED_ID_PREFIX := "pending-restore-"

  /** The record `adopt_archived` leaves behind for `schema`. */
  function Adopted(m: Registry, schema: string, now: nat): Rec {
    if schema in m then m[schema].(tier := Archived)
    else Rec(ADOPTED_ID_PREFIX + schema, now, Archived)
  }

  /** `put` finds the schema already bound live to this VM. */
  predicate AlreadyBound(m: Registry, schema: string, id: string) {
    schema in m && m[schema].id == id && m[schema].tier == Live
  }

  // ---- the machine ------------------------------------------------------------------

  /** A thread in the middle of an operation. */
  datatype Thread =
    | Inserted(awaits: bool, at: nat, what: Mutation)  // holds the map, wants the cache
    | Awaiting(generation: nat, at: nat, what: Mutation) // waits for its snapshot's write task
    | NeedsMap                                         // holds the cache, wants the map
    | Collected(ids: set<string>)                      // holds the cache, has read the map

  datatype Core = Core(entries: Registry, generation: nat, dirty: bool, cache: Option<set<string>>)

  datatype Locks = Locks(map_: Option<nat>, cache: Option<nat>)

  /** The file, the newest generation written to it, and the write tasks in flight. */
  datatype Disk = Disk(text: string, newest: nat, tasks: map<nat, string>)

  /** The map at the start, whether the file has been written since, every change
      to the map that a crash has not undone, how much of that each snapshot of
      this process holds, how much the file holds, and the snapshots of this process
      whose write has failed. */
  datatype History = History(
    init: Registry,
    rewritten: bool,
    log: seq<Mutation>,
    marks: seq<nat>,
    durable: nat,
    lost: set<nat>)

  datatype State = State(
    core: Core,
    flushing: nat,              // flushes between their swap and their snapshot
    threads: map<nat, Thread>,
    locks: Locks,
    disk: Disk,
    h: History)

  datatype Label =
    | PutBump(schema: string, id: string, now: nat)
    | PutBind(thread: nat, schema: string, id: string, now: nat)
    | Adopt(thread: nat, schema: string, now: nat)
    | Invalidate(thread: nat, order: seq<string>)
    | SetTier(thread: nat, schema: string, tier: Tier, order: seq<string>)
    | Touch(schema: string, now: nat)
    | FlushSwap
    | FlushSnapshot(order: seq<string>)
    | BoundMiss(thread: nat)
    | BoundCollect(thread: nat)
    | BoundStore(thread: nat)
    | WriteSkip(generation: nat)
    | WriteDone(generation: nat)
    | WriteFail(generation: nat)
    | Return(thread: nat)
    | Crash(now: nat)

  function Logged(h: History, mu: Mutation): History { h.(log := h.log + [mu]) }

  /** `stamp(serialize(map))`: the next generation, holding the map as it is now. */
  function Stamped(s: State, order: seq<string>): State
    requires forall k :: k in order ==> k in s.core.entries
  {
    var g := s.core.generation + 1;
    s.(core := s.core.(generation := g),
       disk := s.disk.(tasks := s.disk.tasks[g := Written(s.core.entries, order)]),
       h := s.h.(marks := s.h.marks + [|s.h.log|]))
  }

  function Changed(s: State, mu: Mutation): State {
    s.(core := s.core.(entries := Mutate(s.core.entries, mu)), h := Logged(s.h, mu))
  }

  function WithThread(s: State, t: nat, th: Thread): State { s.(threads := s.threads[t := th]) }

  function WithoutThread(s: State, t: nat): State { s.(threads := s.threads - {t}) }

  ghost predicate Enabled(s: State, l: Label) {
    match l
    case PutBump(schema, id, now) =>
      s.locks.map_.None? && AlreadyBound(s.core.entries, schema, id) && now < U64
    case PutBind(t, schema, id, now) =>
      && s.locks.map_.None? && t !in s.threads && !AlreadyBound(s.core.entries, schema, id)
      && Clean(schema) && Clean(id) && now < U64
    case Adopt(t, schema, now) => s.locks.map_.None? && t !in s.threads && Clean(schema) && now < U64
    case Invalidate(t, order) =>
      && t in s.threads && s.threads[t].Inserted? && s.locks.cache.None?
      && Enumerates(order, s.core.entries)
    case SetTier(t, schema, tier, order) =>
      && s.locks.map_.None? && t !in s.threads && schema in s.core.entries
      && Enumerates(order, Mutate(s.core.entries, Retier(schema, tier)))
    case Touch(schema, now) => s.locks.map_.None? && schema in s.core.entries && now < U64
    case FlushSwap => s.core.dirty
    case FlushSnapshot(order) =>
      s.flushing > 0 && s.locks.map_.None? && Enumerates(order, s.core.entries)
    case BoundMiss(t) => t !in s.threads && s.locks.cache.None? && s.core.cache.None?
    case BoundCollect(t) => t in s.threads && s.threads[t] == NeedsMap && s.locks.map_.None?
    case BoundStore(t) => t in s.threads && s.threads[t].Collected?
    case WriteSkip(g) => g in s.disk.tasks && g <= s.disk.newest
    case WriteDone(g) => g in s.disk.tasks && g > s.disk.newest && 0 < g <= |s.h.marks|
    case WriteFail(g) => g in s.disk.tasks && g > s.disk.newest
    case Return(t) => t in s.threads && s.threads[t].Awaiting? && s.threads[t].generation !in s.disk.tasks
    case Crash(now) => now < U64 && s.h.durable <= |s.h.log|
  }

  ghost function Apply(s: State, l: Label): State
    requires Enabled(s, l)
  {
    match l
    case PutBump(schema, _, now) =>
      var s1 := Changed(s, Bump(schema, now));
      s1.(core := s1.core.(dirty := true))
    case PutBind(t, schema, id, now) =>
      var mu := Bind(schema, Rec(id, now, Live));
      WithThread(Changed(s, mu), t, Inserted(false, |s.h.log|, mu)).(locks := s.locks.(map_ := Some(t)))
    case Adopt(t, schema, now) =>
      var mu := Bind(schema, Adopted(s.core.entries, schema, now));
      WithThread(Changed(s, mu), t, Inserted(true, |s.h.log|, mu)).(locks := s.locks.(map_ := Some(t)))
    case Invalidate(t, order) =>
      var th := s.threads[t];
      var s1 := Stamped(s.(core := s.core.(cache := None), locks := s.locks.(map_ := None)), order);
      if th.awaits then WithThread(s1, t, Awaiting(s1.core.generation, th.at, th.what)) else WithoutThread(s1, t)
    case SetTier(t, schema, tier, order) =>
      var mu := Retier(schema, tier);
      var s1 := Stamped(Changed(s, mu), order);
      WithThread(s1, t, Awaiting(s1.core.generation, |s.h.log|, mu))
    case Touch(schema, now) =>
      var s1 := Changed(s, Bump(schema, now));
      s1.(core := s1.core.(dirty := true))
    case FlushSwap => s.(core := s.core.(dirty := false), flushing := s.flushing + 1)
    case FlushSnapshot(order) => Stamped(s.(flushing := s.flushing - 1), order)
    case BoundMiss(t) => WithThread(s, t, NeedsMap).(locks := s.locks.(cache := Some(t)))
    case BoundCollect(t) => WithThread(s, t, Collected(Ids(s.core.entries)))
    case BoundStore(t) =>
      WithoutThread(s, t).(core := s.core.(cache := Some(s.threads[t].ids)), locks := s.locks.(cache := None))
    case WriteSkip(g) => s.(disk := s.disk.(tasks := s.disk.tasks - {g}))
    case WriteDone(g) =>
      s.(disk := Disk(s.disk.tasks[g], g, s.disk.tasks - {g}),
         h := s.h.(rewritten := true, durable := s.h.marks[g - 1]))
    case WriteFail(g) => s.(disk := s.disk.(tasks := s.disk.tasks - {g}), h := s.h.(lost := s.h.lost + {g}))
    case Return(t) => WithoutThread(s, t)
    case Crash(now) =>
      State(Core(Parse(s.disk.text, now), 0, false, None), 0, map[], Locks(None, None),
            Disk(s.disk.text, 0, map[]),
            s.h.(init := if s.h.rewritten then s.h.init else Parse(s.disk.text, now),
                 log := s.h.log[..s.h.durable],
                 marks := [],
                 lost := {}))
  }


  // ---- invariant -----------------------------------------------------------------------

  /** Whenever `text` is loaded, the map loaded is `m`. */
  ghost predicate Denotes(text: string, m: Registry) { forall now :: Parse(text, now) == m }

  ghost predicate MemInv(core: Core, h: History) {
    core.entries == Replay(h.init, h.log) && WellFormed(core.entries)
  }

  /** A tier is only ever changed on a schema that is there. */
  ghost predicate LogInv(h: History) {
    forall p :: 0 <= p < |h.log| && h.log[p].Retier? ==> h.log[p].schema in Replay(h.init, h.log[..p])
  }

  /** Until it is first rewritten the file holds no change; from then on it holds
      exactly the first `durable` of them, whenever it is read. */
  ghost predicate DiskInv(text: string, h: History) {
    && h.durable <= |h.log|
    && (!h.rewritten ==> h.durable == 0)
    && (h.rewritten ==> Denotes(text, Replay(h.init, h.log[..h.durable])))
  }

  predicate GenInv(generation: nat, newest: nat, h: History) {
    && |h.marks| == generation && newest <= generation
    && (forall i, j :: 0 <= i <= j < |h.marks| ==> h.marks[i] <= h.marks[j])
    && (forall i :: 0 <= i < |h.marks| ==> h.marks[i] <= |h.log|)
    && (newest > 0 ==> h.durable == h.marks[newest - 1])
    && (forall i :: newest <= i < |h.marks| ==> h.durable <= h.marks[i])
  }

  ghost predicate TaskInv(tasks: map<nat, string>, h: History) {
    forall g :: g in tasks ==>
      0 < g <= |h.marks| && h.marks[g - 1] <= |h.log| && Denotes(tasks[g], Replay(h.init, h.log[..h.marks[g - 1]]))
  }

  /** How much of the log the newest snapshot holds. */
  function NewestMark(h: History): nat { if h.marks == [] then h.durable else h.marks[|h.marks| - 1] }

  predicate FlushInv(s: State) {
    !s.core.dirty && s.flushing == 0 && s.locks.map_.None? ==> NewestMark(s.h) == |s.h.log|
  }

  predicate HoldsCache(th: Thread) { th.NeedsMap? || th.Collected? }

  predicate LockInv(threads: map<nat, Thread>, locks: Locks) {
    && (forall t :: t in threads && threads[t].Inserted? ==> locks.map_ == Some(t))
    && (locks.map_.Some? ==> locks.map_.value in threads && threads[locks.map_.value].Inserted?)
    && (forall t :: t in threads && HoldsCache(threads[t]) ==> locks.cache == Some(t))
    && (locks.cache.Some? ==> locks.cache.value in threads && HoldsCache(threads[locks.cache.value]))
  }

  /** While the map is free, whatever the cache holds or is about to hold is the
      ids in the map. */
  ghost predicate CacheInv(core: Core, threads: map<nat, Thread>, locks: Locks) {
    && (locks.cache.Some? ==> core.cache.None?)
    && (locks.map_.None? ==>
          && (core.cache.Some? ==> core.cache.value == Ids(core.entries))
          && (forall t :: t in threads && threads[t].Collected? ==> threads[t].ids == Ids(core.entries)))
  }

  /** The change of a thread is in none of the snapshots before the one it makes, and in
      that one; and the write of that is under way, or made good or superseded by the
      file, or has failed. */
  ghost predicate ThreadOk(th: Thread, disk: Disk, h: History) {
    match th
    case Inserted(_, at, what) =>
      && at < |h.log| && h.log[at] == what
      && (forall j :: 0 <= j < |h.marks| ==> h.marks[j] <= at) && (disk.newest == 0 ==> h.durable <= at)
    case Awaiting(g, at, what) =>
      && 0 < g <= |h.marks| && at < h.marks[g - 1] <= |h.log| && h.log[at] == what
      && (forall j :: 0 <= j < g - 1 ==> h.marks[j] <= at) && (disk.newest == 0 ==> h.durable <= at)
      && (g in disk.tasks || g <= disk.newest || g in h.lost)
    case _ => true
  }

  ghost predicate ThreadInv(threads: map<nat, Thread>, disk: Disk, h: History) {
    forall t :: t in threads ==> ThreadOk(threads[t], disk, h)
  }

  /** Every snapshot stamped is in its write task, or in the file, or behind what is in the
      file, or its write has failed; and a write that has failed is neither under way nor
      what is in the file. */
  predicate KeptInv(generation: nat, disk: Disk, lost: set<nat>) {
    && (forall g :: 0 < g <= generation ==> g in disk.tasks || g <= disk.newest || g in lost)
    && (forall g :: g in lost ==> 0 < g <= generation && g !in disk.tasks && g != disk.newest)
  }

  /** What is remembered of the map, in memory and on disk. */
  ghost predicate DataInv(core: Core, disk: Disk, h: History) {
    && MemInv(core, h) && LogInv(h) && DiskInv(disk.text, h)
    && GenInv(core.generation, disk.newest, h) && TaskInv(disk.tasks, h)
    && KeptInv(core.generation, disk, h.lost)
  }

  ghost predicate Inv(s: State) {
    && DataInv(s.core, s.disk, s.h)
    && FlushInv(s) && LockInv(s.threads, s.locks) && CacheInv(s.core, s.threads, s.locks)
    && ThreadInv(s.threads, s.disk, s.h)
  }

  /** A pooler that has just loaded its file, whatever is in it. */
  ghost predicate Init(s: State) {
    && (exists now: nat :: now < U64 && s.core.entries == Parse(s.disk.text, now))
    && s == State(Core(s.core.entries, 0, false, None), 0, map[], Locks(None, None),
                  Disk(s.disk.text, 0, map[]), History(s.core.entries, false, [], [], 0, {}))
  }

  lemma InitInv(s: State)
    requires Init(s)
    ensures Inv(s)
  {
    var now: nat :| now < U64 && s.core.entries == Parse(s.disk.text, now);
    ParseIsClean(s.disk.text, now);
  }

  // ---- every step keeps it ---------------------------------------------------------------

  lemma ReplayMore(init: Registry, log: seq<Mutation>, mu: Mutation)
    ensures Replay(init, log + [mu]) == Mutate(Replay(init, log), mu)
  {
    assert (log + [mu])[..|log|] == log;
  }

  /** What a mutation may bring in. */
  predicate Sound(m: Registry, mu: Mutation) {
    match mu
    case Bind(schema, rec) => Clean(schema) && Clean(rec.id) && rec.lastActive < U64
    case Bump(_, now) => now < U64
    case Retier(schema, _) => schema in m
  }

  lemma PrefixKept(log: seq<Mutation>, mu: Mutation)
    ensures forall k :: 0 <= k <= |log| ==> (log + [mu])[..k] == log[..k]
  {
  }

  lemma SoundKeepsWellFormed(m: Registry, mu: Mutation)
    requires WellFormed(m) && Sound(m, mu)
    ensures WellFormed(Mutate(m, mu))
  {
    hide Clean;
  }

  lemma ChangeKeepsData(core: Core, disk: Disk, h: History, mu: Mutation)
    requires DataInv(core, disk, h) && Sound(core.entries, mu)
    ensures DataInv(core.(entries := Mutate(core.entries, mu)), disk, Logged(h, mu))
  {
    hide Denotes, WellFormed, Mutate;
    SoundKeepsWellFormed(core.entries, mu);
    PrefixKept(h.log, mu);
    ReplayMore(h.init, h.log, mu);
    assert h.log[..|h.log|] == h.log;
  }

  lemma WrittenDenotes(m: Registry, order: seq<string>)
    requires WellFormed(m) && Enumerates(order, m)
    ensures Denotes(Written(m, order), m)
  {
    forall now ensures Parse(Written(m, order), now) == m {
      RoundTrip(m, order, now);
    }
  }

  lemma StampKeepsData(s: State, order: seq<string>)
    requires DataInv(s.core, s.disk, s.h) && Enumerates(order, s.core.entries)
    ensures
      var s' := Stamped(s, order);
      DataInv(s'.core, s'.disk, s'.h) && NewestMark(s'.h) == |s'.h.log|
  {
    hide Denotes, Written, WellFormed, Enumerates, Replay;
    EnumeratesOnly(order, s.core.entries);
    WrittenDenotes(s.core.entries, order);
    assert s.h.log[..|s.h.log|] == s.h.log;
  }

  lemma EnumeratesOnly(order: seq<string>, m: Registry)
    requires Enumerates(order, m)
    ensures forall k :: k in order ==> k in m
  {
  }

  lemma CacheIsNotData(core: Core, disk: Disk, h: History, cache: Option<set<string>>, dirty: bool)
    requires DataInv(core, disk, h)
    ensures DataInv(core.(cache := cache, dirty := dirty), disk, h)
  {
  }

  lemma LogKeepsThreads(threads: map<nat, Thread>, disk: Disk, h: History, mu: Mutation)
    requires ThreadInv(threads, disk, h)
    ensures ThreadInv(threads, disk, Logged(h, mu))
  {
    assert forall p :: 0 <= p < |h.log| ==> (h.log + [mu])[p] == h.log[p];
  }

  predicate NoneInserted(threads: map<nat, Thread>) { forall t :: t in threads ==> !threads[t].Inserted? }

  lemma StampKeepsThreads(s: State, order: seq<string>, threads: map<nat, Thread>)
    requires forall k :: k in order ==> k in s.core.entries
    requires ThreadInv(threads, s.disk, s.h) && NoneInserted(threads)
    ensures ThreadInv(threads, Stamped(s, order).disk, Stamped(s, order).h)
  {
    hide Written;
    var marks := s.h.marks + [|s.h.log|];
    assert forall p :: 0 <= p < |s.h.marks| ==> marks[p] == s.h.marks[p];
  }

  lemma RetierKeepsIds(m: Registry, mu: Mutation)
    requires !mu.Bind?
    ensures Ids(Mutate(m, mu)) == Ids(m)
  {
    var m' := Mutate(m, mu);
    assert forall k :: k in m <==> k in m';
    assert forall k :: k in m ==> m'[k].id == m[k].id;
  }

  lemma BumpKeeps(s: State, l: Label)
    requires Inv(s) && Enabled(s, l) && (l.PutBump? || l.Touch?)
    ensures Inv(Apply(s, l))
  {
    hide DataInv, ThreadInv, Clean, Ids, Mutate, LockInv;
    var mu := Bump(l.schema, l.now);
    ChangeKeepsData(s.core, s.disk, s.h, mu);
    CacheIsNotData(Changed(s, mu).core, s.disk, Logged(s.h, mu), s.core.cache, true);
    LogKeepsThreads(s.threads, s.disk, s.h, mu);
    RetierKeepsIds(s.core.entries, mu);
  }

  lemma AdoptedIsSound(m: Registry, schema: string, now: nat)
    requires WellFormed(m) && Clean(schema) && now < U64
    ensures Sound(m, Bind(schema, Adopted(m, schema, now)))
  {
    var id := ADOPTED_ID_PREFIX + schema;
    assert '\t' !in ADOPTED_ID_PREFIX && '\n' !in ADOPTED_ID_PREFIX;
    assert Clean(id);
    hide Clean;
  }

  lemma InsertKeeps(s: State, l: Label)
    requires Inv(s) && Enabled(s, l) && (l.PutBind? || l.Adopt?)
    ensures Inv(Apply(s, l))
  {
    hide LogInv, DiskInv, GenInv, TaskInv, Replay, WellFormed, Clean, Ids, Adopted, ThreadOk, Mutate;
    var rec := if l.PutBind? then Rec(l.id, l.now, Live) else Adopted(s.core.entries, l.schema, l.now);
    var mu := Bind(l.schema, rec);
    if l.Adopt? {
      AdoptedIsSound(s.core.entries, l.schema, l.now);
    }
    ChangeKeepsData(s.core, s.disk, s.h, mu);
    assert GenInv(|s.h.marks|, s.disk.newest, s.h) && s.h.durable <= |s.h.log| by { GenFacts(s.core, s.disk, s.h); }
    hide DataInv;
    LogKeepsThreads(s.threads, s.disk, s.h, mu);
    FreshIsOk(s.disk, s.h, l.Adopt?, mu);
  }

  lemma FreshIsOk(disk: Disk, h: History, awaits: bool, mu: Mutation)
    requires GenInv(|h.marks|, disk.newest, h) && h.durable <= |h.log|
    ensures ThreadOk(Inserted(awaits, |h.log|, mu), disk, Logged(h, mu))
  {
  }

  /** The thread that stamped the newest snapshot waits for it. */
  lemma StampedIsOk(s: State, order: seq<string>, at: nat, what: Mutation)
    requires forall k :: k in order ==> k in s.core.entries
    requires |s.h.marks| == s.core.generation && ThreadOk(Inserted(true, at, what), s.disk, s.h)
    ensures ThreadOk(Awaiting(s.core.generation + 1, at, what), Stamped(s, order).disk, Stamped(s, order).h)
  {
    hide Written;
  }

  lemma GenFacts(core: Core, disk: Disk, h: History)
    requires DataInv(core, disk, h)
    ensures |h.marks| == core.generation && GenInv(|h.marks|, disk.newest, h) && h.durable <= |h.log|
  {
  }

  /** Only the holder of the map is between its change and its snapshot. */
  lemma MapHolder(s: State, t: nat)
    requires LockInv(s.threads, s.locks) && t in s.threads && s.threads[t].Inserted?
    ensures NoneInserted(WithoutThread(s, t).threads) && s.locks.map_ == Some(t)
  {
  }

  lemma FreeMapHasNone(s: State)
    requires LockInv(s.threads, s.locks) && s.locks.map_.None?
    ensures NoneInserted(s.threads)
  {
  }

  /** The map's holder drops the cache and lets the map go, about to stamp. */
  function LetGo(s: State): State { s.(core := s.core.(cache := None), locks := s.locks.(map_ := None)) }

  lemma InvalidateStamps(s: State, l: Label)
    requires Inv(s) && Enabled(s, l) && l.Invalidate?
    ensures forall k :: k in l.order ==> k in s.core.entries
    ensures
      var th, s1 := s.threads[l.thread], Stamped(LetGo(s), l.order);
      && DataInv(s1.core, s1.disk, s1.h) && NewestMark(s1.h) == |s1.h.log|
      && ThreadInv(WithoutThread(s, l.thread).threads, s1.disk, s1.h)
      && ThreadOk(Awaiting(s1.core.generation, th.at, th.what), s1.disk, s1.h)
  {
    var t, s0 := l.thread, LetGo(s);
    var th := s.threads[t];
    EnumeratesOnly(l.order, s.core.entries);
    MapHolder(s, t);
    GenFacts(s.core, s.disk, s.h);
    assert ThreadOk(th, s.disk, s.h);
    assert ThreadOk(Inserted(true, th.at, th.what), s0.disk, s0.h);
    hide DataInv, Enumerates, Written, Ids, NoneInserted, GenInv, LockInv, CacheInv;
    StampedIsOk(s0, l.order, th.at, th.what);
    hide ThreadOk;
    CacheIsNotData(s.core, s.disk, s.h, None, s.core.dirty);
    StampKeepsData(s0, l.order);
    StampKeepsThreads(s0, l.order, WithoutThread(s, t).threads);
  }

  lemma InvalidateLocks(s: State, l: Label)
    requires LockInv(s.threads, s.locks) && CacheInv(s.core, s.threads, s.locks) && Enabled(s, l) && l.Invalidate?
    ensures LockInv(Apply(s, l).threads, Apply(s, l).locks)
    ensures CacheInv(Apply(s, l).core, Apply(s, l).threads, Apply(s, l).locks)
  {
    hide Enumerates, Written, Ids;
  }

  lemma InvalidateKeeps(s: State, l: Label)
    requires Inv(s) && Enabled(s, l) && l.Invalidate?
    ensures Inv(Apply(s, l))
  {
    InvalidateStamps(s, l);
    InvalidateLocks(s, l);
    hide DataInv, Enumerates, Written, Ids, ThreadOk, LockInv, CacheInv;
  }

  lemma SetTierStamps(s: State, l: Label)
    requires Inv(s) && Enabled(s, l) && l.SetTier?
    ensures forall k :: k in l.order ==> k in Mutate(s.core.entries, Retier(l.schema, l.tier))
    ensures
      var mu := Retier(l.schema, l.tier);
      var s1 := Stamped(Changed(s, mu), l.order);
      && DataInv(s1.core, s1.disk, s1.h) && NewestMark(s1.h) == |s1.h.log| && ThreadInv(s.threads, s1.disk, s1.h)
      && ThreadOk(Awaiting(s1.core.generation, |s.h.log|, mu), s1.disk, s1.h)
  {
    var mu := Retier(l.schema, l.tier);
    var s0 := Changed(s, mu);
    EnumeratesOnly(l.order, s0.core.entries);
    GenFacts(s.core, s.disk, s.h);
    FreeMapHasNone(s);
    hide Enumerates, Written, Ids, ThreadOk, Mutate, NoneInserted, DataInv, LockInv, CacheInv;
    FreshIsOk(s.disk, s.h, true, mu);
    hide GenInv;
    StampedIsOk(s0, l.order, |s.h.log|, mu);
    ChangeKeepsData(s.core, s.disk, s.h, mu);
    StampKeepsData(s0, l.order);
    LogKeepsThreads(s.threads, s.disk, s.h, mu);
    StampKeepsThreads(s0, l.order, s.threads);
  }

  lemma SetTierLocks(s: State, l: Label)
    requires LockInv(s.threads, s.locks) && CacheInv(s.core, s.threads, s.locks) && Enabled(s, l) && l.SetTier?
    ensures LockInv(Apply(s, l).threads, Apply(s, l).locks)
    ensures CacheInv(Apply(s, l).core, Apply(s, l).threads, Apply(s, l).locks)
  {
    RetierKeepsIds(s.core.entries, Retier(l.schema, l.tier));
    hide Enumerates, Written, Ids, Mutate;
  }

  lemma SetTierKeeps(s: State, l: Label)
    requires Inv(s) && Enabled(s, l) && l.SetTier?
    ensures Inv(Apply(s, l))
  {
    SetTierStamps(s, l);
    SetTierLocks(s, l);
    hide DataInv, Enumerates, Written, Ids, ThreadOk, LockInv, CacheInv, Mutate;
  }

  lemma FlushKeeps(s: State, l: Label)
    requires Inv(s) && Enabled(s, l) && (l.FlushSwap? || l.FlushSnapshot?)
    ensures Inv(Apply(s, l))
  {
    hide DataInv, Enumerates, Written, Ids, ThreadInv;
    CacheIsNotData(s.core, s.disk, s.h, s.core.cache, false);
    if l.FlushSnapshot? {
      EnumeratesOnly(l.order, s.core.entries);
      var s0 := s.(flushing := s.flushing - 1);
      StampKeepsData(s0, l.order);
      FreeMapHasNone(s);
      StampKeepsThreads(s0, l.order, s.threads);
    }
  }

  lemma BoundLocks(s: State, l: Label)
    requires LockInv(s.threads, s.locks) && CacheInv(s.core, s.threads, s.locks) && Enabled(s, l)
    requires l.BoundMiss? || l.BoundCollect? || l.BoundStore?
    ensures LockInv(Apply(s, l).threads, Apply(s, l).locks)
    ensures CacheInv(Apply(s, l).core, Apply(s, l).threads, Apply(s, l).locks)
  {
    hide Ids;
  }

  lemma BoundKeeps(s: State, l: Label)
    requires Inv(s) && Enabled(s, l) && (l.BoundMiss? || l.BoundCollect? || l.BoundStore?)
    ensures Inv(Apply(s, l))
  {
    if l.BoundStore? {
      CacheIsNotData(s.core, s.disk, s.h, Some(s.threads[l.thread].ids), s.core.dirty);
    }
    BoundLocks(s, l);
    OthersOk(s.disk, s.h);
    hide DataInv, Ids, ThreadOk, LockInv, CacheInv;
  }

  lemma OthersOk(disk: Disk, h: History)
    ensures ThreadOk(NeedsMap, disk, h) && forall ids :: ThreadOk(Collected(ids), disk, h)
  {
  }

  lemma WriteKeepsData(s: State, l: Label)
    requires DataInv(s.core, s.disk, s.h) && Enabled(s, l) && (l.WriteSkip? || l.WriteDone? || l.WriteFail?)
    ensures DataInv(Apply(s, l).core, Apply(s, l).disk, Apply(s, l).h)
  {
    hide Replay, Denotes, WellFormed, Mutate, Parse, LockInv, CacheInv, ThreadInv;
    if l.WriteDone? {
      WriteDoneKeepsData(s, l.generation);
    }
  }

  lemma WriteDoneKeepsData(s: State, g: nat)
    requires DataInv(s.core, s.disk, s.h) && Enabled(s, WriteDone(g))
    ensures
      var s' := Apply(s, WriteDone(g));
      DataInv(s'.core, s'.disk, s'.h)
  {
    hide Replay, Denotes, WellFormed, Mutate, Parse;
  }

  lemma WriteKeeps(s: State, l: Label)
    requires Inv(s) && Enabled(s, l) && (l.WriteSkip? || l.WriteDone? || l.WriteFail?)
    ensures Inv(Apply(s, l))
  {
    hide Ids, LockInv, MemInv, LogInv, DiskInv, TaskInv;
    WriteKeepsData(s, l);
  }

  lemma ReturnKeeps(s: State, l: Label)
    requires Inv(s) && Enabled(s, l) && l.Return?
    ensures Inv(Apply(s, l))
  {
    hide DataInv, Ids, ThreadOk;
  }

  lemma CrashKeepsData(s: State, l: Label)
    requires DataInv(s.core, s.disk, s.h) && Enabled(s, l) && l.Crash?
    ensures DataInv(Apply(s, l).core, Apply(s, l).disk, Apply(s, l).h)
  {
    hide WellFormed, Mutate;
    ParseIsClean(s.disk.text, l.now);
    var log := s.h.log[..s.h.durable];
    assert forall k :: 0 <= k <= |log| ==> log[..k] == s.h.log[..k];
    assert log[..s.h.durable] == log;
  }

  lemma CrashKeeps(s: State, l: Label)
    requires Inv(s) && Enabled(s, l) && l.Crash?
    ensures Inv(Apply(s, l))
  {
    hide MemInv, LogInv, GenInv, TaskInv;
    CrashKeepsData(s, l);
  }

  lemma Keeps(s: State, l: Label)
    requires Inv(s) && Enabled(s, l)
    ensures Inv(Apply(s, l))
  {
    hide Inv, Enabled, Apply;
    match l
    case PutBump(_, _, _) => BumpKeeps(s, l);
    case Touch(_, _) => BumpKeeps(s, l);
    case PutBind(_, _, _, _) => InsertKeeps(s, l);
    case Adopt(_, _, _) => InsertKeeps(s, l);
    case Invalidate(_, _) => InvalidateKeeps(s, l);
    case SetTier(_, _, _, _) => SetTierKeeps(s, l);
    case FlushSwap => FlushKeeps(s, l);
    case FlushSnapshot(_) => FlushKeeps(s, l);
    case BoundMiss(_) => BoundKeeps(s, l);
    case BoundCollect(_) => BoundKeeps(s, l);
    case BoundStore(_) => BoundKeeps(s, l);
    case WriteSkip(_) => WriteKeeps(s, l);
    case WriteDone(_) => WriteKeeps(s, l);
    case WriteFail(_) => WriteKeeps(s, l);
    case Return(_) => ReturnKeeps(s, l);
    case Crash(_) => CrashKeeps(s, l);
  }

  // ---- runs ---------------------------------------------------------------------------------

  ghost predicate IsRun(trace: seq<State>, labels: seq<Label>) {
    && |trace| == |labels| + 1
    && Init(trace[0])
    && forall i :: 0 <= i < |labels| ==> Enabled(trace[i], labels[i]) && trace[i + 1] == Apply(trace[i], labels[i])
  }

  lemma {:induction false} RunKeeps(trace: seq<State>, labels: seq<Label>, i: nat)
    requires IsRun(trace, labels) && i < |trace|
    ensures Inv(trace[i])
  {
    hide Inv, Enabled, Apply, Init;
    if i > 0 {
      RunKeeps(trace, labels, i - 1);
      Keeps(trace[i - 1], labels[i - 1]);
    } else {
      InitInv(trace[0]);
    }
  }

  // ---- the file is always a real past state ----------------------------------------------------

  /** The map went through every prefix of the log during the run. */
  ghost predicate Seen(trace: seq<State>, i: nat, h: History) {
    forall k :: 0 <= k <= |h.log| ==>
      exists j: nat :: j <= i < |trace| && trace[j].h.init == h.init && trace[j].h.log == h.log[..k]
  }

  /** One step leaves the log as it was, adds to it, or drops its end. */
  lemma StepLog(s: State, l: Label)
    requires Inv(s) && Enabled(s, l)
    ensures
      var h, h' := s.h, Apply(s, l).h;
      || (h'.init == h.init && h'.log == h.log)
      || (h'.init == h.init && exists mu :: h'.log == h.log + [mu])
      || (h'.init == h.init && h'.log == h.log[..h.durable])
      || h'.log == []
  {
    hide MemInv, LogInv, GenInv, TaskInv, Parse, Written, Mutate, Denotes, ThreadInv, LockInv, CacheInv;
    hide Ids, Adopted, Enumerates, Clean;
  }

  lemma {:induction false} PrefixesSeen(trace: seq<State>, labels: seq<Label>, i: nat)
    requires IsRun(trace, labels) && i < |trace|
    ensures Seen(trace, i, trace[i].h)
  {
    hide Inv, Enabled, Apply, Init;
    var h' := trace[i].h;
    if i == 0 {
      assert h'.log == [] by { InitLog(trace[0]); }
    } else {
      PrefixesSeen(trace, labels, i - 1);
      RunKeeps(trace, labels, i - 1);
      StepLog(trace[i - 1], labels[i - 1]);
      var h := trace[i - 1].h;
      assert trace[i].h.durable <= |trace[i].h.log| && h.durable <= |h.log| by {
        RunKeeps(trace, labels, i);
        InvDurable(trace[i]);
        InvDurable(trace[i - 1]);
      }
    }
    forall k | 0 <= k <= |h'.log|
      ensures exists j: nat :: j <= i < |trace| && trace[j].h.init == h'.init && trace[j].h.log == h'.log[..k]
    {
      if k == |h'.log| {
        assert trace[i].h.log == h'.log[..k];
      } else {
        var h := trace[i - 1].h;
        assert h'.log[..k] == h.log[..k];
        var j: nat :| j <= i - 1 && trace[j].h.init == h.init && trace[j].h.log == h.log[..k];
      }
    }
  }

  lemma InitLog(s: State)
    requires Init(s)
    ensures s.h.log == []
  {
  }

  lemma InvDurable(s: State)
    requires Inv(s)
    ensures s.h.durable <= |s.h.log|
    ensures s.h.rewritten ==> Denotes(s.disk.text, Replay(s.h.init, s.h.log[..s.h.durable]))
  {
  }

  /** In whatever order write tasks finish, and across crashes, loading the file
      gives the map as it stood at some earlier moment of the run: until the file
      is first written, whatever the pooler found in it. */
  lemma FileIsAPastState(trace: seq<State>, labels: seq<Label>, n: nat, now: nat)
    requires IsRun(trace, labels) && n < |trace|
    ensures
      || (!trace[n].h.rewritten && trace[n].disk.text == trace[0].disk.text)
      || exists j: nat :: j <= n && Parse(trace[n].disk.text, now) == trace[j].core.entries
  {
    hide Enabled, Apply, Init;
    RunKeeps(trace, labels, n);
    var h := trace[n].h;
    if h.rewritten {
      PrefixesSeen(trace, labels, n);
      var j: nat :| j <= n && trace[j].h.init == h.init && trace[j].h.log == h.log[..h.durable];
      RunKeeps(trace, labels, j);
      assert Parse(trace[n].disk.text, now) == trace[j].core.entries;
    } else {
      Untouched(trace, labels, n);
    }
  }

  lemma {:induction false} Untouched(trace: seq<State>, labels: seq<Label>, n: nat)
    requires IsRun(trace, labels) && n < |trace| && !trace[n].h.rewritten
    ensures trace[n].disk.text == trace[0].disk.text
  {
    hide Enabled, Apply, Init;
    if n > 0 {
      UntouchedStep(trace[n - 1], labels[n - 1]);
      Untouched(trace, labels, n - 1);
    }
  }

  lemma UntouchedStep(s: State, l: Label)
    requires Enabled(s, l) && !Apply(s, l).h.rewritten
    ensures !s.h.rewritten && Apply(s, l).disk.text == s.disk.text
  {
    hide Parse, Written, Mutate, Ids, Adopted, Enumerates, Clean;
  }

  /** What the file holds only grows: a step never takes a change out of it, and
      within one process the generation on disk never goes back. */
  lemma StepNeverRollsBack(s: State, l: Label)
    requires Inv(s) && Enabled(s, l)
    ensures
      var s' := Apply(s, l);
      && s.h.durable <= s'.h.durable
      && s'.h.log[..s.h.durable] == s.h.log[..s.h.durable]
      && (!l.Crash? ==> s.disk.newest <= s'.disk.newest)
      && (s.h.rewritten ==> s'.h.rewritten && s'.h.init == s.h.init)
  {
    hide Parse, Written, Mutate, Ids, Adopted, Enumerates, Clean, MemInv, LogInv, TaskInv, ThreadInv, LockInv, CacheInv;
    hide Denotes;
  }

  /** Over whole runs, crashes included: of two moments, the earlier file, once it has been
      written, is the map after some of the changes that the later file is the map after,
      from the same start; and within one process the generation never goes back. */
  lemma {:induction false} FileNeverRollsBack(trace: seq<State>, labels: seq<Label>, i: nat, j: nat)
    requires IsRun(trace, labels) && i <= j < |trace|
    ensures trace[i].h.durable <= trace[j].h.durable <= |trace[j].h.log|
    ensures i <= |trace| && trace[i].h.durable <= |trace[i].h.log|
    ensures trace[j].h.log[..trace[i].h.durable] == trace[i].h.log[..trace[i].h.durable]
    ensures (forall k :: i <= k < j ==> !labels[k].Crash?) ==> trace[i].disk.newest <= trace[j].disk.newest
    ensures
      trace[i].h.rewritten ==>
        && trace[j].h.rewritten && trace[j].h.init == trace[i].h.init
        && Denotes(trace[i].disk.text, Replay(trace[j].h.init, trace[j].h.log[..trace[i].h.durable]))
        && Denotes(trace[j].disk.text, Replay(trace[j].h.init, trace[j].h.log[..trace[j].h.durable]))
  {
    hide Inv, Enabled, Apply, Init, Denotes, Replay;
    RunKeeps(trace, labels, j);
    InvDurable(trace[j]);
    RunKeeps(trace, labels, i);
    InvDurable(trace[i]);
    if i < j {
      FileNeverRollsBack(trace, labels, i, j - 1);
      RunKeeps(trace, labels, j - 1);
      StepNeverRollsBack(trace[j - 1], labels[j - 1]);
      var d := trace[i].h.durable;
      assert trace[j].h.log[..d] == trace[j].h.log[..trace[j - 1].h.durable][..d];
      assert trace[j - 1].h.log[..d] == trace[j - 1].h.log[..trace[j - 1].h.durable][..d];
    }
  }

  // ---- no bump is lost -----------------------------------------------------------------------------

  /** When nothing is dirty, no flush is between its swap and its snapshot and the
      map is free, the newest snapshot holds every change made to the map. It is in its
      write task or in the file, the one or the other carrying exactly the map, if and
      only if its own write has not failed. */
  lemma NoBumpIsLost(trace: seq<State>, labels: seq<Label>, n: nat, now: nat)
    requires IsRun(trace, labels) && n < |trace|
    requires !trace[n].core.dirty && trace[n].flushing == 0 && trace[n].locks.map_.None?
    ensures
      var s := trace[n];
      var g := s.core.generation;
      && (g == 0 || g in s.disk.tasks || s.disk.newest == g <==> g !in s.h.lost)
      && (g in s.disk.tasks ==> Parse(s.disk.tasks[g], now) == s.core.entries)
      && (s.disk.newest == g && s.h.rewritten ==> Parse(s.disk.text, now) == s.core.entries)
      && (s.disk.newest == g && !s.h.rewritten ==> s.h.log == [] && s.core.entries == s.h.init)
  {
    hide LogInv, LockInv, CacheInv, ThreadInv, Parse, Mutate, WellFormed;
    RunKeeps(trace, labels, n);
    var s := trace[n];
    assert s.h.log[..|s.h.log|] == s.h.log;
  }

  // ---- a returned change is durable -------------------------------------------------------------------

  predicate SetsTier(mu: Mutation, schema: string) {
    mu.schema == schema && !mu.Bump?
  }

  function TierSet(mu: Mutation): Tier
    requires !mu.Bump?
  {
    if mu.Bind? then mu.rec.tier else mu.tier
  }

  /** The tier a schema ends up with is the one the last change of it set. */
  lemma {:induction false} LastTier(init: Registry, log: seq<Mutation>, p: nat) returns (q: nat)
    requires p < |log| && !log[p].Bump?
    requires log[p].Retier? ==> log[p].schema in Replay(init, log[..p])
    ensures p <= q < |log| && SetsTier(log[q], log[p].schema)
    ensures log[p].schema in Replay(init, log) && Replay(init, log)[log[p].schema].tier == TierSet(log[q])
  {
    var n := |log| - 1;
    var schema := log[p].schema;
    if p == n {
      q := p;
    } else {
      assert log[..n][..p] == log[..p];
      q := LastTier(init, log[..n], p);
      if SetsTier(log[n], schema) {
        q := n;
      }
    }
  }

  /** The change a thread waits for is in the file exactly when its own snapshot, or a
      newer one, is. */
  lemma InFileExactly(s: State, t: nat)
    requires Inv(s) && t in s.threads && s.threads[t].Awaiting?
    ensures
      var th := s.threads[t];
      && th.at < |s.h.log| && s.h.log[th.at] == th.what
      && (th.at < s.h.durable <==> th.generation <= s.disk.newest)
  {
    hide MemInv, LogInv, DiskInv, TaskInv, KeptInv, LockInv, CacheInv;
    assert ThreadOk(s.threads[t], s.disk, s.h);
  }

  /** The change made at `at` is among those the file holds. */
  predicate Durable(s: State, at: nat, what: Mutation) {
    at < s.h.durable <= |s.h.log| && s.h.log[at] == what
  }

  /** When `set_tier` or `adopt_archived` returns, its change is in the file then and ever
      after, over every crash, if and only if the snapshot it made or a newer one has
      been written: whatever writes have failed, and also when the caller's own write
      was skipped or has failed. */
  lemma ReturnIsDurableExactly(trace: seq<State>, labels: seq<Label>, i: nat)
    requires IsRun(trace, labels) && i < |labels| && labels[i].Return?
    ensures labels[i].thread in trace[i].threads && trace[i].threads[labels[i].thread].Awaiting?
    ensures
      var th := trace[i].threads[labels[i].thread];
      (forall n :: i <= n < |trace| ==> Durable(trace[n], th.at, th.what)) <==> th.generation <= trace[i].disk.newest
  {
    assert Enabled(trace[i], labels[i]);
    hide Enabled, Apply, Init, Inv, Durable;
    var th := trace[i].threads[labels[i].thread];
    RunKeeps(trace, labels, i);
    InFileExactly(trace[i], labels[i].thread);
    if th.generation <= trace[i].disk.newest {
      forall n | i <= n < |trace| ensures Durable(trace[n], th.at, th.what) {
        StaysDurable(trace, labels, i, n, th.at, th.what);
      }
    } else {
      assert !Durable(trace[i], th.at, th.what) by { NotYet(trace[i], th.at, th.what); }
    }
  }

  lemma NotYet(s: State, at: nat, what: Mutation)
    requires at >= s.h.durable
    ensures !Durable(s, at, what)
  {
  }

  lemma StaysDurable(trace: seq<State>, labels: seq<Label>, i: nat, n: nat, at: nat, what: Mutation)
    requires IsRun(trace, labels) && i <= n < |trace|
    requires at < trace[i].h.durable && at < |trace[i].h.log| && trace[i].h.log[at] == what
    ensures Durable(trace[n], at, what)
  {
    hide Enabled, Apply, Init, Inv, Denotes, Replay;
    FileNeverRollsBack(trace, labels, i, n);
    var d := trace[i].h.durable;
    assert trace[n].h.log[..d][at] == trace[i].h.log[..d][at];
  }

  /** If the write of its own snapshot has not failed, that is so. */
  lemma ReturnWithoutFailure(trace: seq<State>, labels: seq<Label>, i: nat)
    requires IsRun(trace, labels) && i < |labels| && labels[i].Return?
    ensures labels[i].thread in trace[i].threads && trace[i].threads[labels[i].thread].Awaiting?
    ensures
      var th := trace[i].threads[labels[i].thread];
      th.generation !in trace[i].h.lost ==> th.generation <= trace[i].disk.newest
  {
    assert Enabled(trace[i], labels[i]);
    hide Enabled, Apply, Init, DataInv, LockInv, CacheInv;
    RunKeeps(trace, labels, i);
    assert ThreadOk(trace[i].threads[labels[i].thread], trace[i].disk, trace[i].h);
  }

  /** A durable change of a tier: the file gives the schema that tier or one that a later
      change of the same schema set, and so after every later crash. */
  lemma DurableTier(s: State, p: nat, mu: Mutation, now: nat) returns (q: nat)
    requires Inv(s) && Durable(s, p, mu) && !mu.Bump?
    ensures
      var h, file := s.h, Parse(s.disk.text, now);
      && p <= q < h.durable <= |h.log| && SetsTier(h.log[q], mu.schema)
      && mu.schema in file && file[mu.schema].tier == TierSet(h.log[q])
  {
    hide Parse, Mutate, WellFormed, LockInv, CacheInv, ThreadInv, TaskInv, KeptInv;
    var h := s.h;
    var log := h.log[..h.durable];
    assert log[..p] == h.log[..p];
    q := LastTier(h.init, log, p);
  }

  /** Once `set_tier` or `adopt_archived` has returned with its snapshot or a newer one
      written, the file gives the schema that tier or a later one at every later moment,
      and so after every later crash. */
  lemma ReturnedTierIsDurable(trace: seq<State>, labels: seq<Label>, i: nat, n: nat, now: nat) returns (q: nat)
    requires IsRun(trace, labels) && i < |labels| && labels[i].Return? && i <= n < |trace|
    requires
      && labels[i].thread in trace[i].threads && trace[i].threads[labels[i].thread].Awaiting?
      && var th := trace[i].threads[labels[i].thread];
         th.generation <= trace[i].disk.newest && !th.what.Bump?
    ensures
      var th, h, file := trace[i].threads[labels[i].thread], trace[n].h, Parse(trace[n].disk.text, now);
      && th.at <= q < h.durable <= |h.log| && h.log[th.at] == th.what && SetsTier(h.log[q], th.what.schema)
      && th.what.schema in file && file[th.what.schema].tier == TierSet(h.log[q])
  {
    hide Enabled, Apply, Init, Inv, Parse, SetsTier;
    var th := trace[i].threads[labels[i].thread];
    RunKeeps(trace, labels, i);
    InFileExactly(trace[i], labels[i].thread);
    StaysDurable(trace, labels, i, n, th.at, th.what);
    RunKeeps(trace, labels, n);
    q := DurableTier(trace[n], th.at, th.what, now);
  }

  /** A write that fails is only logged: the caller is told all the same, and the file
      still holds what it held. */
  lemma FailedWriteIsNotDurable(s: State, schema: string, tier: Tier, order: seq<string>)
    returns (trace: seq<State>, labels: seq<Label>)
    requires Init(s) && schema in s.core.entries && Enumerates(order, s.core.entries)
    ensures IsRun(trace, labels) && trace[0] == s && |labels| == 3
    ensures 0 in trace[2].threads && trace[2].threads[0] == Awaiting(1, 0, Retier(schema, tier))
    ensures labels[2] == Return(0)
    ensures trace[3].disk.text == s.disk.text && !Durable(trace[3], 0, Retier(schema, tier))
  {
    hide Parse, Written;
    labels := [SetTier(0, schema, tier, order), WriteFail(1), Return(0)];
    assert forall k :: k in Mutate(s.core.entries, Retier(schema, tier)) <==> k in s.core.entries;
    hide Mutate;
    var s1 := Apply(s, labels[0]);
    assert Enabled(s, labels[0]) && s1.threads == s.threads[0 := Awaiting(1, 0, Retier(schema, tier))];
    var s2 := Apply(s1, labels[1]);
    assert Enabled(s1, labels[1]) && s2.threads == s1.threads && s2.disk.text == s.disk.text;
    trace := [s, s1, s2, Apply(s2, labels[2])];
  }

  /** The tiers a schema has been given, in order: what its record started with, then
      each change of it. */
  function TiersGiven(init: Registry, log: seq<Mutation>, schema: string): seq<Tier> {
    if log == [] then (if schema in init then [init[schema].tier] else [])
    else
      var n := |log| - 1;
      TiersGiven(init, log[..n], schema) + if SetsTier(log[n], schema) then [TierSet(log[n])] else []
  }

  ghost predicate RetiersKnown(init: Registry, log: seq<Mutation>) {
    forall p :: 0 <= p < |log| && log[p].Retier? ==> log[p].schema in Replay(init, log[..p])
  }

  lemma {:induction false} LastGiven(init: Registry, log: seq<Mutation>, schema: string)
    requires RetiersKnown(init, log)
    ensures
      var given := TiersGiven(init, log, schema);
      && (schema in Replay(init, log) <==> given != [])
      && (given != [] ==> Replay(init, log)[schema].tier == given[|given| - 1])
  {
    if log != [] {
      var n := |log| - 1;
      assert log[n].Retier? ==> log[n].schema in Replay(init, log[..n]);
      KnownPrefix(init, log, n);
      hide Mutate, Replay, SetsTier, RetiersKnown;
      LastGiven(init, log[..n], schema);
      ReplayMore(init, log[..n], log[n]);
      assert log == log[..n] + [log[n]];
      GivenStep(Replay(init, log[..n]), log[n], TiersGiven(init, log[..n], schema), schema);
    }
  }

  lemma KnownPrefix(init: Registry, log: seq<Mutation>, n: nat)
    requires n <= |log| && RetiersKnown(init, log)
    ensures RetiersKnown(init, log[..n])
  {
    hide Replay;
    assert forall p :: 0 <= p < n ==> log[..n][p] == log[p] && log[..n][..p] == log[..p];
  }

  lemma GivenStep(m: Registry, mu: Mutation, given: seq<Tier>, schema: string)
    requires mu.Retier? ==> mu.schema in m
    requires (schema in m <==> given != []) && (given != [] ==> m[schema].tier == given[|given| - 1])
    ensures
      var m', given' := Mutate(m, mu), given + if SetsTier(mu, schema) then [TierSet(mu)] else [];
      (schema in m' <==> given' != []) && (given' != [] ==> m'[schema].tier == given'[|given'| - 1])
  {
  }

  lemma {:induction false} GivenPrefix(init: Registry, log: seq<Mutation>, k: nat, schema: string)
    requires k <= |log|
    ensures TiersGiven(init, log[..k], schema) <= TiersGiven(init, log, schema)
  {
    if k == |log| {
      assert log[..k] == log;
    } else {
      var n := |log| - 1;
      GivenPrefix(init, log[..n], k, schema);
      assert log[..n][..k] == log[..k];
    }
  }

  /** The tier of a schema, as the storage ladder may rely on it: once the file has been
      written it gives the schema a tier out of the list of those given, the last of a
      prefix that only grows, and a returned change is in that prefix. */
  lemma FileTierIsAGivenOne(trace: seq<State>, labels: seq<Label>, n: nat, schema: string, now: nat)
    requires IsRun(trace, labels) && n < |trace| && trace[n].h.rewritten
    ensures trace[n].h.durable <= |trace[n].h.log|
    ensures
      var h, file := trace[n].h, Parse(trace[n].disk.text, now);
      var landed := TiersGiven(h.init, h.log[..h.durable], schema);
      && landed <= TiersGiven(h.init, h.log, schema)
      && (schema in file <==> landed != [])
      && (schema in file ==> file[schema].tier == landed[|landed| - 1])
  {
    hide Enabled, Apply, Parse, Mutate, WellFormed, LockInv, CacheInv, ThreadInv, TaskInv, TiersGiven;
    RunKeeps(trace, labels, n);
    var h := trace[n].h;
    KnownPrefix(h.init, h.log, h.durable);
    LastGiven(h.init, h.log[..h.durable], schema);
    GivenPrefix(h.init, h.log, h.durable, schema);
  }

  // ---- the id cache ----------------------------------------------------------------------------------

  /** Whenever the map is free the cached id set is absent or exact, and so is the
      set a `bound_ids` call is about to store and return. */
  lemma CacheIsCoherent(trace: seq<State>, labels: seq<Label>, n: nat)
    requires IsRun(trace, labels) && n < |trace| && trace[n].locks.map_.None?
    ensures trace[n].core.cache.Some? ==> trace[n].core.cache.value == Ids(trace[n].core.entries)
    ensures forall t :: t in trace[n].threads && trace[n].threads[t].Collected? ==>
      trace[n].threads[t].ids == Ids(trace[n].core.entries)
  {
    hide Enabled, Apply, Init, DataInv, Ids;
    RunKeeps(trace, labels, n);
  }

  /** And a `bound_ids` that missed leaves them behind for the next one. */
  lemma BoundIdsAreCached(trace: seq<State>, labels: seq<Label>, n: nat, id: string)
    requires IsRun(trace, labels) && n < |labels| && labels[n].BoundStore? && trace[n].locks.map_.None?
    ensures trace[n + 1].core.cache.Some?
    ensures
      id in trace[n + 1].core.cache.value <==>
        exists k :: k in trace[n].core.entries && trace[n].core.entries[k].id == id
  {
    hide Init, DataInv;
    RunKeeps(trace, labels, n);
    assert Enabled(trace[n], labels[n]) && trace[n + 1] == Apply(trace[n], labels[n]);
  }

  /** A `bound_ids` that missed gets there in two steps once the map is free. */
  lemma BoundIdsGetThere(s: State, t: nat) returns (s': State)
    requires t in s.threads && s.threads[t] == NeedsMap && s.locks.map_.None?
    ensures Enabled(s, BoundCollect(t)) && Enabled(Apply(s, BoundCollect(t)), BoundStore(t))
    ensures s' == Apply(Apply(s, BoundCollect(t)), BoundStore(t))
    ensures s'.core == s.core.(cache := Some(Ids(s.core.entries))) && t !in s'.threads && s'.locks.cache.None?
  {
    hide Ids;
    s' := Apply(Apply(s, BoundCollect(t)), BoundStore(t));
  }

  // ---- and progress does not hold -----------------------------------------------------------------

  /** `put` holds the map and wants the cache, `bound_ids` holds the cache and wants the map. */
  predicate Deadlocked(s: State, a: nat, b: nat) {
    && a in s.threads && s.threads[a].Inserted? && s.locks.map_ == Some(a)
    && b in s.threads && s.threads[b].NeedsMap? && s.locks.cache == Some(b)
  }

  predicate IsWrite(l: Label) { l.WriteSkip? || l.WriteDone? || l.WriteFail? }

  /** Nothing but write tasks, returns and flush swaps can move such a state, and
      none of them resolves it: only a restart does. */
  lemma DeadlockStays(s: State, l: Label, a: nat, b: nat)
    requires Inv(s) && Enabled(s, l) && Deadlocked(s, a, b)
    ensures l.Crash? || ((IsWrite(l) || l.Return? || l.FlushSwap?) && Deadlocked(Apply(s, l), a, b))
  {
    hide Parse, Written, Mutate, Ids, Adopted, Enumerates, Clean, DataInv, CacheInv, ThreadInv;
  }

  lemma {:induction false} DeadlockIsForever(trace: seq<State>, labels: seq<Label>, i: nat, n: nat, a: nat, b: nat)
    requires IsRun(trace, labels) && i <= n < |trace| && Deadlocked(trace[i], a, b)
    requires forall k :: i <= k < n ==> !labels[k].Crash?
    ensures Deadlocked(trace[n], a, b)
  {
    hide Inv, Enabled, Apply, Init, Deadlocked;
    if i < n {
      DeadlockIsForever(trace, labels, i, n - 1, a, b);
      RunKeeps(trace, labels, n - 1);
      DeadlockStays(trace[n - 1], labels[n - 1], a, b);
    }
  }

  /** A step by which a holder of one of the two locks gets on. */
  predicate GetsOn(l: Label) { l.Invalidate? || l.BoundCollect? || l.BoundStore? }

  /** Every map can be iterated. */
  lemma {:induction false} HasOrder(m: Registry, keys: set<string>) returns (order: seq<string>)
    requires keys <= m.Keys
    ensures forall k :: k in order <==> k in keys
    ensures forall i, j :: 0 <= i < j < |order| ==> order[i] != order[j]
    decreases keys
  {
    if keys == {} {
      order := [];
    } else {
      var k :| k in keys;
      order := HasOrder(m, keys - {k});
      order := order + [k];
    }
  }

  lemma BothLocked(s: State)
    requires LockInv(s.threads, s.locks)
    ensures
      s.locks.map_.Some? && s.locks.cache.Some? && !s.threads[s.locks.cache.value].Collected? ==>
        exists a, b :: Deadlocked(s, a, b)
  {
    if s.locks.map_.Some? && s.locks.cache.Some? && !s.threads[s.locks.cache.value].Collected? {
      assert Deadlocked(s, s.locks.map_.value, s.locks.cache.value);
    }
  }

  /** As long as a lock is held some holder can get on, if and only if the two are not
      locked against each other. */
  lemma ProgressExactly(s: State)
    requires Inv(s) && (s.locks.map_.Some? || s.locks.cache.Some?)
    ensures (exists l :: GetsOn(l) && Enabled(s, l)) <==> !exists a, b :: Deadlocked(s, a, b)
  {
    hide DataInv, CacheInv, ThreadInv, FlushInv;
    if a, b :| Deadlocked(s, a, b) {
      forall l | GetsOn(l) ensures !Enabled(s, l) {
      }
    } else if s.locks.cache.Some? {
      var b := s.locks.cache.value;
      BothLocked(s);
      var l := if s.threads[b].Collected? then BoundStore(b) else BoundCollect(b);
      assert GetsOn(l) && Enabled(s, l);
    } else {
      var order := HasOrder(s.core.entries, s.core.entries.Keys);
      var l := Invalidate(s.locks.map_.value, order);
      assert GetsOn(l) && Enabled(s, l);
    }
  }

  /** Such a state is two steps from any fresh start. */
  lemma DeadlockIsReachable(s: State, schema: string, id: string, now: nat)
    returns (trace: seq<State>, labels: seq<Label>)
    requires Init(s) && !AlreadyBound(s.core.entries, schema, id)
    requires Clean(schema) && Clean(id) && now < U64
    ensures IsRun(trace, labels) && trace[0] == s && |labels| == 2
    ensures Deadlocked(trace[2], 0, 1)
  {
    hide Parse, Mutate, AlreadyBound, Clean;
    var bind, miss := PutBind(0, schema, id, now), BoundMiss(1);
    labels := [bind, miss];
    trace := [s, Apply(s, bind), Apply(Apply(s, bind), miss)];
  }
}
