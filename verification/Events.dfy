/**
 * The event charts (src/events.rs): a bounded in-memory window of recent events,
 * pruned as it is written and rebuilt from the partition files at startup, and the
 * hourly counts drawn from it. The reference is the whole history of events.
 */
module Events {
  import opened Text
  import opened Calendar
  import opened Partitions

  const CAPACITY: nat := 10_000

  const WINDOW: nat := RETAIN_HOURS * 3600

  // ---- the buffer ----------------------------------------------------------------

  /** The buffer without the entries at its front that are before `cutoff`. */
  function Aged(log: seq<Entry>, cutoff: nat): seq<Entry> {
    if log != [] && log[0].t < cutoff then Aged(log[1..], cutoff) else log
  }

  function Capped(log: seq<Entry>): seq<Entry> {
    if |log| >= CAPACITY then log[|log| - (CAPACITY - 1)..] else log
  }

  function Pushed(log: seq<Entry>, e: Entry): seq<Entry> { Capped(Aged(log, Less(e.t, WINDOW))) + [e] }

  function PushedAll(log: seq<Entry>, more: seq<Entry>): seq<Entry> {
    if more == [] then log else Pushed(PushedAll(log, more[..|more| - 1]), more[|more| - 1])
  }

  // ---- the charts ------------------------------------------------------------------

  predicate Hit(e: Entry, event: Event, lo: nat, hi: nat) { e.event == event && lo <= e.t < hi }

  function CountIn(s: seq<Entry>, event: Event, lo: nat, hi: nat): nat {
    if s == [] then 0 else
      CountIn(s[..|s| - 1], event, lo, hi) + if Hit(s[|s| - 1], event, lo, hi) then 1 else 0
  }

  function ChartStart(buckets: nat, now: nat): nat { Less(now / 3600 * 3600, Less(buckets, 1) * 3600) }

  function BucketStart(buckets: nat, now: nat, i: nat): nat { ChartStart(buckets, now) + i * 3600 }

  /** For each of the trailing hours, the hour's start and the events counted in it. */
  function Chart(s: seq<Entry>, event: Event, buckets: nat, now: nat): seq<(nat, nat)> {
    seq(buckets, i requires 0 <= i =>
      (BucketStart(buckets, now, i),
       CountIn(s, event, BucketStart(buckets, now, i), BucketStart(buckets, now, i) + 3600)))
  }

  /** A chart's bars are whole hours one after another. The last is the present hour, if and
      only if that many hours have passed since 1970; otherwise the first is hour zero. */
  lemma ChartIsTheTrailingHours(s: seq<Entry>, event: Event, buckets: nat, now: nat)
    requires buckets > 0
    ensures
      var chart := Chart(s, event, buckets, now);
      && |chart| == buckets
      && (forall i :: 0 <= i < buckets ==> chart[i].0 % 3600 == 0)
      && (forall i :: 0 < i < buckets ==> chart[i].0 == chart[i - 1].0 + 3600)
      && (chart[buckets - 1].0 <= now < chart[buckets - 1].0 + 3600 <==> buckets <= now / 3600 + 1)
      && (buckets > now / 3600 + 1 ==> chart[0].0 == 0)
  {
    var chart := Chart(s, event, buckets, now);
    forall i | 0 <= i < buckets
      ensures chart[i].0 == ChartStart(buckets, now) + i * 3600 && chart[i].0 % 3600 == 0
    {
    }
  }

  class Recorder {
    var log: seq<Entry>
    var files: Files
    var lastDay: nat

    constructor ()
      ensures log == [] && files == map[] && lastDay == 0
    {
      log, files, lastDay := [], map[], 0;
    }

    /** `push_mem`. */
    method PushMem(e: Entry)
      modifies this`log
      ensures log == Pushed(old(log), e)
    {
      var cutoff := Less(e.t, WINDOW);
      while log != [] && log[0].t < cutoff
        invariant Aged(log, cutoff) == Aged(old(log), cutoff)
        decreases |log|
      {
        log := log[1..];
      }
      ghost var aged := log;
      while |log| >= CAPACITY
        invariant |log| <= |aged| && log == aged[|aged| - |log|..]
        invariant |log| == |aged| || |log| >= CAPACITY - 1
        decreases |log|
      {
        log := log[1..];
      }
      assert log == Capped(aged);
      log := log + [e];
    }

    /** `record_at`, with a disk that takes the append. */
    method RecordAt(event: Event, t: nat)
      modifies this
      ensures log == Pushed(old(log), Entry(t, event))
      ensures files == Appended(if old(lastDay) != t / DAY then Pruned(old(files), t) else old(files), Entry(t, event))
      ensures lastDay == t / DAY
    {
      PushMem(Entry(t, event));
      if lastDay != t / DAY {
        files := Pruned(files, t);
      }
      lastDay := t / DAY;
      files := files[DateStr(t) := TextOf(files, DateStr(t)) + EntryLine(Entry(t, event)) + "\n"];
    }

    /** `load_window`: the partitions of the day before and of today. */
    method LoadWindow(now: nat) returns (out: seq<Entry>)
      ensures out == Loaded(files, now)
    {
      hide DateStr, Entries, Window, Sorted;
      out := [];
      var days := [Less(now, DAY), now];
      var d := 0;
      while d < 2
        invariant 0 <= d <= 2
        invariant d == 0 ==> out == []
        invariant d == 1 ==> out == Window(Entries(TextOf(files, DateStr(days[0]))), now)
        invariant d == 2 ==> out == Read(files, now)
      {
        var more := ReadPartition(TextOf(files, DateStr(days[d])), now);
        out := out + more;
        d := d + 1;
      }
      out := Sorted(out);
    }

    /** `init`: a fresh process rebuilds its window from the files, and prunes. */
    method Restart(now: nat)
      modifies this
      ensures log == PushedAll([], Loaded(old(files), now))
      ensures files == Pruned(old(files), now) && lastDay == 0
    {
      hide Loaded, Pruned, Pushed;
      log, lastDay := [], 0;
      var loaded := LoadWindow(now);
      var i := 0;
      while i < |loaded|
        invariant 0 <= i <= |loaded|
        invariant log == PushedAll([], loaded[..i]) && files == old(files) && lastDay == 0
      {
        assert loaded[..i + 1][..i] == loaded[..i];
        PushMem(loaded[i]);
        i := i + 1;
      }
      assert loaded[..i] == loaded;
      files := Pruned(files, now);
    }

    /** `hourly_counts_at`. */
    method HourlyCountsAt(event: Event, buckets: nat, now: nat) returns (out: seq<(nat, nat)>)
      ensures out == Chart(log, event, buckets, now)
    {
      var start := ChartStart(buckets, now);
      out := seq(buckets, i requires 0 <= i => (start + i * 3600, 0));
      var k := 0;
      while k < |log|
        invariant 0 <= k <= |log|
        invariant out == Chart(log[..k], event, buckets, now)
      {
        hide CountIn, Hit;
        var e := log[k];
        var was := out;
        if e.event == event && e.t >= start {
          var idx := (e.t - start) / 3600;
          if idx < buckets {
            out := out[idx := (out[idx].0, out[idx].1 + 1)];
          }
        }
        ChartMore(log, k, event, buckets, now);
        assert out == Chart(log[..k + 1], event, buckets, now);
        k := k + 1;
      }
      assert log[..k] == log;
    }
  }

  method ReadPartition(text: string, now: nat) returns (out: seq<Entry>)
    ensures out == Window(Entries(text), now)
  {
    hide ParseEntry, InWindow, Lines;
    out := [];
    var lines := Lines(text);
    var i := 0;
    while i < |lines|
      invariant 0 <= i <= |lines|
      invariant out == Window(ParseAll(lines[..i]), now)
    {
      WindowMore(lines, i, now);
      var e := ParseEntry(lines[i]);
      if e.Some? && InWindow(e.value.t, now) {
        out := out + [e.value];
      }
      i := i + 1;
    }
    assert lines[..i] == lines;
  }

  lemma WindowMore(lines: seq<string>, i: nat, now: nat)
    requires i < |lines|
    ensures
      var e := ParseEntry(lines[i]);
      Window(ParseAll(lines[..i + 1]), now)
      == Window(ParseAll(lines[..i]), now)
         + if e.Some? && InWindow(e.value.t, now) then [e.value] else []
  {
    hide ParseEntry, InWindow;
    var e := ParseEntry(lines[i]);
    assert lines[..i + 1][..i] == lines[..i];
    var old_ := ParseAll(lines[..i]);
    if e.Some? {
      assert (old_ + [e.value])[..|old_|] == old_;
    }
  }

  /** One more entry moves the one bar it falls in, or none. */
  lemma ChartMore(log: seq<Entry>, k: nat, event: Event, buckets: nat, now: nat)
    requires k < |log|
    ensures
      var a, b := Chart(log[..k], event, buckets, now), Chart(log[..k + 1], event, buckets, now);
      var start := ChartStart(buckets, now);
      var e := log[k];
      forall i :: 0 <= i < buckets ==>
        b[i] == (a[i].0, a[i].1 + if e.event == event && e.t >= start && (e.t - start) / 3600 == i then 1 else 0)
  {
    assert log[..k + 1][..k] == log[..k];
  }

  // ---- counting ----------------------------------------------------------------------

  lemma {:induction false} CountConcat(a: seq<Entry>, b: seq<Entry>, event: Event, lo: nat, hi: nat)
    ensures CountIn(a + b, event, lo, hi) == CountIn(a, event, lo, hi) + CountIn(b, event, lo, hi)
  {
    if b == [] {
      assert a + b == a;
    } else {
      var n := |b| - 1;
      assert (a + b)[..|a + b| - 1] == a + b[..n];
      CountConcat(a, b[..n], event, lo, hi);
    }
  }

  lemma {:induction false} CountNone(s: seq<Entry>, event: Event, lo: nat, hi: nat)
    requires forall i :: 0 <= i < |s| ==> !Hit(s[i], event, lo, hi)
    ensures CountIn(s, event, lo, hi) == 0
  {
    if s != [] {
      CountNone(s[..|s| - 1], event, lo, hi);
    }
  }

  lemma {:induction false} CountInsert(s: seq<Entry>, e: Entry, event: Event, lo: nat, hi: nat)
    ensures CountIn(Insert(s, e), event, lo, hi) == CountIn(s + [e], event, lo, hi)
  {
    hide CountIn;
    CountConcat(s, [e], event, lo, hi);
    if s != [] && s[|s| - 1].t > e.t {
      var n := |s| - 1;
      CountInsert(s[..n], e, event, lo, hi);
      CountConcat(s[..n], [e], event, lo, hi);
      CountConcat(Insert(s[..n], e), [s[n]], event, lo, hi);
      CountConcat(s[..n], [s[n]], event, lo, hi);
      assert s == s[..n] + [s[n]];
    }
  }

  lemma {:induction false} CountSorted(s: seq<Entry>, event: Event, lo: nat, hi: nat)
    ensures CountIn(Sorted(s), event, lo, hi) == CountIn(s, event, lo, hi)
  {
    hide CountIn, Insert;
    if s != [] {
      var n := |s| - 1;
      CountSorted(s[..n], event, lo, hi);
      CountInsert(Sorted(s[..n]), s[n], event, lo, hi);
      CountConcat(Sorted(s[..n]), [s[n]], event, lo, hi);
      CountConcat(s[..n], [s[n]], event, lo, hi);
      assert s == s[..n] + [s[n]];
    }
  }

  lemma {:induction false} CountWindow(s: seq<Entry>, now: nat, event: Event, lo: nat, hi: nat)
    requires Less(now, WINDOW) <= lo
    requires forall i :: 0 <= i < |s| ==> s[i].t <= now
    ensures CountIn(Window(s, now), event, lo, hi) == CountIn(s, event, lo, hi)
  {
    if s != [] {
      var n := |s| - 1;
      CountWindow(s[..n], now, event, lo, hi);
      CountConcat(Window(s[..n], now), [s[n]], event, lo, hi);
      assert Window(s[..n], now) + [] == Window(s[..n], now);
      assert [s[n]][..0] == [];
    }
  }

  /** Ageing takes away only entries before the cutoff. */
  lemma {:induction false} CountAged(log: seq<Entry>, cutoff: nat, event: Event, lo: nat, hi: nat)
    requires cutoff <= lo
    ensures CountIn(Aged(log, cutoff), event, lo, hi) == CountIn(log, event, lo, hi)
    ensures |Aged(log, cutoff)| <= |log|
  {
    if log != [] && log[0].t < cutoff {
      CountAged(log[1..], cutoff, event, lo, hi);
      assert log == [log[0]] + log[1..];
      CountConcat([log[0]], log[1..], event, lo, hi);
      CountNone([log[0]], event, lo, hi);
    }
  }

  lemma {:induction false} AgedIsASuffix(log: seq<Entry>, cutoff: nat) returns (k: nat)
    ensures k <= |log| && Aged(log, cutoff) == log[k..] && (k < |log| ==> log[k].t >= cutoff)
    ensures forall i :: 0 <= i < k ==> log[i].t < cutoff
  {
    if log != [] && log[0].t < cutoff {
      k := AgedIsASuffix(log[1..], cutoff);
      k := k + 1;
      assert forall i :: 0 < i < k ==> log[i] == log[1..][i - 1];
    } else {
      k := 0;
    }
  }

  /** What a push leaves: what there was, in order, without a front of it, and the new entry
      at the end; never more than ten thousand, and the front goes only as far as it is
      older than 25 hours or there is no room. */
  lemma PushedExactly(log: seq<Entry>, e: Entry) returns (k: nat)
    requires |log| <= 10_000
    ensures k <= |log| && Pushed(log, e) == log[k..] + [e] && |Pushed(log, e)| <= 10_000
    ensures k < |log| ==> log[k].t + 90_000 >= e.t || k == |log| - 9_999
    ensures forall i :: 0 <= i < k ==> log[i].t + 90_000 < e.t || k == |log| - 9_999
  {
    k := AgedIsASuffix(log, Less(e.t, WINDOW));
    var aged := Aged(log, Less(e.t, WINDOW));
    if |aged| >= CAPACITY {
      k := |log| - (CAPACITY - 1);
    }
  }

  /** What a push drops for want of room. */
  function Overflow(log: seq<Entry>, e: Entry): seq<Entry> {
    var aged := Aged(log, Less(e.t, WINDOW));
    if |aged| >= CAPACITY then aged[..|aged| - (CAPACITY - 1)] else []
  }

  /** A push takes from the counts of its window exactly what it drops for want of room. */
  lemma CountPushed(log: seq<Entry>, e: Entry, event: Event, lo: nat, hi: nat)
    requires Less(e.t, WINDOW) <= lo
    ensures
      CountIn(Pushed(log, e), event, lo, hi) + CountIn(Overflow(log, e), event, lo, hi)
      == CountIn(log + [e], event, lo, hi)
    ensures |Pushed(log, e)| <= |log| + 1
  {
    hide CountIn, Hit;
    var aged := Aged(log, Less(e.t, WINDOW));
    CountAged(log, Less(e.t, WINDOW), event, lo, hi);
    CountConcat(Overflow(log, e), Capped(aged), event, lo, hi);
    assert Overflow(log, e) + Capped(aged) == aged;
    CountConcat(Capped(aged), [e], event, lo, hi);
    CountConcat(log, [e], event, lo, hi);
  }

  lemma {:induction false} CountPushedAll(more: seq<Entry>, now: nat, event: Event, lo: nat, hi: nat)
    requires |more| <= CAPACITY && Less(now, WINDOW) <= lo
    requires forall i :: 0 <= i < |more| ==> more[i].t <= now
    ensures CountIn(PushedAll([], more), event, lo, hi) == CountIn(more, event, lo, hi)
    ensures |PushedAll([], more)| <= |more|
  {
    hide Hit, Pushed, Aged, WINDOW;
    if more != [] {
      var n := |more| - 1;
      var log := PushedAll([], more[..n]);
      CountPushedAll(more[..n], now, event, lo, hi);
      CountAged(log, Less(more[n].t, WINDOW), event, Less(more[n].t, WINDOW), hi);
      CountPushed(log, more[n], event, lo, hi);
      CountNone([], event, lo, hi);
      CountConcat(log, [more[n]], event, lo, hi);
      CountConcat(more[..n], [more[n]], event, lo, hi);
      assert more == more[..n] + [more[n]];
    }
  }

  // ---- runs --------------------------------------------------------------------------------

  /** A recorder, every event recorded so far, and the latest time seen. */
  datatype State = State(log: seq<Entry>, files: Files, lastDay: nat, history: seq<Entry>, clock: nat)

  datatype Op =
    | Record(event: Event, t: nat, now: nat)
    | Restarts(now: nat)

  const Empty: State := State([], map[], 0, [], 0)

  predicate FourDigits(t: nat) { CivilFromUnix(t).year <= 9999 }

  /** The clock does not go back past what it has shown, though events may reach the
      log late and out of order; the cap is not hit; a restart is past the first day. */
  predicate Enabled(s: State, op: Op) {
    && s.clock <= op.now < U64 && FourDigits(op.now)
    && match op
       case Record(event, t, now) => t <= now && Overflow(s.log, Entry(t, event)) == []
       case Restarts(now) => now >= DAY && |Read(s.files, now)| <= CAPACITY
  }

  function Apply(s: State, op: Op): State {
    match op
    case Record(event, t, now) =>
      var e := Entry(t, event);
      State(Pushed(s.log, e),
            Appended(if s.lastDay != t / DAY then Pruned(s.files, t) else s.files, e),
            t / DAY, s.history + [e], now)
    case Restarts(now) =>
      State(PushedAll([], Loaded(s.files, now)), Pruned(s.files, now), 0, s.history, now)
  }

  ghost predicate IsRun(trace: seq<State>, ops: seq<Op>) {
    && |trace| == |ops| + 1
    && trace[0] == Empty
    && forall i :: 0 <= i < |ops| ==> Enabled(trace[i], ops[i]) && trace[i + 1] == Apply(trace[i], ops[i])
  }

  /** The first second of the longest chart the window is kept for. */
  function ChartFloor(now: nat): nat { ChartStart(RETAIN_HOURS, now) }

  ghost predicate Agrees(log: seq<Entry>, history: seq<Entry>, from: nat) {
    forall event, lo: nat, hi: nat :: from <= lo ==> CountIn(log, event, lo, hi) == CountIn(history, event, lo, hi)
  }

  function OnDay(s: seq<Entry>, day: nat): seq<Entry> {
    if s == [] then [] else
      var n := |s| - 1;
      OnDay(s[..n], day) + if s[n].t / DAY == day then [s[n]] else []
  }

  function KeyOf(day: nat): string { DateStr(day * DAY) }

  /** The partition of `day` holds the day's events. */
  ghost predicate Filed(files: Files, history: seq<Entry>, day: nat) {
    var text := TextOf(files, KeyOf(day));
    WholeLines(text) && Entries(text) == OnDay(history, day)
  }

  ghost predicate FilesInv(files: Files, history: seq<Entry>, clock: nat) {
    forall day: nat :: clock / DAY <= day + 1 && FourDigits(day * DAY) ==> Filed(files, history, day)
  }

  predicate UpTo(history: seq<Entry>, clock: nat) { forall i :: 0 <= i < |history| ==> history[i].t <= clock }

  ghost predicate Inv(s: State) {
    && Agrees(s.log, s.history, ChartFloor(s.clock))
    && FilesInv(s.files, s.history, s.clock)
    && UpTo(s.history, s.clock)
  }

  /** Charts up to 25 buckets start no earlier than the floor, which moves forward
      only, and is inside both the window and yesterday. */
  lemma Floors(now: nat, later: nat, buckets: nat)
    requires now <= later && buckets <= RETAIN_HOURS
    ensures ChartFloor(now) <= ChartFloor(later) <= ChartStart(buckets, later)
    ensures Less(now, WINDOW) <= ChartFloor(now)
    ensures now >= DAY ==> (now / DAY - 1) * DAY <= ChartFloor(now)
  {
    var hour, day := now / 3600, now / DAY;
    assert 24 * day <= hour by { assert day * DAY <= now; }
    assert hour <= later / 3600;
  }

  lemma SameDay(t: nat)
    ensures FourDigits(t / DAY * DAY) == FourDigits(t) && KeyOf(t / DAY) == DateStr(t)
  {
    var u := t / DAY * DAY;
    assert u / DAY == t / DAY;
  }

  lemma PruneKeepsFile(files: Files, now: nat, day: nat)
    requires FourDigits(now) && FourDigits(day * DAY) && now / DAY <= day + 1
    ensures TextOf(Pruned(files, now), KeyOf(day)) == TextOf(files, KeyOf(day))
  {
    hide CivilFromUnix, Before, DateStr;
    var cut := Less(now, RETAIN_DAYS * DAY);
    YearGrows(cut, now);
    DateStrOrder(day * DAY, cut);
    assert day * DAY / DAY == day;
  }

  lemma FilesPruned(files: Files, history: seq<Entry>, clock: nat, now: nat)
    requires FilesInv(files, history, clock) && FourDigits(now) && now <= clock
    ensures FilesInv(Pruned(files, now), history, clock)
  {
    hide Pruned, FourDigits, KeyOf;
    forall day: nat | clock / DAY <= day + 1 && FourDigits(day * DAY)
      ensures Filed(Pruned(files, now), history, day)
    {
      PruneKeepsFile(files, now, day);
    }
  }

  lemma AppendFiles(files: Files, history: seq<Entry>, e: Entry, day: nat)
    requires Filed(files, history, day) && FourDigits(day * DAY) && FourDigits(e.t) && e.t < U64
    ensures Filed(Appended(files, e), history + [e], day)
  {
    hide Entries, EntryLine, WholeLines, DateStr, CivilFromUnix;
    SameDay(e.t);
    DateStrOrder(e.t, day * DAY);
    assert day * DAY / DAY == day;
    assert (history + [e])[..|history|] == history;
    if e.t / DAY == day {
      EntriesAppend(TextOf(files, KeyOf(day)), e);
    }
  }

  lemma RecordKeeps(s: State, op: Op)
    requires Inv(s) && Enabled(s, op) && op.Record?
    ensures Inv(Apply(s, op))
  {
    hide CountIn, FourDigits, Pushed, Overflow, Appended, Pruned, Filed, ChartStart;
    var e := Entry(op.t, op.event);
    var s' := Apply(s, op);
    Floors(s.clock, op.now, 0);
    Floors(op.now, op.now, 0);
    forall event, lo: nat, hi: nat | ChartFloor(op.now) <= lo
      ensures CountIn(s'.log, event, lo, hi) == CountIn(s'.history, event, lo, hi)
    {
      CountPushed(s.log, e, event, lo, hi);
      EmptyCount(event, lo, hi);
      CountConcat(s.log, [e], event, lo, hi);
      CountConcat(s.history, [e], event, lo, hi);
    }
    YearsBack(op.t, op.now);
    FilesPruned(s.files, s.history, op.now, op.t);
    var files := if s.lastDay != op.t / DAY then Pruned(s.files, op.t) else s.files;
    forall day: nat | op.now / DAY <= day + 1 && FourDigits(day * DAY)
      ensures Filed(s'.files, s'.history, day)
    {
      AppendFiles(files, s.history, e, day);
    }
  }

  lemma EmptyCount(event: Event, lo: nat, hi: nat)
    ensures CountIn([], event, lo, hi) == 0
  {
  }

  lemma YearsBack(t: nat, now: nat)
    requires t <= now && FourDigits(now)
    ensures FourDigits(t)
  {
    YearGrows(t, now);
  }

  lemma {:induction false} OnDayTimes(s: seq<Entry>, day: nat, now: nat)
    requires UpTo(s, now)
    ensures UpTo(OnDay(s, day), now)
  {
    if s != [] {
      OnDayTimes(s[..|s| - 1], day, now);
    }
  }

  lemma CountOnDay(s: seq<Entry>, day: nat, event: Event, lo: nat, hi: nat)
    requires s != []
    ensures
      var e := s[|s| - 1];
      CountIn(OnDay(s, day), event, lo, hi)
      == CountIn(OnDay(s[..|s| - 1], day), event, lo, hi)
         + if e.t / DAY == day && Hit(e, event, lo, hi) then 1 else 0
  {
    hide Hit;
    var rest := OnDay(s[..|s| - 1], day);
    assert (rest + [s[|s| - 1]])[..|rest|] == rest;
    assert rest + [] == rest;
  }

  /** Events that late fall on the last two days. */
  lemma {:induction false} TwoDays(s: seq<Entry>, day: nat, event: Event, lo: nat, hi: nat)
    requires UpTo(s, (day + 2) * DAY - 1) && day * DAY <= lo
    ensures
      CountIn(OnDay(s, day), event, lo, hi) + CountIn(OnDay(s, day + 1), event, lo, hi)
      == CountIn(s, event, lo, hi)
  {
    if s != [] {
      var n := |s| - 1;
      TwoDays(s[..n], day, event, lo, hi);
      CountOnDay(s, day, event, lo, hi);
      CountOnDay(s, day + 1, event, lo, hi);
      assert s[n].t / DAY <= day + 1;
    }
  }

  lemma {:induction false} SortedTimes(s: seq<Entry>, now: nat)
    requires UpTo(s, now)
    ensures UpTo(Sorted(s), now) && |Sorted(s)| == |s|
  {
    SortedIsSorted(s);
    assert forall e :: e in multiset(Sorted(s)) ==> e in multiset(s);
    assert |multiset(Sorted(s))| == |Sorted(s)| && |multiset(s)| == |s|;
    forall i | 0 <= i < |Sorted(s)| ensures Sorted(s)[i].t <= now {
      assert Sorted(s)[i] in multiset(Sorted(s));
    }
  }

  lemma {:induction false} WindowTimes(s: seq<Entry>, now: nat)
    requires UpTo(s, now)
    ensures UpTo(Window(s, now), now)
  {
    if s != [] {
      WindowTimes(s[..|s| - 1], now);
    }
  }

  /** What a restart reloads counts like the whole history. */
  lemma ReloadCounts(s: State, now: nat, event: Event, lo: nat, hi: nat)
    requires Inv(s) && Enabled(s, Restarts(now)) && ChartFloor(now) <= lo
    ensures CountIn(PushedAll([], Loaded(s.files, now)), event, lo, hi) == CountIn(s.history, event, lo, hi)
  {
    hide CountIn, FourDigits, ChartStart, Sorted, Window, WINDOW, PushedAll, Entries, OnDay, DateStr;
    var day := now / DAY - 1;
    Floors(now, now, 0);
    SameDay(now);
    SameDay(now - DAY);
    YearsBack(now - DAY, now);
    assert (now - DAY) / DAY == day && Less(now, DAY) == now - DAY;
    assert Filed(s.files, s.history, day) && Filed(s.files, s.history, day + 1);
    var a, b := OnDay(s.history, day), OnDay(s.history, day + 1);
    OnDayTimes(s.history, day, now);
    OnDayTimes(s.history, day + 1, now);
    WindowTimes(a, now);
    WindowTimes(b, now);
    var read := Window(a, now) + Window(b, now);
    assert Read(s.files, now) == read;
    SortedTimes(read, now);
    CountPushedAll(Sorted(read), now, event, lo, hi);
    CountSorted(read, event, lo, hi);
    CountConcat(Window(a, now), Window(b, now), event, lo, hi);
    CountWindow(a, now, event, lo, hi);
    CountWindow(b, now, event, lo, hi);
    TwoDays(s.history, day, event, lo, hi);
  }

  lemma RestartKeeps(s: State, op: Op)
    requires Inv(s) && Enabled(s, op) && op.Restarts?
    ensures Inv(Apply(s, op))
  {
    hide CountIn, PushedAll, Loaded, Pruned, Filed, ChartStart, FourDigits;
    forall event, lo: nat, hi: nat | ChartFloor(op.now) <= lo
      ensures CountIn(Apply(s, op).log, event, lo, hi) == CountIn(s.history, event, lo, hi)
    {
      ReloadCounts(s, op.now, event, lo, hi);
    }
    FilesPruned(s.files, s.history, op.now, op.now);
  }

  lemma {:induction false} RunKeeps(trace: seq<State>, ops: seq<Op>, n: nat)
    requires IsRun(trace, ops) && n < |trace|
    ensures Inv(trace[n])
  {
    if n == 0 {
      assert forall day: nat :: Filed(map[], [], day) by { NoLines(); }
    } else {
      hide Inv, Enabled, Apply;
      RunKeeps(trace, ops, n - 1);
      if ops[n - 1].Record? {
        RecordKeeps(trace[n - 1], ops[n - 1]);
      } else {
        RestartKeeps(trace[n - 1], ops[n - 1]);
      }
    }
  }

  /** In every run of records and restarts, a chart of up to 25 hours drawn from the
      pruned buffer is the chart of the whole history. */
  lemma ChartsRefineHistory(trace: seq<State>, ops: seq<Op>, n: nat, event: Event, buckets: nat, now: nat)
    requires IsRun(trace, ops) && n < |trace| && trace[n].clock <= now && buckets <= RETAIN_HOURS
    ensures Chart(trace[n].log, event, buckets, now) == Chart(trace[n].history, event, buckets, now)
  {
    hide Enabled, Apply, CountIn;
    RunKeeps(trace, ops, n);
    Floors(trace[n].clock, now, buckets);
    forall i | 0 <= i < buckets
      ensures Chart(trace[n].log, event, buckets, now)[i] == Chart(trace[n].history, event, buckets, now)[i]
    {
      assert ChartFloor(trace[n].clock) <= BucketStart(buckets, now, i);
    }
  }

  /** Before the first day is over, both reads name the same partition, and a
      restart counts every event of it twice. */
  lemma FirstDayDoubles(files: Files, now: nat, event: Event, lo: nat, hi: nat)
    requires now < DAY
    ensures
      CountIn(Loaded(files, now), event, lo, hi)
      == 2 * CountIn(Window(Entries(TextOf(files, DateStr(now))), now), event, lo, hi)
  {
    hide CountIn, Sorted, Window, Entries, CivilFromUnix;
    SameDay(now);
    SameDay(0);
    assert now / DAY == 0;
    var once := Window(Entries(TextOf(files, DateStr(now))), now);
    CountSorted(once + once, event, lo, hi);
    CountConcat(once, once, event, lo, hi);
  }
}
