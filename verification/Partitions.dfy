/**
 * The daily partition files behind the event charts (src/events.rs): one line per
 * event in the file of its UTC day, read back for today and yesterday at startup,
 * deleted by the string order of their dates.
 */
module Partitions {
  import opened Text
  import opened Calendar

  datatype Event = RestoreS3 | RestoreLocal | VmCreated | OffloadDone | VmDeleted | SpareClaimed

  datatype Entry = Entry(t: nat, event: Event)

  /** The partition files by date. */
  type Files = map<string, string>

  const RETAIN_HOURS: nat := 25
  const RETAIN_DAYS: nat := 14

  function Less(a: nat, b: nat): nat { if a >= b then a - b else 0 }

  // ---- lines -------------------------------------------------------------------

  function EventText(e: Event): string {
    match e
    case RestoreS3 => "restore_s3"
    case RestoreLocal => "restore_local"
    case VmCreated => "vm_created"
    case OffloadDone => "offload_done"
    case VmDeleted => "vm_deleted"
    case SpareClaimed => "spare_claimed"
  }

  function EventParse(s: string): Option<Event> {
    if s == "restore_s3" then Some(RestoreS3)
    else if s == "restore_local" then Some(RestoreLocal)
    else if s == "vm_created" then Some(VmCreated)
    else if s == "offload_done" then Some(OffloadDone)
    else if s == "vm_deleted" then Some(VmDeleted)
    else if s == "spare_claimed" then Some(SpareClaimed)
    else None
  }

  predicate IsSpace(c: char) { c == ' ' || '\t' <= c <= '\r' }

  function Trim(s: string): string {
    if s == [] then s
    else if IsSpace(s[0]) then Trim(s[1..])
    else if IsSpace(s[|s| - 1]) then Trim(s[..|s| - 1])
    else s
  }

  function EntryLine(e: Entry): string { Decimal(e.t) + "\t" + EventText(e.event) }

  function ParseEntry(line: string): Option<Entry> {
    var i := IndexOf(line, '\t');
    if i == |line| then None else
      var t, event := ParseU64(Trim(line[..i])), EventParse(Trim(line[i + 1..]));
      if t.Some? && event.Some? then Some(Entry(t.value, event.value)) else None
  }

  function ParseAll(lines: seq<string>): seq<Entry> {
    if lines == [] then [] else
      var rest, e := ParseAll(lines[..|lines| - 1]), ParseEntry(lines[|lines| - 1]);
      if e.Some? then rest + [e.value] else rest
  }

  function Entries(text: string): seq<Entry> { ParseAll(Lines(text)) }

  predicate WholeLines(text: string) { text == "" || text[|text| - 1] == '\n' }

  lemma EventRoundTrip(e: Event)
    ensures EventParse(EventText(e)) == Some(e)
    ensures forall i :: 0 <= i < |EventText(e)| ==> !IsSpace(EventText(e)[i])
    ensures EventText(e) != ""
  {
  }

  lemma EntryRoundTrip(e: Entry)
    requires e.t < U64
    ensures ParseEntry(EntryLine(e)) == Some(e)
    ensures '\n' !in EntryLine(e) && EntryLine(e)[|EntryLine(e)| - 1] != '\r'
  {
    hide Decimal, EventText, EventParse;
    DecimalReads(e.t);
    DecimalClean(e.t);
    DecimalRoundTrip(e.t);
    EventRoundTrip(e.event);
    var line := EntryLine(e);
    var kind := EventText(e.event);
    assert line == Decimal(e.t) + ['\t'] + kind;
    IndexOfFirst(Decimal(e.t), '\t', kind);
    assert line[..|Decimal(e.t)|] == Decimal(e.t) && line[|Decimal(e.t)| + 1..] == kind;
    assert IsDigit(Decimal(e.t)[0]) && IsDigit(Decimal(e.t)[|Decimal(e.t)| - 1]);
    assert line[|line| - 1] == kind[|kind| - 1];
  }

  /** Appending an event's line to a file appends the event to what is read from it. */
  lemma EntriesAppend(text: string, e: Entry)
    requires WholeLines(text) && e.t < U64
    ensures Entries(text + EntryLine(e) + "\n") == Entries(text) + [e]
    ensures WholeLines(text + EntryLine(e) + "\n")
  {
    hide ParseEntry, EntryLine, Lines;
    EntryRoundTrip(e);
    assert EntryLine(e) != [] by { LineNotEmpty(e); }
    LinesAppend(text, EntryLine(e));
    var lines := Lines(text) + [EntryLine(e)];
    assert lines[..|lines| - 1] == Lines(text);
  }

  lemma LineNotEmpty(e: Entry)
    ensures EntryLine(e) != []
  {
  }

  // ---- writing, pruning, loading ---------------------------------------------------

  function TextOf(files: Files, date: string): string { if date in files then files[date] else "" }

  function Appended(files: Files, e: Entry): Files {
    files[DateStr(e.t) := TextOf(files, DateStr(e.t)) + EntryLine(e) + "\n"]
  }

  function Cutoff(now: nat): string { DateStr(Less(now, RETAIN_DAYS * DAY)) }

  function Pruned(files: Files, now: nat): Files {
    map date | date in files && !Before(date, Cutoff(now)) :: files[date]
  }

  predicate InWindow(t: nat, now: nat) { Less(now, RETAIN_HOURS * 3600) <= t <= now + 3600 }

  function Window(s: seq<Entry>, now: nat): seq<Entry> {
    if s == [] then [] else
      var n := |s| - 1;
      Window(s[..n], now) + if InWindow(s[n].t, now) then [s[n]] else []
  }

  /** A stable sort by time: each entry goes after those that are not later. */
  function Insert(s: seq<Entry>, e: Entry): seq<Entry> {
    if s == [] || s[|s| - 1].t <= e.t then s + [e] else Insert(s[..|s| - 1], e) + [s[|s| - 1]]
  }

  function Sorted(s: seq<Entry>): seq<Entry> {
    if s == [] then [] else Insert(Sorted(s[..|s| - 1]), s[|s| - 1])
  }

  /** What is read at startup, in the order it is read. */
  function Read(files: Files, now: nat): seq<Entry> {
    Window(Entries(TextOf(files, DateStr(Less(now, DAY)))), now) + Window(Entries(TextOf(files, DateStr(now))), now)
  }

  /** `load_window`. */
  function Loaded(files: Files, now: nat): seq<Entry> { Sorted(Read(files, now)) }

  predicate InOrder(s: seq<Entry>) { forall i, j :: 0 <= i < j < |s| ==> s[i].t <= s[j].t }

  lemma {:induction false} WindowMembers(s: seq<Entry>, now: nat, e: Entry)
    ensures e in Window(s, now) <==> e in s && now <= e.t + 90_000 && e.t <= now + 3600
  {
    if s != [] {
      var n := |s| - 1;
      WindowMembers(s[..n], now, e);
      assert s == s[..n] + [s[n]];
    }
  }

  /** What is loaded: the events of today's and yesterday's partitions, not more than 25
      hours old and not more than one hour ahead. */
  lemma LoadedExactly(files: Files, now: nat, e: Entry)
    ensures
      e in Loaded(files, now) <==>
        && (e in Entries(TextOf(files, DateStr(Less(now, DAY)))) || e in Entries(TextOf(files, DateStr(now))))
        && now <= e.t + 90_000 && e.t <= now + 3600
  {
    hide Entries, DateStr, Window, Sorted;
    SortedIsSorted(Read(files, now));
    assert e in Loaded(files, now) <==> e in multiset(Loaded(files, now));
    assert e in Read(files, now) <==> e in multiset(Read(files, now));
    WindowMembers(Entries(TextOf(files, DateStr(Less(now, DAY)))), now, e);
    WindowMembers(Entries(TextOf(files, DateStr(now))), now, e);
  }

  /** `Sorted` sorts. */
  lemma {:induction false} SortedIsSorted(s: seq<Entry>)
    ensures multiset(Sorted(s)) == multiset(s) && InOrder(Sorted(s))
  {
    hide Insert, InOrder;
    if s == [] {
      EmptyInOrder();
    } else {
      var n := |s| - 1;
      SortedIsSorted(s[..n]);
      InsertContents(Sorted(s[..n]), s[n]);
      InsertKeepsOrder(Sorted(s[..n]), s[n]);
      assert s == s[..n] + [s[n]];
    }
  }

  lemma EmptyInOrder()
    ensures InOrder([])
  {
  }

  lemma {:induction false} InsertContents(s: seq<Entry>, e: Entry)
    ensures multiset(Insert(s, e)) == multiset(s) + multiset{e}
  {
    if s != [] && s[|s| - 1].t > e.t {
      var n := |s| - 1;
      InsertContents(s[..n], e);
      assert s == s[..n] + [s[n]];
    }
  }

  lemma {:induction false} InsertKeepsOrder(s: seq<Entry>, e: Entry)
    requires InOrder(s)
    ensures InOrder(Insert(s, e))
    ensures forall i :: 0 <= i < |Insert(s, e)| ==>
      Insert(s, e)[i].t <= e.t || (s != [] && Insert(s, e)[i].t <= s[|s| - 1].t)
  {
    if s != [] && s[|s| - 1].t > e.t {
      InsertKeepsOrder(s[..|s| - 1], e);
    }
  }

  // ---- pruning is by day exactly through year 9999 -------------------------------------

  /** A partition no younger than the present is deleted exactly when its day is
      more than RETAIN_DAYS days back. */
  ghost predicate PrunesByAge(now: nat) {
    forall t: nat :: t <= now ==>
      (Before(DateStr(t), Cutoff(now)) <==> t / DAY < Less(now, RETAIN_DAYS * DAY) / DAY)
  }

  lemma YearGrows(t: nat, u: nat)
    requires t <= u
    ensures CivilFromUnix(t).year <= CivilFromUnix(u).year
  {
    hide CivilFromUnix, DayNumber;
    CivilFromUnixCorrect(t);
    CivilFromUnixCorrect(u);
    if t / DAY < u / DAY {
      DaysAdvance(t / DAY, u / DAY);
    }
  }

  function YearOf(t: nat): int { DayNumber(t / DAY).year }

  /** The years of the present and of the cutoff print at one width: four digits, or so
      many that every shorter year is out of the way. */
  ghost predicate OneWidth(now: int, cut: int) {
    now <= 9999 || exists w: nat :: w >= 5 && Pow10(w) - 10 <= cut && now < Pow10(w)
  }

  /** String order and day order prune alike exactly while the years print at one width:
      through year 9999, and again in the last ten years before each further digit. */
  lemma PruneExactly(now: nat)
    ensures PrunesByAge(now) <==> OneWidth(YearOf(now), YearOf(Less(now, RETAIN_DAYS * DAY)))
  {
    var cut := Less(now, RETAIN_DAYS * DAY);
    if YearOf(now) <= 9999 {
      FourDigitPrune(now, cut);
    } else if w: nat :| w >= 5 && Pow10(w) - 10 <= YearOf(cut) && YearOf(now) < Pow10(w) {
      NinesPrune(now, cut, w);
    } else {
      MixedPrune(now, cut);
    }
  }

  /** What is left of the partitions no younger than the present: those there were whose day
      is not more than RETAIN_DAYS back, each as it was. */
  ghost predicate KeepsByAge(files: Files, now: nat) {
    && (forall date :: date in Pruned(files, now) ==> date in files && Pruned(files, now)[date] == files[date])
    && forall t: nat :: t <= now ==>
         (DateStr(t) in Pruned(files, now) <==>
            DateStr(t) in files && Less(now, RETAIN_DAYS * DAY) / DAY <= t / DAY)
  }

  /** And that is so of every directory under the same condition. */
  lemma PrunedExactly(now: nat)
    ensures
      (forall files :: KeepsByAge(files, now)) <==> OneWidth(YearOf(now), YearOf(Less(now, RETAIN_DAYS * DAY)))
  {
    PruneExactly(now);
    hide OneWidth, DateStr, Before, Cutoff;
    if PrunesByAge(now) {
      forall files ensures KeepsByAge(files, now) {
      }
    } else {
      var t: nat :| t <= now && !(Before(DateStr(t), Cutoff(now)) <==> t / DAY < Less(now, RETAIN_DAYS * DAY) / DAY);
      var files: Files := map[DateStr(t) := ""];
      assert !KeepsByAge(files, now);
    }
  }

  lemma FourDigitPrune(now: nat, cut: nat)
    requires cut == Less(now, RETAIN_DAYS * DAY) && YearOf(now) <= 9999
    ensures PrunesByAge(now)
  {
    hide CivilFromUnix, DayNumber, Before;
    forall t: nat | t <= now
      ensures Before(DateStr(t), Cutoff(now)) <==> t / DAY < cut / DAY
    {
      CivilFromUnixCorrect(now);
      YearGrows(t, now);
      YearGrows(cut, now);
      DateStrOrder(t, cut);
    }
  }

  lemma NinesPrune(now: nat, cut: nat, w: nat)
    requires cut == Less(now, RETAIN_DAYS * DAY) && w >= 5
    requires Pow10(w) - 10 <= YearOf(cut) && YearOf(now) < Pow10(w)
    ensures PrunesByAge(now)
  {
    hide DayNumber, Before, Pow10, DateStr;
    forall t: nat | t <= now
      ensures Before(DateStr(t), Cutoff(now)) <==> t / DAY < cut / DAY
    {
      YearsGrow(t, now);
      YearsGrow(cut, now);
      NinesOrder(t, cut, w);
    }
  }

  lemma NinesOrder(t: nat, cut: nat, w: nat)
    requires w >= 5 && Pow10(w) - 10 <= YearOf(cut) < Pow10(w) && YearOf(t) < Pow10(w)
    ensures Before(DateStr(t), DateStr(cut)) <==> t / DAY < cut / DAY
  {
    StrIsText(t);
    StrIsText(cut);
    hide DayNumber, Before, DateStr, DateText, Valid, Pow10;
    NinesDays(t / DAY, cut / DAY, w);
  }

  lemma NinesDays(m: nat, n: nat, w: nat)
    requires w >= 5 && Pow10(w) - 10 <= DayNumber(n).year < Pow10(w) && DayNumber(m).year < Pow10(w)
    requires Valid(DayNumber(m)) && Valid(DayNumber(n))
    ensures Before(DateText(DayNumber(m)), DateText(DayNumber(n))) <==> m < n
  {
    hide DayNumber, Before, DateText;
    var a, b := DayNumber(m), DayNumber(n);
    EarlierIsBefore(m, n);
    var v := WidthBelow(a.year, b.year, w);
    hide Valid, Leap, DaysIn, Pow10;
    if v == w {
      DateTextOrder(a, b, w);
    } else {
      ShorterBeforeNines(a, b, v, w);
    }
  }

  lemma WidthBelow(y: nat, c: nat, w: nat) returns (v: nat)
    requires w >= 5 && Pow10(w) - 10 <= c < Pow10(w) && y < Pow10(w)
    ensures YearWidth(y, v) && v <= w && YearWidth(c, w) && (v < w ==> y < c)
  {
    PowGrows(w - 1);
    PowGrows(w);
    v := HasWidth(y, 4);
    PowerOrder(w, v - 1);
    PowerOrder(v, w - 1);
  }

  lemma {:induction false} PowerOrder(v: nat, w: nat)
    ensures v <= w ==> Pow10(v) <= Pow10(w)
  {
    if v < w {
      PowerOrder(v, w - 1);
    }
  }

  lemma YearsGrow(t: nat, u: nat)
    ensures t <= u ==> YearOf(t) <= YearOf(u)
  {
    if t / DAY < u / DAY {
      DaysAdvance(t / DAY, u / DAY);
    }
  }

  lemma StrIsText(t: nat)
    ensures Valid(DayNumber(t / DAY)) && DateStr(t) == DateText(DayNumber(t / DAY))
  {
    CivilFromUnixCorrect(t);
    DayNumberValid(t / DAY);
  }

  /** Otherwise some partition is deleted too early or kept too long. */
  lemma MixedPrune(now: nat, cut: nat)
    requires cut == Less(now, RETAIN_DAYS * DAY) && !OneWidth(YearOf(now), YearOf(cut))
    ensures !PrunesByAge(now)
  {
    hide Before;
    assert now >= RETAIN_DAYS * DAY by { FirstFortnight(now); }
    var n := cut / DAY;
    assert now / DAY == n + RETAIN_DAYS;
    Fortnight(n, RETAIN_DAYS);
    DayNumberValid(n);
    hide DayNumber;
    var w := HasWidth(YearOf(cut), 4);
    if YearOf(now) >= Pow10(w) {
      TooEarly(now, cut, w);
    } else {
      TooLate(now, cut, w);
    }
  }

  lemma FirstFortnight(now: nat)
    requires YearOf(now) > 9999
    ensures now >= RETAIN_DAYS * DAY
  {
    if now < RETAIN_DAYS * DAY {
      Fortnight(0, now / DAY);
    }
  }

  /** The year has just grown a digit: today's partition is deleted. */
  lemma TooEarly(now: nat, cut: nat, w: nat)
    requires cut == Less(now, RETAIN_DAYS * DAY) && YearWidth(YearOf(cut), w)
    requires Pow10(w) <= YearOf(now) <= YearOf(cut) + 1
    ensures !PrunesByAge(now)
  {
    hide Before, DayNumber, CivilFromUnix;
    PowGrows(w);
    PowGrows(w + 1);
    StrIsText(now);
    StrIsText(cut);
    LongerYearSortsEarly(DayNumber(cut / DAY), DayNumber(now / DAY), w);
    assert Before(DateStr(now), Cutoff(now)) && !(now / DAY < cut / DAY);
  }

  /** The last year with a digit less is kept. */
  lemma TooLate(now: nat, cut: nat, w: nat)
    requires cut == Less(now, RETAIN_DAYS * DAY) && YearWidth(YearOf(cut), w)
    requires !OneWidth(YearOf(now), YearOf(cut)) && YearOf(now) < Pow10(w)
    ensures !PrunesByAge(now)
  {
    var last := LastOfLess(YearOf(now), YearOf(cut), w);
    var m := YearReached(cut / DAY, last);
    hide OneWidth, DayNumber, CivilFromUnix, Before, YearWidth, DateText, Valid, Pow10;
    var t := m * DAY;
    assert t / DAY == m && t <= cut;
    StrIsText(t);
    StrIsText(cut);
    LongerYearSortsEarly(DayNumber(m), DayNumber(cut / DAY), w - 1);
    EarlierIsBefore(m, cut / DAY);
    hide DateStr;
    assert m < cut / DAY && !Before(DateStr(t), Cutoff(now));
  }

  lemma LastOfLess(now: int, cut: int, w: nat) returns (last: nat)
    requires YearWidth(cut, w) && !OneWidth(now, cut) && now < Pow10(w)
    ensures w >= 5 && YearWidth(last, w - 1) && Pow10(w - 1) <= cut < Pow10(w) && 1970 <= last < cut && cut / 10 < last
  {
    Tens();
    assert w >= 5;
    PowGrows(w);
    PowGrows(w - 1);
    PowGrows(w - 2);
    PowerOrder(4, w - 1);
    last := Pow10(w - 1) - 1;
  }
}
