/**
 * The registry file's text: one `schema\tid\tlast_active\ttier` line per schema
 * (src/store.rs, `serialize`, `parse`, `Tier::as_str`, `Tier::parse`).
 */
module RegistryText {
  import opened Text

  datatype Tier = Live | Compacted | Frozen | Archived

  datatype Rec = Rec(id: string, lastActive: nat, tier: Tier)

  type Registry = map<string, Rec>

  function TierText(t: Tier): string {
    match t
    case Live => "live"
    case Compacted => "compacted"
    case Frozen => "frozen"
    case Archived => "archived"
  }

  /** Anything unrecognised reads as live, the historical default. */
  function TierParse(s: string): Tier {
    if s == "archived" then Archived
    else if s == "frozen" then Frozen
    else if s == "compacted" then Compacted
    else Live
  }

  // ---- writing -----------------------------------------------------------------

  function Line(schema: string, r: Rec): string {
    schema + "\t" + r.id + "\t" + Decimal(r.lastActive) + "\t" + TierText(r.tier)
  }

  /** `order` lists every schema of `m` once: some iteration order of the map. */
  ghost predicate Enumerates(order: seq<string>, m: Registry) {
    && (forall k :: k in m <==> k in order)
    && (forall i, j :: 0 <= i < j < |order| ==> order[i] != order[j])
  }

  function Written(m: Registry, order: seq<string>): string
    requires forall k :: k in order ==> k in m
  {
    if order == [] then "" else
      Written(m, order[..|order| - 1]) + Line(order[|order| - 1], m[order[|order| - 1]]) + "\n"
  }

  /** `serialize`, with whatever order the map is iterated in: what it returns gives a
      well-formed map back, whenever it is read. */
  method Serialize(m: Registry) returns (out: string, ghost order: seq<string>)
    ensures Enumerates(order, m)
    ensures out == Written(m, order)
    ensures WellFormed(m) ==> forall now :: Parse(out, now) == m
  {
    out, order := "", [];
    var keys := m.Keys;
    while keys != {}
      invariant keys <= m.Keys
      invariant forall k :: k in order <==> k in m && k !in keys
      invariant forall i, j :: 0 <= i < j < |order| ==> order[i] != order[j]
      invariant out == Written(m, order)
      decreases keys
    {
      hide Decimal, TierText;
      var k :| k in keys;
      keys := keys - {k};
      WrittenMore(m, order, k);
      out := out + k;
      out := out + "\t";
      out := out + m[k].id;
      out := out + "\t";
      out := out + Decimal(m[k].lastActive);
      out := out + "\t";
      out := out + TierText(m[k].tier);
      out := out + "\n";
      order := order + [k];
    }
    if WellFormed(m) {
      forall now ensures Parse(out, now) == m {
        RoundTrip(m, order, now);
      }
    }
  }

  lemma WrittenMore(m: Registry, order: seq<string>, k: string)
    requires k in m && forall k' :: k' in order ==> k' in m
    ensures
      Written(m, order + [k])
      == Written(m, order) + k + "\t" + m[k].id + "\t" + Decimal(m[k].lastActive) + "\t"
         + TierText(m[k].tier) + "\n"
  {
    hide Decimal, TierText;
    assert (order + [k])[..|order|] == order;
  }

  // ---- reading -----------------------------------------------------------------

  function ParseLine(line: string, now: nat): Option<(string, Rec)> {
    var f := Split(line, '\t');
    if |f| < 2 || f[0] == "" || f[1] == "" then None
    else
      var stamp := if |f| > 2 then ParseU64(f[2]) else None;
      var lastActive := if stamp.Some? then stamp.value else now;
      Some((f[0], Rec(f[1], lastActive, TierParse(if |f| > 3 then f[3] else "live"))))
  }

  /** The lines collected into a map: a later line for a schema replaces an earlier one. */
  function ParseLines(lines: seq<string>, now: nat): Registry {
    if lines == [] then map[] else
      var m := ParseLines(lines[..|lines| - 1], now);
      match ParseLine(lines[|lines| - 1], now)
      case None => m
      case Some((schema, r)) => m[schema := r]
  }

  function Parse(s: string, now: nat): Registry { ParseLines(Lines(s), now) }

  // ---- round trip --------------------------------------------------------------

  predicate Clean(s: string) { s != "" && '\t' !in s && '\n' !in s }

  predicate WellFormed(m: Registry) {
    forall k :: k in m ==> Clean(k) && Clean(m[k].id) && m[k].lastActive < U64
  }

  lemma TierRoundTrip(t: Tier)
    ensures TierParse(TierText(t)) == t
    ensures '\t' !in TierText(t) && '\n' !in TierText(t)
    ensures TierText(t) != "" && TierText(t)[|TierText(t)| - 1] != '\r'
  {
  }

  lemma LineSplits(schema: string, r: Rec)
    requires Clean(schema) && Clean(r.id)
    ensures Split(Line(schema, r), '\t') == [schema, r.id, Decimal(r.lastActive), TierText(r.tier)]
  {
    hide Split, Decimal, TierText, TierParse;
    DecimalClean(r.lastActive);
    TierRoundTrip(r.tier);
    var last := TierText(r.tier);
    var stamp := Decimal(r.lastActive) + ['\t'] + last;
    var id := r.id + ['\t'] + stamp;
    assert Line(schema, r) == schema + ['\t'] + id;
    SplitFirst(schema, '\t', id);
    SplitFirst(r.id, '\t', stamp);
    SplitFirst(Decimal(r.lastActive), '\t', last);
    SplitWhole(last, '\t');
  }

  lemma LineRoundTrip(schema: string, r: Rec, now: nat)
    requires Clean(schema) && Clean(r.id) && r.lastActive < U64
    ensures ParseLine(Line(schema, r), now) == Some((schema, r))
  {
    LineSplits(schema, r);
    DecimalRoundTrip(r.lastActive);
    TierRoundTrip(r.tier);
  }

  lemma LineIsOneLine(schema: string, r: Rec)
    requires Clean(schema) && Clean(r.id)
    ensures var line := Line(schema, r); line != [] && '\n' !in line && line[|line| - 1] != '\r'
  {
    DecimalClean(r.lastActive);
    TierRoundTrip(r.tier);
  }

  lemma {:induction false} WrittenLines(m: Registry, order: seq<string>)
    requires WellFormed(m) && forall k :: k in order ==> k in m
    ensures Written(m, order) == [] || Written(m, order)[|Written(m, order)| - 1] == '\n'
    ensures |Lines(Written(m, order))| == |order|
    ensures forall i :: 0 <= i < |order| ==> Lines(Written(m, order))[i] == Line(order[i], m[order[i]])
  {
    hide Lines, Line;
    if order == [] {
      NoLines();
    } else {
      var n := |order| - 1;
      WrittenLines(m, order[..n]);
      LineIsOneLine(order[n], m[order[n]]);
      LinesAppend(Written(m, order[..n]), Line(order[n], m[order[n]]));
    }
  }

  lemma {:induction false} LinesParse(m: Registry, order: seq<string>, lines: seq<string>, now: nat)
    requires WellFormed(m) && |lines| == |order|
    requires forall i :: 0 <= i < |order| ==> order[i] in m && lines[i] == Line(order[i], m[order[i]])
    ensures ParseLines(lines, now) == map k | k in order && k in m :: m[k]
  {
    hide ParseLine, Line;
    if order != [] {
      var n := |order| - 1;
      LinesParse(m, order[..n], lines[..n], now);
      LineRoundTrip(order[n], m[order[n]], now);
      assert order == order[..n] + [order[n]];
    }
  }

  /** Writing then reading gives the map back, whatever the iteration order and
      whatever time the reading happens at. */
  lemma RoundTrip(m: Registry, order: seq<string>, now: nat)
    requires WellFormed(m) && Enumerates(order, m)
    ensures Parse(Written(m, order), now) == m
  {
    hide WellFormed, Lines, ParseLines, Written, Line;
    WrittenLines(m, order);
    LinesParse(m, order, Lines(Written(m, order)), now);
  }

  // ---- and only then -------------------------------------------------------------

  lemma {:induction false} FieldsHaveNo(s: string, c: char, x: char)
    requires x == c || x !in s
    ensures forall i :: 0 <= i < |Split(s, c)| ==> x !in Split(s, c)[i]
  {
    var i := IndexOf(s, c);
    assert s[..|s|] == s;
    hide IndexOf;
    if i < |s| {
      assert forall k :: i < k < |s| ==> s[i + 1..][k - i - 1] == s[k];
      FieldsHaveNo(s[i + 1..], c, x);
      var rest := Split(s[i + 1..], c);
      assert Split(s, c) == [s[..i]] + rest;
      assert x !in s[..i];
    }
  }

  lemma {:induction false} LinesHaveNoNewline(s: string)
    ensures forall i :: 0 <= i < |Lines(s)| ==> '\n' !in Lines(s)[i]
  {
    if s != [] {
      var i := IndexOf(s, '\n');
      if i == |s| {
        assert s[..i] == s;
      } else {
        LinesHaveNoNewline(s[i + 1..]);
      }
    }
  }

  lemma ParsedLineIsClean(line: string, now: nat)
    requires '\n' !in line && now < U64
    ensures
      var p := ParseLine(line, now);
      p.Some? ==> Clean(p.value.0) && Clean(p.value.1.id) && p.value.1.lastActive < U64
  {
    FieldsHaveNo(line, '\t', '\t');
    FieldsHaveNo(line, '\t', '\n');
  }

  lemma {:induction false} ParsedLinesAreClean(lines: seq<string>, now: nat)
    requires now < U64 && forall i :: 0 <= i < |lines| ==> '\n' !in lines[i]
    ensures WellFormed(ParseLines(lines, now))
  {
    hide ParseLine;
    if lines != [] {
      ParsedLinesAreClean(lines[..|lines| - 1], now);
      ParsedLineIsClean(lines[|lines| - 1], now);
    }
  }

  /** Whatever the file holds, what is loaded from it is well formed. */
  lemma ParseIsClean(s: string, now: nat)
    requires now < U64
    ensures WellFormed(Parse(s, now))
  {
    LinesHaveNoNewline(s);
    ParsedLinesAreClean(Lines(s), now);
  }

  /** The round trip holds exactly of the maps whose schemas and ids are non-empty
      and free of tabs and newlines. */
  lemma RoundTripExactly(m: Registry, order: seq<string>, now: nat)
    requires Enumerates(order, m) && now < U64
    ensures Parse(Written(m, order), now) == m <==> WellFormed(m)
  {
    hide Parse, Written;
    if WellFormed(m) {
      RoundTrip(m, order, now);
    } else {
      ParseIsClean(Written(m, order), now);
    }
  }

  /** Of two stretches of lines, the later one has the last word. */
  lemma {:induction false} ParseLinesConcat(a: seq<string>, b: seq<string>, now: nat)
    ensures ParseLines(a + b, now) == ParseLines(a, now) + ParseLines(b, now)
  {
    hide ParseLine;
    if b == [] {
      assert a + b == a;
    } else {
      var n := |b| - 1;
      assert (a + b)[..|a| + n] == a + b[..n];
      ParseLinesConcat(a, b[..n], now);
    }
  }

  lemma LegacyLine(schema: string, id: string, now: nat)
    requires Clean(schema) && Clean(id)
    ensures ParseLines([schema + "\t" + id], now) == map[schema := Rec(id, now, Live)]
  {
    var line := schema + ['\t'] + id;
    SplitFirst(schema, '\t', id);
    SplitWhole(id, '\t');
    assert [line][..0] == [];
  }

  /** A line of the older two-column format loads as live, active as of the load, whatever
      lines of either format come before and after it. */
  lemma LegacyLineLoads(before: string, schema: string, id: string, after: string, now: nat)
    requires before == "" || before[|before| - 1] == '\n'
    requires Clean(schema) && Clean(id) && id[|id| - 1] != '\r'
    ensures
      Parse(before + (schema + "\t" + id + "\n") + after, now)
      == Parse(before, now)[schema := Rec(id, now, Live)] + Parse(after, now)
  {
    hide ParseLines, Lines, Clean;
    var line := schema + "\t" + id;
    assert '\n' !in line && line != [] && line[|line| - 1] != '\r' by { LegacyIsOneLine(schema, id); }
    LinesAppend(before, line);
    assert before + (line + "\n") == before + line + "\n";
    LinesConcat(before + line + "\n", after);
    ParseLinesConcat(Lines(before), [line], now);
    ParseLinesConcat(Lines(before) + [line], Lines(after), now);
    LegacyLine(schema, id, now);
  }

  lemma LegacyIsOneLine(schema: string, id: string)
    requires Clean(schema) && Clean(id) && id[|id| - 1] != '\r'
    ensures var line := schema + "\t" + id; '\n' !in line && line != [] && line[|line| - 1] != '\r'
  {
  }
}
