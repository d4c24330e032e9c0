/**
 The provider throttle table: deadlines recorded, swept, released and reset
 under one lock, and mirrored to a file.
 */
module Throttle {
  import opened Common

  // ---- Moments and their text

  datatype Fields = Fields(year: nat, month: nat, day: nat, hour: nat, minute: nat, second: nat, micro: nat)

  predicate InRange(t: Fields) {
    && t.year < 10000 && t.month < 100 && t.day < 100
    && t.hour < 100 && t.minute < 100 && t.second < 100 && t.micro < 1000000
  }

  type Time = t: Fields | InRange(t) witness Fields(1970, 1, 1, 0, 0, 0, 0)

  /** Where a moment stands among the others. */
  function Rank(t: Time): int {
    (((((t.year * 100 + t.month) * 100 + t.day) * 100 + t.hour) * 100 + t.minute) * 100 + t.second) * 1000000
    + t.micro
  }

  function Power10(k: nat): nat {
    if k == 0 then 1 else 10 * Power10(k - 1)
  }

  /** `n` in `width` digits. */
  function Digits(n: nat, width: nat): (s: string)
    ensures |s| == width
  {
    if width == 0 then "" else Digits(n / 10, width - 1) + [('0' as int + n % 10) as char]
  }

  function Number(s: string): Option<nat>
    decreases |s|
  {
    if s == "" then Some(0)
    else
      var init, last := Number(s[..|s| - 1]), s[|s| - 1];
      if init.None? || last < '0' || last > '9' then None
      else Some(10 * init.value + (last as int - '0' as int))
  }

  lemma {:induction false} NumberOfDigits(n: nat, width: nat)
    requires n < Power10(width)
    ensures Number(Digits(n, width)) == Some(n)
    decreases width
  {
    if width > 0 {
      NumberOfDigits(n / 10, width - 1);
      assert Digits(n, width)[..width - 1] == Digits(n / 10, width - 1);
    }
  }

  /** A number of fixed width and the text before it. */
  datatype Place = Place(before: string, width: nat)

  const TO_SECONDS: seq<Place> :=
    [Place("", 4), Place("-", 2), Place("-", 2), Place("T", 2), Place(":", 2), Place(":", 2)]

  const TO_MICROSECONDS: seq<Place> := TO_SECONDS + [Place(".", 6)]

  function Written(numbers: seq<nat>, places: seq<Place>): string
    requires |numbers| == |places|
    decreases |places|
  {
    if places == [] then ""
    else places[0].before + Digits(numbers[0], places[0].width) + Written(numbers[1..], places[1..])
  }

  function ReadBack(s: string, places: seq<Place>): Option<seq<nat>>
    decreases |places|
  {
    if places == [] then if s == "" then Some([]) else None
    else
      var at, width := |places[0].before|, places[0].width;
      if |s| < at + width || s[..at] != places[0].before then None
      else
        var first, rest := Number(s[at..at + width]), ReadBack(s[at + width..], places[1..]);
        if first.None? || rest.None? then None else Some([first.value] + rest.value)
  }

  ghost predicate Fits(numbers: seq<nat>, places: seq<Place>) {
    |numbers| == |places| && forall i | 0 <= i < |places| :: numbers[i] < Power10(places[i].width)
  }

  lemma PartsOf(a: string, b: string, c: string)
    ensures (a + b + c)[..|a|] == a && (a + b + c)[|a|..|a| + |b|] == b && (a + b + c)[|a| + |b|..] == c
  {
  }

  /** What was written reads back. */
  lemma {:induction false} WrittenReadsBack(numbers: seq<nat>, places: seq<Place>)
    requires Fits(numbers, places)
    ensures ReadBack(Written(numbers, places), places) == Some(numbers)
    decreases |places|
  {
    if places != [] {
      var digits, rest := Digits(numbers[0], places[0].width), Written(numbers[1..], places[1..]);
      PartsOf(places[0].before, digits, rest);
      NumberOfDigits(numbers[0], places[0].width);
      WrittenReadsBack(numbers[1..], places[1..]);
      assert numbers == [numbers[0]] + numbers[1..];
    }
  }

  function WidthOf(places: seq<Place>): nat
    decreases |places|
  {
    if places == [] then 0 else |places[0].before| + places[0].width + WidthOf(places[1..])
  }

  lemma {:induction false} WrittenIsAsWide(numbers: seq<nat>, places: seq<Place>)
    requires |numbers| == |places|
    ensures |Written(numbers, places)| == WidthOf(places)
    decreases |places|
  {
    if places != [] {
      WrittenIsAsWide(numbers[1..], places[1..]);
    }
  }

  lemma {:induction false} ReadIsAsWide(s: string, places: seq<Place>)
    ensures ReadBack(s, places).Some? ==> |s| == WidthOf(places) && |ReadBack(s, places).value| == |places|
    decreases |places|
  {
    if places != [] && |s| >= |places[0].before| + places[0].width {
      ReadIsAsWide(s[|places[0].before| + places[0].width..], places[1..]);
    }
  }

  function Numbers(t: Time): seq<nat> {
    [t.year, t.month, t.day, t.hour, t.minute, t.second]
  }

  /** isoformat(): the microseconds only when there are any. */
  function Iso(t: Time): string {
    if t.micro == 0 then Written(Numbers(t), TO_SECONDS) else Written(Numbers(t) + [t.micro], TO_MICROSECONDS)
  }

  /** fromisoformat(), of what isoformat() writes. */
  function Parse(s: string): Option<Time> {
    var short, long := ReadBack(s, TO_SECONDS), ReadBack(s, TO_MICROSECONDS);
    if short.Some? then TimeOf(short.value) else if long.Some? then TimeOf(long.value) else None
  }

  function TimeOf(n: seq<nat>): Option<Time> {
    if |n| < 6 then None
    else
      var t := Fields(n[0], n[1], n[2], n[3], n[4], n[5], if |n| > 6 then n[6] else 0);
      if InRange(t) then Some(t) else None
  }

  lemma Powers()
    ensures Power10(2) == 100 && Power10(4) == 10000 && Power10(6) == 1000000
  {
    assert Power10(3) == 1000 && Power10(5) == 100000;
  }

  lemma Widths()
    ensures WidthOf(TO_SECONDS) != WidthOf(TO_MICROSECONDS)
  {
    WidthMore(TO_SECONDS, Place(".", 6));
  }

  lemma {:induction false} WidthMore(places: seq<Place>, last: Place)
    ensures WidthOf(places + [last]) == WidthOf(places) + |last.before| + last.width
    decreases |places|
  {
    if places == [] {
      assert places + [last] == [last] && [last][1..] == [];
    } else {
      assert (places + [last])[1..] == places[1..] + [last];
      WidthMore(places[1..], last);
    }
  }

  /** The text of a moment reads as that moment. */
  lemma IsoParses(t: Time)
    ensures Parse(Iso(t)) == Some(t)
  {
    Powers();
    if t.micro == 0 {
      WrittenReadsBack(Numbers(t), TO_SECONDS);
    } else {
      WrittenReadsBack(Numbers(t) + [t.micro], TO_MICROSECONDS);
      WrittenIsAsWide(Numbers(t) + [t.micro], TO_MICROSECONDS);
      ReadIsAsWide(Iso(t), TO_SECONDS);
      Widths();
    }
  }

  // ---- The file

  datatype Entry = Entry(reason: string, until: Time, description: string)

  type Table = map<string, Entry>

  /** A line is garbled when it is not the three values it should be. */
  datatype Line = Line(reason: string, until: string, description: string) | Garbled

  /** `Broken` is text that is not JSON. */
  datatype File = Missing | Blank | Broken | Json(lines: map<string, Line>)

  function LineOf(entry: Entry): Line {
    Line(entry.reason, Iso(entry.until), entry.description)
  }

  function Encode(table: Table): File {
    Json(map name | name in table :: LineOf(table[name]))
  }

  function ReadLine(line: Line): Option<Entry> {
    if line.Garbled? || Parse(line.until).None? then None
    else Some(Entry(line.reason, Parse(line.until).value, line.description))
  }

  /** Every line as it reads. */
  function AllRead(lines: map<string, Line>): map<string, Option<Entry>> {
    map name | name in lines :: ReadLine(lines[name])
  }

  function Entries(table: Table): map<string, Option<Entry>> {
    map name | name in table :: Some(table[name])
  }

  /** Every line of the file reads as the table's entry, and the table has no other. */
  ghost predicate Holds(file: File, table: Table) {
    match file
    case Json(lines) => AllRead(lines) == Entries(table)
    case Broken => false
    case _ => table == map[]
  }

  lemma LineReads(entry: Entry)
    ensures ReadLine(LineOf(entry)) == Some(entry)
  {
    IsoParses(entry.until);
  }

  lemma EncodedReads(table: Table)
    ensures AllRead(Encode(table).lines) == map name | name in table :: ReadLine(LineOf(table[name]))
  {
  }

  lemma LinesRead(table: Table)
    ensures (map name | name in table :: ReadLine(LineOf(table[name]))) == Entries(table)
  {
    forall name | name in table ensures ReadLine(LineOf(table[name])) == Some(table[name]) {
      LineReads(table[name]);
    }
  }

  lemma EncodeHolds(table: Table)
    ensures Holds(Encode(table), table)
  {
    EncodedReads(table);
    LinesRead(table);
  }

  /** The lines read in the order they stand, up to the first that cannot be read. */
  function Readable(read: map<string, Option<Entry>>, order: seq<string>): (n: nat)
    ensures n <= |order|
    ensures forall i | 0 <= i < n :: order[i] in read && read[order[i]].Some?
    ensures n < |order| ==> order[n] !in read || read[order[n]].None?
    decreases |order|
  {
    if order == [] || order[0] !in read || read[order[0]].None? then 0
    else 1 + Readable(read, order[1..])
  }

  function Kept(read: map<string, Option<Entry>>, order: seq<string>): Table {
    map name | name in read && name in order[..Readable(read, order)] && read[name].Some? :: read[name].value
  }

  /** The order lists the lines of the file. */
  ghost predicate Lists(file: File, order: seq<string>) {
    file.Json? ==> forall name :: name in file.lines <==> name in order
  }

  // ---- Steps: one for each locked section

  const CREDENTIAL_REASONS: set<string> := {"AuthenticationError", "ConfigurationError", "PaymentRequired"}

  /** `recorded` is history: the deadlines recorded for a provider since it was
      last removed. */
  datatype State = State(table: Table, file: File, recorded: map<string, seq<int>>)

  /** A sweep reads the clock twice for each provider it keeps. */
  datatype Reading = Reading(first: int, second: int)

  datatype Step =
    | Record(name: string, entry: Entry)
    | ReleaseOne(name: string, now: int)
    | Sweep(enabled: set<string>, clock: string -> Reading)
    | ResetOne(name: string)
    | ResetAll(onlyCredentials: bool)

  function Deadline(table: Table, name: string): int
    requires name in table
  {
    Rank(table[name].until)
  }

  /** The later deadline stays, with what came with it. */
  function Later(table: Table, name: string, entry: Entry): Entry {
    if name in table && Deadline(table, name) > Rank(entry.until) then table[name] else entry
  }

  predicate HasExpired(deadline: int, reading: Reading) {
    deadline <= reading.first || deadline <= reading.second
  }

  predicate IsSwept(table: Table, enabled: set<string>, clock: string -> Reading, name: string)
    requires name in table
  {
    name !in enabled || HasExpired(Deadline(table, name), clock(name))
  }

  predicate IsReset(table: Table, onlyCredentials: bool, name: string)
    requires name in table
  {
    !onlyCredentials || table[name].reason in CREDENTIAL_REASONS
  }

  function Gone(table: Table, step: Step): set<string> {
    match step
    case Record(_, _) => {}
    case ReleaseOne(name, now) => if name in table && Deadline(table, name) <= now then {name} else {}
    case Sweep(enabled, clock) => set name | name in table && IsSwept(table, enabled, clock, name)
    case ResetOne(name) => if name in table && table[name].reason in CREDENTIAL_REASONS then {name} else {}
    case ResetAll(only) => set name | name in table && IsReset(table, only, name)
  }

  /** The file is rewritten whenever the table changed, and by every reset of all. */
  function Next(s: State, step: Step): State {
    match step
    case Record(name, entry) =>
      var table := s.table[name := Later(s.table, name, entry)];
      var before := if name in s.recorded then s.recorded[name] else [];
      State(table, Encode(table), s.recorded[name := before + [Rank(entry.until)]])
    case _ =>
      var gone := Gone(s.table, step);
      if gone == {} && !step.ResetAll? then s
      else Dropped(s, gone)
  }

  function Run(s: State, steps: seq<Step>): State
    decreases |steps|
  {
    if steps == [] then s else Run(Next(s, steps[0]), steps[1..])
  }

  /** The providers `gone` forgotten, and the file written. */
  function Dropped(s: State, gone: set<string>): State {
    State(s.table - gone, Encode(s.table - gone), s.recorded - gone)
  }

  lemma DroppedTwice(s: State, gone: set<string>, name: string)
    ensures s.table - gone - {name} == s.table - (gone + {name})
    ensures s.recorded - gone - {name} == s.recorded - (gone + {name})
    ensures gone == {} ==> s.table - gone == s.table && s.recorded - gone == s.recorded
  {
  }

  /** What the process starts with. A file that cannot be read to its end is replaced by
      one of the lines before. */
  function Loaded(file: File, order: seq<string>): State {
    var table := if file.Json? then Kept(AllRead(file.lines), order) else map[];
    var toTheEnd := !file.Broken? && (file.Json? ==> Readable(AllRead(file.lines), order) == |order|);
    State(table, if toTheEnd then file else Encode(table), map name | name in table :: [Deadline(table, name)])
  }

  // ---- Deadlines

  ghost predicate IsMaximum(n: int, ns: seq<int>) {
    n in ns && forall m | m in ns :: m <= n
  }

  ghost predicate Inv(s: State) {
    Holds(s.file, s.table) && LatestRecorded(s.table, s.recorded)
  }

  ghost predicate LatestRecorded(table: Table, recorded: map<string, seq<int>>) {
    && recorded.Keys == table.Keys
    && (forall name | name in table :: IsMaximum(Deadline(table, name), recorded[name]))
  }

  lemma MaximumMore(n: int, ns: seq<int>, x: int)
    requires IsMaximum(n, ns)
    ensures IsMaximum(if n > x then n else x, ns + [x])
  {
    assert n in ns + [x] && x in ns + [x];
  }

  lemma RecordKeepsLatest(s: State, name: string, entry: Entry)
    requires LatestRecorded(s.table, s.recorded)
    ensures
      var after := Next(s, Record(name, entry));
      LatestRecorded(after.table, after.recorded)
  {
    var after := Next(s, Record(name, entry));
    forall other | other in after.table ensures IsMaximum(Deadline(after.table, other), after.recorded[other]) {
      if other == name {
        LaterIsMaximum(s, name, entry);
      } else {
        OthersAreAsBefore(s, name, entry, other);
      }
    }
  }

  lemma OthersAreAsBefore(s: State, name: string, entry: Entry, other: string)
    requires LatestRecorded(s.table, s.recorded) && other in s.table && other != name
    ensures
      var after := Next(s, Record(name, entry));
      other in after.recorded && IsMaximum(Deadline(after.table, other), after.recorded[other])
  {
  }

  lemma LaterIsMaximum(s: State, name: string, entry: Entry)
    requires LatestRecorded(s.table, s.recorded)
    ensures
      var after := Next(s, Record(name, entry));
      name in after.recorded && IsMaximum(Deadline(after.table, name), after.recorded[name])
  {
    var r := Rank(entry.until);
    if name in s.table {
      MaximumMore(Deadline(s.table, name), s.recorded[name], r);
    } else {
      assert IsMaximum(r, [] + [r]);
    }
  }

  lemma RecordKeeps(s: State, name: string, entry: Entry)
    requires Inv(s)
    ensures Inv(Next(s, Record(name, entry)))
  {
    EncodeHolds(Next(s, Record(name, entry)).table);
    RecordKeepsLatest(s, name, entry);
  }

  lemma StepKeeps(s: State, step: Step)
    requires Inv(s)
    ensures Inv(Next(s, step))
  {
    if step.Record? {
      RecordKeeps(s, step.name, step.entry);
    } else {
      EncodeHolds(Next(s, step).table);
    }
  }

  /** Over every run: the file holds exactly the table, and a provider's deadline
      is the latest recorded since it was last removed. */
  lemma {:induction false} DeadlinesAreMaxima(s: State, steps: seq<Step>)
    requires Inv(s)
    ensures Inv(Run(s, steps))
    decreases |steps|
  {
    if steps != [] {
      StepKeeps(s, steps[0]);
      DeadlinesAreMaxima(Next(s, steps[0]), steps[1..]);
    }
  }

  lemma KeptAreReadable(read: map<string, Option<Entry>>, order: seq<string>)
    ensures ReadUpTo(read, order, Readable(read, order), Kept(read, order))
  {
    var n := Readable(read, order);
    forall name | name in order[..n] ensures name in Kept(read, order) {
      var i :| 0 <= i < n && order[i] == name;
    }
  }

  /** The entries of the first `n` lines. */
  ghost predicate ReadUpTo(read: map<string, Option<Entry>>, order: seq<string>, n: nat, table: Table) {
    && n <= |order|
    && (forall name :: name in table <==> name in order[..n])
    && (forall name | name in table :: name in read && read[name] == Some(table[name]))
  }

  /** Whatever the file was, the process starts with table and file in agreement, and
      with the entries of exactly the lines before the first it cannot read. */
  lemma LoadedIsSound(file: File, order: seq<string>)
    requires Lists(file, order)
    ensures Inv(Loaded(file, order))
    ensures
      if file.Json? then
        var read := AllRead(file.lines);
        ReadUpTo(read, order, Readable(read, order), Loaded(file, order).table)
      else Loaded(file, order).table == map[]
    ensures
      var toTheEnd := match file
        case Json(lines) => forall name | name in lines :: ReadLine(lines[name]).Some?
        case _ => !file.Broken?;
      Loaded(file, order).file == if toTheEnd then file else Encode(Loaded(file, order).table)
  {
    LoadedHolds(file, order);
    LoadedIsLatest(file, order);
    if file.Json? {
      KeptAreReadable(AllRead(file.lines), order);
      ReadToTheEnd(file.lines, order);
    }
  }

  lemma ReadToTheEnd(lines: map<string, Line>, order: seq<string>)
    requires forall name :: name in lines <==> name in order
    ensures
      Readable(AllRead(lines), order) == |order| <==> forall name | name in lines :: ReadLine(lines[name]).Some?
  {
    var n := Readable(AllRead(lines), order);
    if n == |order| {
      forall name | name in lines ensures ReadLine(lines[name]).Some? {
        var i :| 0 <= i < |order| && order[i] == name;
      }
    } else {
      assert order[n] in lines;
    }
  }

  lemma AllKept(read: map<string, Option<Entry>>, order: seq<string>)
    requires Readable(read, order) == |order| && forall name :: name in read <==> name in order
    ensures Entries(Kept(read, order)) == read
  {
    KeptAreReadable(read, order);
    assert order[..|order|] == order;
  }

  lemma LoadedHolds(file: File, order: seq<string>)
    requires Lists(file, order)
    ensures Holds(Loaded(file, order).file, Loaded(file, order).table)
  {
    EncodeHolds(Loaded(file, order).table);
    if file.Json? && Readable(AllRead(file.lines), order) == |order| {
      assert AllRead(file.lines).Keys == file.lines.Keys;
      AllKept(AllRead(file.lines), order);
    }
  }

  lemma LoadedIsLatest(file: File, order: seq<string>)
    ensures LatestRecorded(Loaded(file, order).table, Loaded(file, order).recorded)
  {
    var s := Loaded(file, order);
    forall name | name in s.table ensures IsMaximum(Deadline(s.table, name), s.recorded[name]) {
      assert s.recorded[name] == [Deadline(s.table, name)];
    }
  }

  // ---- What lifts a backoff

  /** The step lifts the backoff `entry` of the provider. */
  predicate Lifts(step: Step, name: string, entry: Entry) {
    match step
    case Record(_, _) => false
    case ReleaseOne(n, now) => n == name && Rank(entry.until) <= now
    case Sweep(enabled, clock) => name !in enabled || HasExpired(Rank(entry.until), clock(name))
    case ResetOne(n) => n == name && entry.reason in CREDENTIAL_REASONS
    case ResetAll(only) => only ==> entry.reason in CREDENTIAL_REASONS
  }

  /** Which backoffs are left, step by step: a record adds its own, with the later of the two
      deadlines and what came with it; a release and a sweep take exactly what is no longer
      to come when they look, a sweep also what is not enabled; a reset of one provider
      takes its credential backoff, one of all takes all or all of those. */
  lemma StepsLeaveExactly(s: State, step: Step, name: string)
    ensures
      var after := Next(s, step).table;
      match step
      case Record(n, entry) =>
        if n != name then (name in after <==> name in s.table) && (name in after ==> after[name] == s.table[name])
        else
          && name in after
          && after[name] == if name in s.table && Rank(s.table[name].until) > Rank(entry.until) then s.table[name]
                            else entry
      case ReleaseOne(n, now) =>
        name in after <==> name in s.table && (n == name ==> now < Rank(s.table[name].until))
      case Sweep(enabled, clock) =>
        name in after
        <==> && name in s.table && name in enabled
             && clock(name).first < Rank(s.table[name].until) && clock(name).second < Rank(s.table[name].until)
      case ResetOne(n) =>
        name in after
        <==> name in s.table
             && (n == name ==>
                   s.table[name].reason !in {"AuthenticationError", "ConfigurationError", "PaymentRequired"})
      case ResetAll(only) =>
        name in after
        <==> name in s.table && only
             && s.table[name].reason !in {"AuthenticationError", "ConfigurationError", "PaymentRequired"}
    ensures !step.Record? && name in Next(s, step).table ==> Next(s, step).table[name] == s.table[name]
    ensures
      var after := Next(s, step);
      after.file == if step.Record? || step.ResetAll? || after.table != s.table then Encode(after.table) else s.file
  {
    if !step.Record? && name in s.table {
      GoneAreLifted(s.table, step, name);
      RemainAsTheyWere(s, step, name);
    }
  }

  /** Exactly when a step removes a backoff; otherwise its deadline only grows. */
  lemma RemovalHasACause(s: State, step: Step, name: string)
    requires name in s.table
    ensures name !in Next(s, step).table <==> Lifts(step, name, s.table[name])
    ensures name in Next(s, step).table ==> Deadline(Next(s, step).table, name) >= Deadline(s.table, name)
  {
    if !step.Record? {
      GoneAreLifted(s.table, step, name);
      RemainAsTheyWere(s, step, name);
    }
  }

  lemma GoneAreLifted(table: Table, step: Step, name: string)
    requires name in table
    ensures name in Gone(table, step) <==> Lifts(step, name, table[name])
  {
  }

  lemma RemainAsTheyWere(s: State, step: Step, name: string)
    requires !step.Record? && name in s.table
    ensures name in Next(s, step).table <==> name !in Gone(s.table, step)
    ensures name in Next(s, step).table ==> Next(s, step).table[name] == s.table[name]
  {
  }

  /** No step of the run lifts the backoff it finds. */
  predicate NothingLifts(s: State, steps: seq<Step>, name: string)
    decreases |steps|
  {
    steps == [] ||
    ((name in s.table ==> !Lifts(steps[0], name, s.table[name])) && NothingLifts(Next(s, steps[0]), steps[1..], name))
  }

  /** Main theorem: over every run a backoff stays, with a deadline that only grows, as
      long as no step finds it expired or its provider not enabled, or is a reset that
      covers it. */
  lemma {:induction false} OnlyAResetLiftsABackoff(s: State, steps: seq<Step>, name: string)
    requires name in s.table && NothingLifts(s, steps, name)
    ensures name in Run(s, steps).table && Deadline(Run(s, steps).table, name) >= Deadline(s.table, name)
    decreases |steps|
  {
    if steps != [] {
      RemovalHasACause(s, steps[0], name);
      OnlyAResetLiftsABackoff(Next(s, steps[0]), steps[1..], name);
    }
  }

  /** The provider has a backoff in every state of the run. */
  predicate ThereThroughout(s: State, steps: seq<Step>, name: string)
    decreases |steps|
  {
    name in s.table && (steps == [] || ThereThroughout(Next(s, steps[0]), steps[1..], name))
  }

  /** And it goes at the very step that lifts it. */
  lemma {:induction false} GoneWhenLifted(s: State, steps: seq<Step>, name: string)
    requires name in s.table
    ensures ThereThroughout(s, steps, name) <==> NothingLifts(s, steps, name)
    decreases |steps|
  {
    if steps != [] {
      RemovalHasACause(s, steps[0], name);
      if name in Next(s, steps[0]).table {
        GoneWhenLifted(Next(s, steps[0]), steps[1..], name);
      }
    }
  }

  /** Whatever the tables hold by then, the step cannot lift a backoff of the provider
      that lasts until `until` and has one of these reasons. */
  predicate Spares(step: Step, name: string, until: int, reasons: set<string>) {
    match step
    case Record(_, _) => true
    case ReleaseOne(n, now) => n == name ==> now < until
    case Sweep(enabled, clock) => name in enabled && !HasExpired(until, clock(name))
    case ResetOne(n) => n == name ==> reasons !! CREDENTIAL_REASONS
    case ResetAll(only) => only && reasons !! CREDENTIAL_REASONS
  }

  /** The reasons of the backoffs the run records for the provider. */
  function ReasonsRecorded(steps: seq<Step>, name: string): set<string>
    decreases |steps|
  {
    if steps == [] then {}
    else
      (if steps[0].Record? && steps[0].name == name then {steps[0].entry.reason} else {})
      + ReasonsRecorded(steps[1..], name)
  }

  lemma SparedIsNotLifted(step: Step, name: string, entry: Entry, until: int, reasons: set<string>)
    requires Spares(step, name, until, reasons) && until <= Rank(entry.until) && entry.reason in reasons
    ensures !Lifts(step, name, entry)
  {
  }

  /** Main theorem, told from the steps alone: a backoff stays over every run in which,
      before its deadline, only resets of other providers or for other reasons come. */
  lemma {:induction false} UnexpiredBackoffStays(
      s: State, steps: seq<Step>, name: string, until: int, reasons: set<string>)
    requires name in s.table && until <= Deadline(s.table, name)
    requires reasons >= {s.table[name].reason} + ReasonsRecorded(steps, name)
    requires forall i | 0 <= i < |steps| :: Spares(steps[i], name, until, reasons)
    ensures name in Run(s, steps).table && Deadline(Run(s, steps).table, name) >= Deadline(s.table, name)
    ensures Run(s, steps).table[name].reason in reasons
    decreases |steps|
  {
    if steps != [] {
      SparedIsNotLifted(steps[0], name, s.table[name], until, reasons);
      RemovalHasACause(s, steps[0], name);
      ReasonIsKnown(s, steps[0], name);
      UnexpiredBackoffStays(Next(s, steps[0]), steps[1..], name, until, reasons);
    }
  }

  lemma ReasonIsKnown(s: State, step: Step, name: string)
    requires name in s.table && name in Next(s, step).table
    ensures
      var reason := Next(s, step).table[name].reason;
      reason == s.table[name].reason || (step.Record? && step.name == name && step.entry.reason == reason)
  {
  }

  // ---- The reader among recorders and sweepers

  /** One provider of the reader's pass: what others do before it looks, when it looks,
      what they do before it decides with the lock held, and when it decides. */
  datatype Visit = Visit(before: seq<Step>, asked: int, between: seq<Step>, decided: int)

  /** The provider may be used, or not. */
  function Visited(s: State, name: string, v: Visit): (State, bool) {
    var seen := Run(s, v.before);
    if name !in seen.table then (seen, true)
    else if v.asked < Deadline(seen.table, name) then (seen, false)
    else
      var decided := Run(seen, v.between);
      (Next(decided, ReleaseOne(name, v.decided)),
       name !in decided.table || Deadline(decided.table, name) <= v.decided)
  }

  function Pass(s: State, configured: seq<string>, visits: seq<Visit>): (State, seq<string>)
    requires |visits| == |configured|
    decreases |configured|
  {
    if configured == [] then (s, [])
    else
      var last := |configured| - 1;
      var (earlier, list) := Pass(s, configured[..last], visits[..last]);
      var (after, usable) := Visited(earlier, configured[last], visits[last]);
      (after, if usable then list + [configured[last]] else list)
  }

  /** The reader lets a provider be used exactly when it leaves no backoff of it, and
      turns one down only on a deadline that was still to come when it looked. One it finds
      free, or still backed off, it leaves without taking the lock. */
  lemma VisitDecides(s: State, name: string, v: Visit)
    ensures
      var (after, usable) := Visited(s, name, v);
      && (usable <==> name !in after.table)
      && (!usable ==> v.asked < Deadline(after.table, name) || v.decided < Deadline(after.table, name))
    ensures
      var seen := Run(s, v.before);
      name !in seen.table || v.asked < Deadline(seen.table, name) ==> Visited(s, name, v).0 == seen
  {
  }

  /** A pass is a run of locked sections, so what every run keeps it keeps. */
  lemma {:induction false} PassKeeps(s: State, configured: seq<string>, visits: seq<Visit>)
    requires |visits| == |configured| && Inv(s)
    ensures Inv(Pass(s, configured, visits).0)
    decreases |configured|
  {
    if configured != [] {
      var last := |configured| - 1;
      PassKeeps(s, configured[..last], visits[..last]);
      var earlier := Pass(s, configured[..last], visits[..last]).0;
      VisitKeeps(earlier, configured[last], visits[last]);
    }
  }

  lemma VisitKeeps(s: State, name: string, v: Visit)
    requires Inv(s)
    ensures Inv(Visited(s, name, v).0)
  {
    DeadlinesAreMaxima(s, v.before);
    DeadlinesAreMaxima(Run(s, v.before), v.between);
    StepKeeps(Run(Run(s, v.before), v.between), ReleaseOne(name, v.decided));
  }

  /** The i-th provider has no backoff left after its own visit. */
  predicate FreeAfterVisit(s: State, configured: seq<string>, visits: seq<Visit>, i: nat)
    requires i < |configured| == |visits|
  {
    configured[i] !in Visited(Pass(s, configured[..i], visits[..i]).0, configured[i], visits[i]).0.table
  }

  function FreeOnes(s: State, configured: seq<string>, visits: seq<Visit>): seq<bool>
    requires |configured| == |visits|
  {
    seq(|configured|, i requires 0 <= i < |configured| => FreeAfterVisit(s, configured, visits, i))
  }

  /** The places of `true` among the first `n`. */
  function Places(flags: seq<bool>, n: nat): (at: seq<nat>)
    requires n <= |flags|
    ensures forall i: nat | i < |flags| :: i in at <==> i < n && flags[i]
    ensures forall j, k | 0 <= j < k < |at| :: at[j] < at[k]
    ensures forall j | 0 <= j < |at| :: at[j] < n
  {
    if n == 0 then [] else Places(flags, n - 1) + if flags[n - 1] then [n - 1] else []
  }

  function AtPlaces(configured: seq<string>, at: seq<nat>): seq<string>
    requires forall j | 0 <= j < |at| :: at[j] < |configured|
  {
    seq(|at|, j requires 0 <= j < |at| => configured[at[j]])
  }

  /** The list the reader gives holds the providers it may use, in the order they are
      configured: those that have no backoff left after their own visit. */
  lemma {:induction false} PassListsTheFree(s: State, configured: seq<string>, visits: seq<Visit>, n: nat)
    requires n <= |configured| == |visits|
    ensures
      Pass(s, configured[..n], visits[..n]).1 == AtPlaces(configured, Places(FreeOnes(s, configured, visits), n))
    decreases n
  {
    if n > 0 {
      var last := n - 1;
      PassListsTheFree(s, configured, visits, last);
      PassOneMore(s, configured, visits, last);
      VisitDecides(Pass(s, configured[..last], visits[..last]).0, configured[last], visits[last]);
    }
  }

  lemma PassOneMore(s: State, configured: seq<string>, visits: seq<Visit>, i: nat)
    requires i < |configured| == |visits|
    ensures
      var (earlier, list) := Pass(s, configured[..i], visits[..i]);
      var (after, usable) := Visited(earlier, configured[i], visits[i]);
      Pass(s, configured[..i + 1], visits[..i + 1]) == (after, if usable then list + [configured[i]] else list)
  {
    assert configured[..i + 1][..i] == configured[..i] && visits[..i + 1][..i] == visits[..i];
  }

  // ---- The table and the file in place

  /** The lines are read in the order they stand; the first that cannot be read ends it. */
  method Load(file: File, order: seq<string>) returns (providers: Table)
    requires Lists(file, order)
    ensures providers == Loaded(file, order).table
  {
    providers := map[];
    if !file.Json? {
      return;
    }
    var read := AllRead(file.lines);
    var i := 0;
    while i < |order| && read[order[i]].Some?
      invariant 0 <= i <= Readable(read, order)
      invariant ReadUpTo(read, order, i, providers)
    {
      ReadOneMore(read, order, i, providers);
      providers := providers[order[i] := read[order[i]].value];
      i := i + 1;
    }
    KeptAreReadable(read, order);
    ReadUpToIsOne(read, order, i, providers, Kept(read, order));
  }

  lemma ReadUpToIsOne(read: map<string, Option<Entry>>, order: seq<string>, n: nat, a: Table, b: Table)
    requires ReadUpTo(read, order, n, a) && ReadUpTo(read, order, n, b)
    ensures a == b
  {
  }

  lemma ReadOneMore(read: map<string, Option<Entry>>, order: seq<string>, n: nat, table: Table)
    requires n < |order| && ReadUpTo(read, order, n, table)
    requires order[n] in read && read[order[n]].Some?
    ensures ReadUpTo(read, order, n + 1, table[order[n] := read[order[n]].value])
  {
    assert order[..n + 1] == order[..n] + [order[n]];
  }

  class Throttles {
    var table: Table
    var file: File
    ghost var recorded: map<string, seq<int>>

    ghost function Contents(): State
      reads this
    {
      State(table, file, recorded)
    }

    constructor (file: File, order: seq<string>)
      requires Lists(file, order)
      ensures Contents() == Loaded(file, order) && Inv(Contents())
    {
      var table := Load(file, order);
      this.table := table;
      this.file := Loaded(file, order).file;
      this.recorded := Loaded(file, order).recorded;
      new;
      LoadedIsSound(file, order);
    }

    method WriteFile()
      modifies this`file
      ensures file == Encode(table)
    {
      file := Encode(table);
    }

    method RecordBackoff(name: string, entry: Entry)
      modifies this
      ensures Contents() == Next(old(Contents()), Record(name, entry))
    {
      var kept := entry;
      if name in table && Deadline(table, name) > Rank(entry.until) {
        kept := table[name];
      }
      table := table[name := kept];
      recorded := recorded[name := (if name in recorded then recorded[name] else []) + [Rank(entry.until)]];
      WriteFile();
    }

    /** Forget the provider, in the table and in the history. */
    method Drop(name: string)
      modifies this`table, this`recorded
      ensures table == old(table) - {name} && recorded == old(recorded) - {name}
    {
      table := table - {name};
      recorded := recorded - {name};
    }

    /** The reader's decision with the lock held. True when the provider may be used. */
    method ReleaseIfExpired(name: string, now: int) returns (usable: bool)
      modifies this
      ensures Contents() == Next(old(Contents()), ReleaseOne(name, now))
      ensures usable <==> name !in old(table) || Deadline(old(table), name) <= now
    {
      if name in table && now < Deadline(table, name) {
        return false;
      }
      if name in table {
        Drop(name);
        WriteFile();
      }
      usable := true;
    }

    /** What other threads do meanwhile. */
    method Others(steps: seq<Step>)
      modifies this
      ensures Contents() == Run(old(Contents()), steps)
    {
      var i := 0;
      while i < |steps|
        invariant 0 <= i <= |steps|
        invariant Run(Contents(), steps[i..]) == Run(old(Contents()), steps)
      {
        assert steps[i..][0] == steps[i] && steps[i..][1..] == steps[i + 1..];
        Take(steps[i]);
        i := i + 1;
      }
    }

    method Take(step: Step)
      modifies this
      ensures Contents() == Next(old(Contents()), step)
    {
      match step {
        case Record(name, entry) => RecordBackoff(name, entry);
        case ReleaseOne(name, now) =>
          var usable := ReleaseIfExpired(name, now);
        case Sweep(enabled, clock) => SweepExpired(enabled, clock);
        case ResetOne(name) =>
          var dropped := ResetProvider(name);
        case ResetAll(only) => ResetProviders(only);
      }
    }

    /** One provider of the pass. */
    method Decide(name: string, v: Visit) returns (usable: bool)
      modifies this
      ensures (Contents(), usable) == Visited(old(Contents()), name, v)
    {
      Others(v.before);
      if name !in table {
        return true;
      }
      if v.asked < Deadline(table, name) {
        return false;
      }
      Others(v.between);
      usable := ReleaseIfExpired(name, v.decided);
    }

    /** The providers that may be used, in the order they are configured, or None when
        there is none; other threads act at any point of the pass. */
    method GetProviders(configured: seq<string>, visits: seq<Visit>) returns (usable: Option<seq<string>>)
      requires Inv(Contents()) && |visits| == |configured|
      modifies this
      ensures Inv(Contents())
      ensures
        var (after, list) := Pass(old(Contents()), configured, visits);
        Contents() == after && usable == if list == [] then None else Some(list)
    {
      PassKeeps(Contents(), configured, visits);
      var list: seq<string> := [];
      var i := 0;
      while i < |configured|
        invariant 0 <= i <= |configured|
        invariant (Contents(), list) == Pass(old(Contents()), configured[..i], visits[..i])
      {
        PassOneMore(old(Contents()), configured, visits, i);
        var ok := Decide(configured[i], visits[i]);
        if ok {
          list := list + [configured[i]];
        }
        i := i + 1;
      }
      assert configured[..i] == configured && visits[..i] == visits;
      usable := if list == [] then None else Some(list);
    }

    /** Held under the lock throughout; the clock is read anew for each provider. */
    method SweepExpired(enabled: set<string>, clock: string -> Reading)
      modifies this
      ensures Contents() == Next(old(Contents()), Sweep(enabled, clock))
    {
      var left := table.Keys;
      ghost var before := Contents();
      ghost var gone: set<string> := {};
      while left != {}
        invariant left <= before.table.Keys
        invariant forall n ::
          n in gone <==> n in before.table && n !in left && IsSwept(before.table, enabled, clock, n)
        invariant Contents() == if gone == {} then before else Dropped(before, gone)
        decreases |left|
      {
        var name := AnyOf(left);
        left := left - {name};
        assert name !in gone && table[name] == before.table[name];
        DroppedTwice(before, gone, name);
        var swept := SweepOne(name, enabled, clock(name));
        gone := if swept then gone + {name} else gone;
      }
      assert gone == Gone(before.table, Sweep(enabled, clock));
    }

    /** One provider of the sweep, with the first and the second look at the clock. */
    method SweepOne(name: string, enabled: set<string>, reading: Reading) returns (swept: bool)
      requires name in table
      modifies this
      ensures swept <==> name !in enabled || HasExpired(Deadline(old(table), name), reading)
      ensures Contents() == if swept then Dropped(old(Contents()), {name}) else old(Contents())
    {
      swept := false;
      if name !in enabled {
        Drop(name);
        WriteFile();
        swept := true;
      }
      if name in table && Deadline(table, name) <= reading.first {
        Drop(name);
        WriteFile();
        swept := true;
      }
      if name in table && Deadline(table, name) <= reading.second {
        Drop(name);
        WriteFile();
        swept := true;
      }
    }

    method ResetProvider(name: string) returns (dropped: bool)
      modifies this
      ensures Contents() == Next(old(Contents()), ResetOne(name))
      ensures dropped <==> name in old(table) && old(table)[name].reason in CREDENTIAL_REASONS
    {
      if name !in table || table[name].reason !in CREDENTIAL_REASONS {
        return false;
      }
      Drop(name);
      WriteFile();
      dropped := true;
    }

    method ResetProviders(onlyCredentials: bool)
      modifies this
      ensures Contents() == Next(old(Contents()), ResetAll(onlyCredentials))
    {
      var left := table.Keys;
      ghost var before := Contents();
      ghost var gone: set<string> := {};
      while left != {}
        invariant left <= before.table.Keys
        invariant forall n ::
          n in gone <==> n in before.table && n !in left && IsReset(before.table, onlyCredentials, n)
        invariant table == before.table - gone && recorded == before.recorded - gone
        decreases |left|
      {
        var name := AnyOf(left);
        left := left - {name};
        assert name !in gone && table[name] == before.table[name];
        if IsReset(table, onlyCredentials, name) {
          Drop(name);
          DroppedTwice(before, gone, name);
          gone := gone + {name};
        }
      }
      assert gone == Gone(before.table, ResetAll(onlyCredentials));
      WriteFile();
    }
  }
}
