/**
  The passenger and cargo readings that survive a GSX counter reset and a save
  (`PassengerCounter` and `CargoPercentReading` in `GsxStateService.cpp`).
*/
module Counters {
  import opened Options
  import opened MemoryBags

  const LARGEST_SAVED_COUNT := 1000000
  const LARGEST_SAVED_PERCENT := 100.0

  // ----- The passenger counter -----

  datatype Counter = Counter(last: int, total: int, counting: bool, moved: bool, grown: bool)

  const FRESH := Counter(0, 0, false, false, false)

  function Reported(c: Counter): int {
    if c.moved then c.total + c.last else 0
  }

  /** The counter after a reading arrived. */
  function Counted(c: Counter, current: int, active: bool, foundUnderway: bool): Counter {
    if !c.counting then
      if active then Counter(current, c.total, true, c.moved || foundUnderway, if foundUnderway then current > 0 else c.grown)
      else c
    else if !c.moved && current == c.last then c
    else
      Counter(current,
              if current < c.last && c.grown then c.total + c.last else c.total,
              true,
              true,
              if current < c.last then current > 0 else c.grown || current > c.last)
  }

  /** What the update reports to its caller. */
  function Answer(c: Counter, current: int, active: bool, foundUnderway: bool): int {
    if c.counting then Reported(Counted(c, current, active, foundUnderway))
    else if active && foundUnderway then current
    else 0
  }

  class PassengerCounter {
    var last: int
    var total: int
    var counting: bool
    var moved: bool
    var grown: bool

    function View(): Counter
      reads this
    {
      Counter(last, total, counting, moved, grown)
    }

    constructor ()
      ensures View() == FRESH
    {
      last, total, counting, moved, grown := 0, 0, false, false, false;
    }

    method Update(current: int, active: bool, foundUnderway: bool) returns (report: int)
      modifies this
      ensures View() == Counted(old(View()), current, active, foundUnderway)
      ensures report == Answer(old(View()), current, active, foundUnderway)
    {
      if !counting {
        if !active {
          return 0;
        }
        counting, last := true, current;
        if foundUnderway {
          moved, grown := true, current > 0;
          return current;
        }
        return 0;
      }
      if !moved {
        if current == last {
          return 0;
        }
        moved := true;
      }
      if current < last {
        if grown {
          total := total + last;
        }
        grown := current > 0;
      } else if current > last {
        grown := true;
      }
      last := current;
      return total + current;
    }
  }

  /** What one poll of the counter finds: no value yet, or a value with the service's state. */
  datatype Poll = Absent | Value(current: int, active: bool, foundUnderway: bool)

  function Polled(c: Counter, poll: Poll): Counter {
    match poll
    case Absent => c
    case Value(current, active, foundUnderway) => Counted(c, current, active, foundUnderway)
  }

  function After(c: Counter, polls: seq<Poll>): Counter {
    if polls == [] then c else Polled(After(c, polls[..|polls| - 1]), polls[|polls| - 1])
  }

  // The closed form, stated on the readings alone.

  /** The readings from the first one taken while the service was active. */
  function Readings(polls: seq<Poll>): seq<int> {
    if polls == [] then []
    else
      var before := Readings(polls[..|polls| - 1]);
      match polls[|polls| - 1]
      case Absent => before
      case Value(current, active, _) => if before != [] || active then before + [current] else []
  }

  /** Whether the service was found already under way when counting began. */
  function FoundUnderway(polls: seq<Poll>): bool {
    if polls == [] then false
    else
      var before := polls[..|polls| - 1];
      match polls[|polls| - 1]
      case Absent => FoundUnderway(before)
      case Value(_, active, found) => if Readings(before) != [] then FoundUnderway(before) else active && found
  }

  predicate HasMoved(found: bool, readings: seq<int>) {
    readings != [] && (found || exists i | 0 < i < |readings| :: readings[i] != readings[0])
  }

  /** What a step adds: the growth, or the whole new value when the counter restarted from zero. */
  function Increment(before: int, now: int): int {
    if now >= before then now - before else now
  }

  function Increments(readings: seq<int>): int {
    if |readings| < 2 then 0
    else Increments(readings[..|readings| - 1]) + Increment(readings[|readings| - 2], readings[|readings| - 1])
  }

  /** The readings first leave their initial value upwards. */
  predicate FirstMovesUp(readings: seq<int>) {
    exists i | 0 < i < |readings| :: MovesUpAt(readings, i)
  }

  predicate MovesUpAt(readings: seq<int>, i: nat)
    requires i < |readings|
  {
    readings[i] > readings[0] && forall j | 0 < j < i :: readings[j] == readings[0]
  }

  function Base(found: bool, readings: seq<int>): int {
    if readings != [] && (found || FirstMovesUp(readings)) then readings[0] else 0
  }

  function ClosedForm(found: bool, readings: seq<int>): int {
    if HasMoved(found, readings) then Base(found, readings) + Increments(readings) else 0
  }

  predicate AreNotNegative(readings: seq<int>) {
    forall i | 0 <= i < |readings| :: readings[i] >= 0
  }

  /** The counter rose since it last restarted, or restarted above zero: the next drop is a restart too. */
  predicate HasGrown(found: bool, readings: seq<int>) {
    if readings == [] then false
    else
      var before, last := readings[..|readings| - 1], readings[|readings| - 1];
      if before == [] then found && last > 0
      else if last < before[|before| - 1] then last > 0
      else last > before[|before| - 1] || HasGrown(found, before)
  }

  /** A drop below a value that is no restart: what was lost by it is not part of the closed form. */
  predicate SinksAt(found: bool, readings: seq<int>, i: nat) {
    0 < i < |readings| && HasMoved(found, readings[..i]) && !HasGrown(found, readings[..i]) && readings[i] < readings[i - 1] < 0
  }

  /** What the report has more than the closed form. */
  function Excess(found: bool, readings: seq<int>): int {
    if |readings| < 2 then 0
    else Excess(found, readings[..|readings| - 1])
         + if SinksAt(found, readings, |readings| - 1) then -readings[|readings| - 2] else 0
  }

  /** The counter that a history of readings leaves. */
  function CounterOf(found: bool, readings: seq<int>): Counter {
    if readings == [] then FRESH
    else
      var last := readings[|readings| - 1];
      var moved := HasMoved(found, readings);
      Counter(last, if moved then ClosedForm(found, readings) + Excess(found, readings) - last else 0, true, moved, HasGrown(found, readings))
  }

  lemma {:induction false} UnmovedReadings(found: bool, readings: seq<int>)
    requires readings != [] && !HasMoved(found, readings)
    ensures Increments(readings) == 0 && Excess(found, readings) == 0 && !HasGrown(found, readings)
  {
    if |readings| > 1 {
      var before := readings[..|readings| - 1];
      assert readings[|readings| - 1] == readings[0] == readings[|readings| - 2];
      UnmovedReadings(found, before);
    }
  }

  lemma {:induction false} UngrownIsNotPositive(found: bool, readings: seq<int>)
    requires HasMoved(found, readings) && !HasGrown(found, readings)
    ensures readings[|readings| - 1] <= 0
  {
    if |readings| > 1 {
      var before, last := readings[..|readings| - 1], readings[|readings| - 1];
      assert readings == before + [last];
      MovedStaysMoved(found, before, last);
      if last == before[|before| - 1] {
        UngrownIsNotPositive(found, before);
      }
    }
  }

  lemma MovedStaysMoved(found: bool, readings: seq<int>, current: int)
    requires readings != []
    ensures HasMoved(found, readings + [current]) <==> HasMoved(found, readings) || current != readings[|readings| - 1]
  {
    var more := readings + [current];
    if HasMoved(found, readings) && !found {
      var i :| 0 < i < |readings| && readings[i] != readings[0];
      assert more[i] != more[0];
    }
    if current != readings[|readings| - 1] && !HasMoved(found, readings) {
      assert more[|readings|] != more[0];
    }
  }

  lemma BaseIsDecidedByTheFirstMove(found: bool, readings: seq<int>, current: int)
    requires readings != []
    ensures HasMoved(found, readings) ==> Base(found, readings + [current]) == Base(found, readings)
    ensures !HasMoved(found, readings) ==> (FirstMovesUp(readings + [current]) <==> current > readings[0])
  {
    var more := readings + [current];
    forall i: nat | 0 < i < |readings| ensures MovesUpAt(more, i) <==> MovesUpAt(readings, i) {
      assert forall j | 0 <= j <= i :: more[j] == readings[j];
    }
    assert !HasMoved(found, readings) ==> (MovesUpAt(more, |readings|) <==> current > readings[0]);
    if HasMoved(found, readings) && !found && MovesUpAt(more, |readings|) {
      assert forall j | 0 < j < |readings| :: readings[j] == more[j] == readings[0];
    }
  }

  /** How a further reading changes the parts of the closed form. */
  lemma PartsOfOneMore(found: bool, readings: seq<int>, current: int)
    requires readings != []
    ensures var more, last := readings + [current], readings[|readings| - 1];
            && Increments(more) == Increments(readings) + Increment(last, current)
            && Excess(found, more) == Excess(found, readings)
                                      + (if HasMoved(found, readings) && !HasGrown(found, readings) && current < last < 0 then -last else 0)
            && HasGrown(found, more) == if current < last then current > 0 else current > last || HasGrown(found, readings)
  {
    assert (readings + [current])[..|readings|] == readings;
  }

  lemma OneMoreReading(found: bool, readings: seq<int>, current: int)
    requires readings != []
    ensures CounterOf(found, readings + [current]) == Counted(CounterOf(found, readings), current, true, false)
  {
    PartsOfOneMore(found, readings, current);
    MovedStaysMoved(found, readings, current);
    BaseIsDecidedByTheFirstMove(found, readings, current);
    if !HasMoved(found, readings) {
      UnmovedReadings(found, readings);
    } else if !HasGrown(found, readings) {
      UngrownIsNotPositive(found, readings);
    }
  }

  lemma {:induction false} CounterIsItsHistory(polls: seq<Poll>)
    ensures After(FRESH, polls) == CounterOf(FoundUnderway(polls), Readings(polls))
  {
    if polls != [] {
      var before := polls[..|polls| - 1];
      var poll := polls[|polls| - 1];
      var readings := Readings(before);
      CounterIsItsHistory(before);
      if poll.Value? && readings != [] {
        OneMoreReading(FoundUnderway(before), readings, poll.current);
      } else if poll.Value? && poll.active {
        assert Increments([poll.current]) == 0;
      }
    }
  }

  lemma {:induction false} ExcessIsWhatSinks(found: bool, readings: seq<int>)
    ensures Excess(found, readings) >= 0
    ensures Excess(found, readings) == 0 <==> forall i :: !SinksAt(found, readings, i)
  {
    if |readings| > 1 {
      var n := |readings| - 1;
      ExcessIsWhatSinks(found, readings[..n]);
      forall i: nat | i < n ensures SinksAt(found, readings, i) <==> SinksAt(found, readings[..n], i) {
        assert readings[..n][..i] == readings[..i];
      }
    }
  }

  /** The readings never sink: no drop from below zero is taken for anything but a restart. */
  predicate NeverSink(polls: seq<Poll>) {
    forall i: nat | i < |Readings(polls)| :: !SinksAt(FoundUnderway(polls), Readings(polls), i)
  }

  /**
    The report after any sequence of polls is the closed form of the readings exactly when the readings never sink.
    Readings that are not negative never do.
  */
  lemma ReportIsTheClosedForm(polls: seq<Poll>)
    ensures Reported(After(FRESH, polls)) == ClosedForm(FoundUnderway(polls), Readings(polls)) <==> NeverSink(polls)
    ensures AreNotNegative(Readings(polls)) ==> NeverSink(polls)
  {
    CounterIsItsHistory(polls);
    ExcessIsWhatSinks(FoundUnderway(polls), Readings(polls));
    if Readings(polls) != [] && !HasMoved(FoundUnderway(polls), Readings(polls)) {
      UnmovedReadings(FoundUnderway(polls), Readings(polls));
    }
  }

  /** So is what each update hands to its caller. */
  lemma EveryAnswerIsTheClosedForm(polls: seq<Poll>, poll: Poll)
    requires poll.Value?
    ensures Answer(After(FRESH, polls), poll.current, poll.active, poll.foundUnderway)
         == ClosedForm(FoundUnderway(polls + [poll]), Readings(polls + [poll]))
         <==> NeverSink(polls + [poll])
  {
    var more := polls + [poll];
    assert more[..|polls|] == polls;
    CounterIsItsHistory(polls);
    ReportIsTheClosedForm(more);
    if !After(FRESH, polls).counting {
      assert |Readings(more)| <= 1;
    }
  }

  /** Readings that are not negative never make the report decrease, across counter resets too. */
  lemma ReportNeverDecreases(polls: seq<Poll>, poll: Poll)
    requires AreNotNegative(Readings(polls + [poll]))
    ensures Reported(After(FRESH, polls + [poll])) >= Reported(After(FRESH, polls))
  {
    var more := polls + [poll];
    assert more[..|polls|] == polls;
    var readings := Readings(polls);
    assert AreNotNegative(readings) by {
      assert forall i | 0 <= i < |readings| :: Readings(more)[i] == readings[i];
    }
    ReportIsTheClosedForm(polls);
    ReportIsTheClosedForm(more);
    if poll.Value? && readings != [] {
      ClosedFormGrows(FoundUnderway(polls), readings, poll.current);
    }
  }

  lemma ClosedFormGrows(found: bool, readings: seq<int>, current: int)
    requires readings != [] && AreNotNegative(readings + [current])
    ensures ClosedForm(found, readings + [current]) >= ClosedForm(found, readings)
  {
    PartsOfOneMore(found, readings, current);
    MovedStaysMoved(found, readings, current);
    BaseIsDecidedByTheFirstMove(found, readings, current);
    if !HasMoved(found, readings) {
      UnmovedReadings(found, readings);
    }
    assert (readings + [current])[|readings|] == current && (readings + [current])[0] == readings[0];
  }

  const SINKING: seq<Poll> := [Value(0, true, true), Value(-1, true, false), Value(-2, true, false)]

  lemma SinkingReadings()
    ensures Readings(SINKING) == [0, -1, -2] && FoundUnderway(SINKING)
  {
    assert SINKING[..2] == [SINKING[0], SINKING[1]] && SINKING[..2][..1] == [SINKING[0]] && SINKING[..2][..1][..0] == [];
    assert Readings(SINKING[..2][..1]) == [0] && FoundUnderway(SINKING[..2][..1]);
    assert Readings(SINKING[..2]) == [0, -1] && FoundUnderway(SINKING[..2]);
  }

  /** Readings that sink: the report follows them down, while the closed form takes every drop for a restart. */
  lemma SinkingLosesTheClosedForm()
    ensures !NeverSink(SINKING) && Reported(After(FRESH, SINKING)) != ClosedForm(FoundUnderway(SINKING), Readings(SINKING))
  {
    SinkingReadings();
    assert [0, -1, -2][..2] == [0, -1] && [0, -1][..1] == [0];
    assert SinksAt(true, [0, -1, -2], 2);
    ReportIsTheClosedForm(SINKING);
  }

  // ----- Saving and loading the counter -----

  function Clamped(x: real, largest: real): real {
    if x < 0.0 then 0.0 else if x > largest then largest else x
  }

  function CountFromNumber(number: real): int {
    Clamped(number, LARGEST_SAVED_COUNT as real).Floor
  }

  function SavedCounter(numbers: NumberText, c: Counter): Entries {
    [Entry("last", numbers.print_(c.last as real)), Entry("total", numbers.print_(c.total as real)),
     Entry("counting", FlagText(c.counting)), Entry("moved", FlagText(c.moved)), Entry("grown", FlagText(c.grown))]
  }

  function LoadedCounter(numbers: NumberText, entries: Entries, prefix: string): Counter {
    Counter(CountFromNumber(Number(numbers, entries, prefix + "last", 0.0)),
            CountFromNumber(Number(numbers, entries, prefix + "total", 0.0)),
            Flag(entries, prefix + "counting", false),
            Flag(entries, prefix + "moved", false),
            Flag(entries, prefix + "grown", false))
  }

  predicate IsSavable(c: Counter) {
    0 <= c.last <= LARGEST_SAVED_COUNT && 0 <= c.total <= LARGEST_SAVED_COUNT
  }

  /** The fields of a save are what a bag holds under the prefix. */
  predicate HoldsFields(entries: Entries, prefix: string, fields: Entries) {
    forall i | 0 <= i < |fields| :: Find(entries, prefix + fields[i].name) == Some(fields[i].value)
  }

  lemma LoadingWhatWasSaved(numbers: NumberText, entries: Entries, prefix: string, c: Counter)
    requires numbers.IsExactAt(c.last as real) && numbers.IsExactAt(c.total as real)
    requires HoldsFields(entries, prefix, SavedCounter(numbers, c))
    ensures var loaded := LoadedCounter(numbers, entries, prefix);
            && loaded.last == CountFromNumber(c.last as real) && loaded.total == CountFromNumber(c.total as real)
            && (loaded.counting, loaded.moved, loaded.grown) == (c.counting, c.moved, c.grown)
    ensures LoadedCounter(numbers, entries, prefix) == c <==> IsSavable(c)
  {
    var fields := SavedCounter(numbers, c);
    assert forall i | 0 <= i < 5 :: Find(entries, prefix + fields[i].name) == Some(fields[i].value);
    HeldNumberIsRead(numbers, entries, prefix + fields[0].name, c.last as real, 0.0);
    HeldNumberIsRead(numbers, entries, prefix + fields[1].name, c.total as real, 0.0);
    HeldFlagIsRead(entries, prefix + fields[2].name, c.counting, false);
    HeldFlagIsRead(entries, prefix + fields[3].name, c.moved, false);
    HeldFlagIsRead(entries, prefix + fields[4].name, c.grown, false);
  }

  lemma {:induction false} AfterSplits(c: Counter, early: seq<Poll>, late: seq<Poll>)
    ensures After(c, early + late) == After(After(c, early), late)
  {
    if late == [] {
      assert early + late == early;
    } else {
      var n := |late| - 1;
      assert (early + late)[..|early + late| - 1] == early + late[..n];
      AfterSplits(c, early, late[..n]);
    }
  }

  /**
    A save and a load between any two polls change no later report exactly when both counts fit the saved
    range; when one does not, either the very next report or the one after an unchanged reading differs.
  */
  lemma SaveAndLoadChangeNoReport(numbers: NumberText, entries: Entries, prefix: string, early: seq<Poll>)
    requires AreNotNegative(Readings(early))
    requires numbers.IsExactAt(After(FRESH, early).last as real) && numbers.IsExactAt(After(FRESH, early).total as real)
    requires HoldsFields(entries, prefix, SavedCounter(numbers, After(FRESH, early)))
    ensures IsSavable(After(FRESH, early)) <==>
            forall late :: Reported(After(LoadedCounter(numbers, entries, prefix), late)) == Reported(After(FRESH, early + late))
  {
    var c := After(FRESH, early);
    var loaded := LoadedCounter(numbers, entries, prefix);
    LoadingWhatWasSaved(numbers, entries, prefix, c);
    CounterIsItsHistory(early);
    CountsAreNotNegative(FoundUnderway(early), Readings(early));
    if IsSavable(c) {
      forall late ensures Reported(After(loaded, late)) == Reported(After(FRESH, early + late)) {
        AfterSplits(FRESH, early, late);
      }
    } else {
      var late := if c.moved then [] else [Value(c.last, true, false)];
      AfterSplits(FRESH, early, late);
      assert late[..0] == [];
      assert Reported(After(loaded, late)) != Reported(After(FRESH, early + late));
    }
  }

  lemma {:induction false} CountsAreNotNegative(found: bool, readings: seq<int>)
    requires AreNotNegative(readings)
    ensures CounterOf(found, readings).last >= 0 && CounterOf(found, readings).total >= 0
  {
    if |readings| > 1 {
      var before := readings[..|readings| - 1];
      CountsAreNotNegative(found, before);
      assert readings == before + [readings[|readings| - 1]];
      OneMoreReading(found, before, readings[|readings| - 1]);
    }
  }

  // ----- The cargo percentage -----

  datatype Cargo = Cargo(first: real, last: real, counting: bool, moved: bool)

  const FRESH_CARGO := Cargo(0.0, 0.0, false, false)

  function ReportedCargo(c: Cargo): real {
    if c.moved then c.last else 0.0
  }

  function ReadCargo(c: Cargo, current: real, active: bool, foundUnderway: bool): Cargo {
    if c.counting then c.(last := current, moved := c.moved || current != c.first)
    else if active then Cargo(current, current, true, foundUnderway)
    else c
  }

  class CargoPercentReading {
    var first: real
    var last: real
    var counting: bool
    var moved: bool

    function View(): Cargo
      reads this
    {
      Cargo(first, last, counting, moved)
    }

    constructor ()
      ensures View() == FRESH_CARGO
    {
      first, last, counting, moved := 0.0, 0.0, false, false;
    }

    method Update(current: real, active: bool, foundUnderway: bool) returns (report: real)
      modifies this
      ensures View() == ReadCargo(old(View()), current, active, foundUnderway)
      ensures report == if counting then ReportedCargo(View()) else 0.0
    {
      if !counting {
        if !active {
          return 0.0;
        }
        counting := true;
        first, last := current, current;
        moved := foundUnderway;
        return if moved then last else 0.0;
      }
      last := current;
      moved := moved || current != first;
      return if moved then last else 0.0;
    }
  }

  datatype CargoPoll = NoPercent | Percent(current: real, active: bool, foundUnderway: bool)

  function AfterCargo(c: Cargo, polls: seq<CargoPoll>): Cargo {
    if polls == [] then c
    else
      var before := AfterCargo(c, polls[..|polls| - 1]);
      match polls[|polls| - 1]
      case NoPercent => before
      case Percent(current, active, found) => ReadCargo(before, current, active, found)
  }

  function SavedCargo(numbers: NumberText, c: Cargo): Entries {
    [Entry("last", numbers.print_(c.last)), Entry("counting", FlagText(c.counting)), Entry("moved", FlagText(c.moved))]
  }

  /** The first reading is not saved: loading takes the last one for it. */
  function LoadedCargo(numbers: NumberText, entries: Entries, prefix: string): Cargo {
    var last := Clamped(Number(numbers, entries, prefix + "last", 0.0), LARGEST_SAVED_PERCENT);
    Cargo(last, last, Flag(entries, prefix + "counting", false), Flag(entries, prefix + "moved", false))
  }

  /** Two readings that report alike from here on: they differ at most in a first reading that no longer matters. */
  predicate ReportAlike(a: Cargo, b: Cargo) {
    && a.last == b.last && a.counting == b.counting && a.moved == b.moved
    && (a.moved || !a.counting || a.first == b.first)
  }

  lemma {:induction false} AlikeStaysAlike(a: Cargo, b: Cargo, polls: seq<CargoPoll>)
    requires ReportAlike(a, b)
    ensures ReportAlike(AfterCargo(a, polls), AfterCargo(b, polls))
  {
    if polls != [] {
      AlikeStaysAlike(a, b, polls[..|polls| - 1]);
    }
  }

  /** Until it moves, the last reading is the first one. */
  lemma {:induction false} UnmovedCargoStandsAtItsFirst(polls: seq<CargoPoll>)
    ensures var c := AfterCargo(FRESH_CARGO, polls);
            && (!c.moved ==> c.last == c.first) && (!c.counting ==> c == FRESH_CARGO)
  {
    if polls != [] {
      UnmovedCargoStandsAtItsFirst(polls[..|polls| - 1]);
    }
  }

  lemma {:induction false} AfterCargoSplits(c: Cargo, early: seq<CargoPoll>, late: seq<CargoPoll>)
    ensures AfterCargo(c, early + late) == AfterCargo(AfterCargo(c, early), late)
  {
    if late == [] {
      assert early + late == early;
    } else {
      var n := |late| - 1;
      assert (early + late)[..|early + late| - 1] == early + late[..n];
      AfterCargoSplits(c, early, late[..n]);
    }
  }

  /** A save and a load change no later cargo report exactly when the saved percentage lies in 0..100. */
  lemma SaveAndLoadChangeNoCargoReport(numbers: NumberText, entries: Entries, prefix: string, early: seq<CargoPoll>)
    requires numbers.IsExactAt(AfterCargo(FRESH_CARGO, early).last)
    requires HoldsFields(entries, prefix, SavedCargo(numbers, AfterCargo(FRESH_CARGO, early)))
    ensures 0.0 <= AfterCargo(FRESH_CARGO, early).last <= LARGEST_SAVED_PERCENT <==>
            forall late :: ReportedCargo(AfterCargo(LoadedCargo(numbers, entries, prefix), late))
                        == ReportedCargo(AfterCargo(FRESH_CARGO, early + late))
  {
    var c := AfterCargo(FRESH_CARGO, early);
    var fields := SavedCargo(numbers, c);
    assert forall i | 0 <= i < 3 :: Find(entries, prefix + fields[i].name) == Some(fields[i].value);
    HeldNumberIsRead(numbers, entries, prefix + fields[0].name, c.last, 0.0);
    HeldFlagIsRead(entries, prefix + fields[1].name, c.counting, false);
    HeldFlagIsRead(entries, prefix + fields[2].name, c.moved, false);
    var loaded := LoadedCargo(numbers, entries, prefix);
    UnmovedCargoStandsAtItsFirst(early);
    if 0.0 <= c.last <= LARGEST_SAVED_PERCENT {
      forall late ensures ReportedCargo(AfterCargo(loaded, late)) == ReportedCargo(AfterCargo(FRESH_CARGO, early + late)) {
        AlikeStaysAlike(loaded, c, late);
        AfterCargoSplits(FRESH_CARGO, early, late);
      }
    } else {
      var late := if c.moved then [] else [Percent(c.last, true, false)];
      AfterCargoSplits(FRESH_CARGO, early, late);
      assert late[..0] == [];
      assert ReportedCargo(AfterCargo(loaded, late)) != ReportedCargo(AfterCargo(FRESH_CARGO, early + late));
    }
  }

  // ----- All four readings in one bag -----

  datatype Readings4 = Readings4(boarding: Counter, deboarding: Counter, boardingCargo: Cargo, deboardingCargo: Cargo)

  const BOARDED_PREFIX := "gsx.boardedPassengers."
  const DEBOARDED_PREFIX := "gsx.deboardedPassengers."
  const BOARDING_CARGO_PREFIX := "gsx.boardingCargo."
  const DEBOARDING_CARGO_PREFIX := "gsx.deboardingCargo."

  function TakeMemory(numbers: NumberText, entries: Entries, r: Readings4): Entries {
    var one := PutAll(entries, BOARDED_PREFIX, SavedCounter(numbers, r.boarding));
    var two := PutAll(one, DEBOARDED_PREFIX, SavedCounter(numbers, r.deboarding));
    var three := PutAll(two, BOARDING_CARGO_PREFIX, SavedCargo(numbers, r.boardingCargo));
    PutAll(three, DEBOARDING_CARGO_PREFIX, SavedCargo(numbers, r.deboardingCargo))
  }

  function RestoreMemory(numbers: NumberText, entries: Entries): Readings4 {
    Readings4(LoadedCounter(numbers, entries, BOARDED_PREFIX), LoadedCounter(numbers, entries, DEBOARDED_PREFIX),
              LoadedCargo(numbers, entries, BOARDING_CARGO_PREFIX), LoadedCargo(numbers, entries, DEBOARDING_CARGO_PREFIX))
  }

  /** Neither text is a prefix of the other. */
  predicate AreApart(a: string, b: string) {
    exists i | 0 <= i < |a| && i < |b| :: a[i] != b[i]
  }

  lemma PrefixesAreApart()
    ensures AreApart(BOARDED_PREFIX, DEBOARDED_PREFIX) && AreApart(BOARDED_PREFIX, BOARDING_CARGO_PREFIX)
         && AreApart(BOARDED_PREFIX, DEBOARDING_CARGO_PREFIX) && AreApart(DEBOARDED_PREFIX, BOARDING_CARGO_PREFIX)
         && AreApart(DEBOARDED_PREFIX, DEBOARDING_CARGO_PREFIX) && AreApart(BOARDING_CARGO_PREFIX, DEBOARDING_CARGO_PREFIX)
  {
    assert BOARDED_PREFIX[4] == 'b' && DEBOARDED_PREFIX[4] == 'd' && BOARDING_CARGO_PREFIX[4] == 'b' && DEBOARDING_CARGO_PREFIX[4] == 'd';
    assert BOARDED_PREFIX[9] == 'e' && BOARDING_CARGO_PREFIX[9] == 'i';
    assert DEBOARDED_PREFIX[11] == 'e' && DEBOARDING_CARGO_PREFIX[11] == 'i';
  }

  lemma SavingElsewhereKeepsTheFields(entries: Entries, prefix: string, fields: Entries, elsewhere: string, others: Entries)
    requires AreApart(prefix, elsewhere) && HoldsFields(entries, prefix, fields)
    ensures HoldsFields(PutAll(entries, elsewhere, others), prefix, fields)
  {
    forall i | 0 <= i < |fields|
      ensures Find(PutAll(entries, elsewhere, others), prefix + fields[i].name) == Some(fields[i].value)
    {
      var k :| 0 <= k < |prefix| && k < |elsewhere| && prefix[k] != elsewhere[k];
      var name := prefix + fields[i].name;
      assert name[k] == prefix[k];
      assert |elsewhere| <= |name| ==> name[..|elsewhere|][k] == name[k];
      PutAllStaysUnderThePrefix(entries, elsewhere, others, name);
    }
  }

  lemma SavedFieldsAreHeld(entries: Entries, prefix: string, fields: Entries)
    requires MemoryBags.HasNoTwins(fields)
    ensures HoldsFields(PutAll(entries, prefix, fields), prefix, fields)
  {
    forall i | 0 <= i < |fields|
      ensures Find(PutAll(entries, prefix, fields), prefix + fields[i].name) == Some(fields[i].value)
    {
      FindAfterPutAll(entries, prefix, fields, i);
    }
  }

  /** The four readings saved into one bag do not disturb each other: each load finds its own fields. */
  lemma EachReadingFindsItsOwnFields(numbers: NumberText, entries: Entries, r: Readings4)
    ensures var bag := TakeMemory(numbers, entries, r);
            && HoldsFields(bag, BOARDED_PREFIX, SavedCounter(numbers, r.boarding))
            && HoldsFields(bag, DEBOARDED_PREFIX, SavedCounter(numbers, r.deboarding))
            && HoldsFields(bag, BOARDING_CARGO_PREFIX, SavedCargo(numbers, r.boardingCargo))
            && HoldsFields(bag, DEBOARDING_CARGO_PREFIX, SavedCargo(numbers, r.deboardingCargo))
  {
    FieldsHaveNoTwins(numbers, r);
    PrefixesAreApart();
    FourSavesKeepApart(entries, SavedCounter(numbers, r.boarding), SavedCounter(numbers, r.deboarding),
                       SavedCargo(numbers, r.boardingCargo), SavedCargo(numbers, r.deboardingCargo));
  }

  lemma FieldsHaveNoTwins(numbers: NumberText, r: Readings4)
    ensures MemoryBags.HasNoTwins(SavedCounter(numbers, r.boarding)) && MemoryBags.HasNoTwins(SavedCounter(numbers, r.deboarding))
    ensures MemoryBags.HasNoTwins(SavedCargo(numbers, r.boardingCargo)) && MemoryBags.HasNoTwins(SavedCargo(numbers, r.deboardingCargo))
  {
  }

  lemma FourSavesKeepApart(entries: Entries, first: Entries, second: Entries, third: Entries, fourth: Entries)
    requires MemoryBags.HasNoTwins(first) && MemoryBags.HasNoTwins(second) && MemoryBags.HasNoTwins(third) && MemoryBags.HasNoTwins(fourth)
    requires AreApart(BOARDED_PREFIX, DEBOARDED_PREFIX) && AreApart(BOARDED_PREFIX, BOARDING_CARGO_PREFIX)
          && AreApart(BOARDED_PREFIX, DEBOARDING_CARGO_PREFIX) && AreApart(DEBOARDED_PREFIX, BOARDING_CARGO_PREFIX)
          && AreApart(DEBOARDED_PREFIX, DEBOARDING_CARGO_PREFIX) && AreApart(BOARDING_CARGO_PREFIX, DEBOARDING_CARGO_PREFIX)
    ensures var one := PutAll(entries, BOARDED_PREFIX, first);
            var two := PutAll(one, DEBOARDED_PREFIX, second);
            var bag := PutAll(PutAll(two, BOARDING_CARGO_PREFIX, third), DEBOARDING_CARGO_PREFIX, fourth);
            && HoldsFields(bag, BOARDED_PREFIX, first) && HoldsFields(bag, DEBOARDED_PREFIX, second)
            && HoldsFields(bag, BOARDING_CARGO_PREFIX, third) && HoldsFields(bag, DEBOARDING_CARGO_PREFIX, fourth)
  {
    var one := PutAll(entries, BOARDED_PREFIX, first);
    var two := PutAll(one, DEBOARDED_PREFIX, second);
    var three := PutAll(two, BOARDING_CARGO_PREFIX, third);
    SavedFieldsAreHeld(entries, BOARDED_PREFIX, first);
    SavedFieldsAreHeld(one, DEBOARDED_PREFIX, second);
    SavedFieldsAreHeld(two, BOARDING_CARGO_PREFIX, third);
    SavedFieldsAreHeld(three, DEBOARDING_CARGO_PREFIX, fourth);
    SavingElsewhereKeepsTheFields(one, BOARDED_PREFIX, first, DEBOARDED_PREFIX, second);
    SavingElsewhereKeepsTheFields(two, BOARDED_PREFIX, first, BOARDING_CARGO_PREFIX, third);
    SavingElsewhereKeepsTheFields(three, BOARDED_PREFIX, first, DEBOARDING_CARGO_PREFIX, fourth);
    SavingElsewhereKeepsTheFields(two, DEBOARDED_PREFIX, second, BOARDING_CARGO_PREFIX, third);
    SavingElsewhereKeepsTheFields(three, DEBOARDED_PREFIX, second, DEBOARDING_CARGO_PREFIX, fourth);
    SavingElsewhereKeepsTheFields(three, BOARDING_CARGO_PREFIX, third, DEBOARDING_CARGO_PREFIX, fourth);
  }
}
