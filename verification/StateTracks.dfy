/**
  When a GSX service counts as completed (`StateTrack` and `ObserveState` in `GsxStateService.cpp`): GSX may
  say so, or the service may go back to idle after it ran, unless GSX itself went down in between.
*/
module StateTracks {
  import opened GsxRemote
  import opened MemoryBags

  datatype Resumption = NotResumed | OnSameGsx | AfterGsxRestart

  datatype Track = Track(
    status: int,
    completed: bool,
    couatlDied: bool,
    firstReadingSeen: bool,
    foundUnderway: bool,
    resumption: Resumption)

  const NEW_TRACK := Track(STATUS_UNAVAILABLE, false, false, false, false, NotResumed)

  predicate IsIdle(status: int) {
    status == STATUS_CALLABLE || status == STATUS_BYPASSED
  }

  predicate IsRunning(status: int) {
    status == STATUS_ACTIVE || status == STATUS_COMPLETING
  }

  predicate IsRequestedOrUnderway(status: int) {
    status == STATUS_REQUESTED || IsRunning(status)
  }

  predicate HadStarted(t: Track) {
    IsRunning(t.status) || (t.resumption != NotResumed && t.status == STATUS_REQUESTED)
  }

  /** A service that ends without saying so: the pushback and the deicing. */
  predicate ReturnedToIdle(t: Track, reading: int, endsSilently: bool) {
    && IsIdle(reading)
    && if endsSilently then t.resumption == NotResumed && t.status == STATUS_ACTIVE else HadStarted(t) && !t.couatlDied
  }

  predicate WasInterrupted(t: Track) {
    t.resumption == AfterGsxRestart && IsRequestedOrUnderway(t.status)
  }

  function DeathAfter(t: Track, reading: int, down: bool, endsSilently: bool): bool {
    if down then true
    else if reading == STATUS_ACTIVE && t.status != STATUS_ACTIVE then false
    else t.couatlDied || (!endsSilently && WasInterrupted(t))
  }

  /** The track after a reading; down says whether GSX was seen down since the last look. */
  function Observed(t: Track, reading: int, down: bool, endsSilently: bool): Track {
    var died := DeathAfter(t, reading, down, endsSilently);
    Track(reading,
          t.completed || reading == STATUS_COMPLETED || ReturnedToIdle(t.(couatlDied := died), reading, endsSilently),
          died,
          true,
          (if t.firstReadingSeen then t.foundUnderway else true) && reading == STATUS_ACTIVE,
          NotResumed)
  }

  function Turned(t: Track): Track {
    t.(completed := false, couatlDied := false)
  }

  class StateTrack {
    var status: int
    var completed: bool
    var couatlDiedDuringRun: bool
    var firstReadingSeen: bool
    var foundUnderway: bool
    var resumption: Resumption

    function View(): Track
      reads this
    {
      Track(status, completed, couatlDiedDuringRun, firstReadingSeen, foundUnderway, resumption)
    }

    constructor ()
      ensures View() == NEW_TRACK
    {
      status, completed, couatlDiedDuringRun := STATUS_UNAVAILABLE, false, false;
      firstReadingSeen, foundUnderway, resumption := false, false, NotResumed;
    }

    method Observe(reading: int, down: bool, endsSilently: bool)
      modifies this
      ensures View() == Observed(old(View()), reading, down, endsSilently)
    {
      var isActive := reading == STATUS_ACTIVE;
      if !firstReadingSeen {
        firstReadingSeen := true;
        foundUnderway := isActive;
      }
      foundUnderway := foundUnderway && isActive;
      if !endsSilently && resumption == AfterGsxRestart && IsRequestedOrUnderway(status) {
        couatlDiedDuringRun := true;
      }
      if down {
        couatlDiedDuringRun := true;
      } else if isActive && status != STATUS_ACTIVE {
        couatlDiedDuringRun := false;
      }
      completed := completed || reading == STATUS_COMPLETED || ReturnedToIdle(View(), reading, endsSilently);
      status := reading;
      resumption := NotResumed;
    }

    method OnTurnaroundTurned()
      modifies this
      ensures View() == Turned(old(View()))
    {
      completed := false;
      couatlDiedDuringRun := false;
    }
  }

  // ----- Completion, from the history of the readings -----

  datatype Event = Seen(reading: int, down: bool) | Turn

  function After(t: Track, events: seq<Event>, endsSilently: bool): Track {
    if events == [] then t
    else
      var before := After(t, events[..|events| - 1], endsSilently);
      match events[|events| - 1]
      case Seen(reading, down) => Observed(before, reading, down, endsSilently)
      case Turn => Turned(before)
  }

  /** The last reading before a position. */
  function ReadingBefore(events: seq<Event>, n: nat): int
    requires n <= |events|
  {
    if n == 0 then STATUS_UNAVAILABLE
    else if events[n - 1].Seen? then events[n - 1].reading
    else ReadingBefore(events, n - 1)
  }

  /** The service became active here, with GSX up. */
  predicate StartsAt(events: seq<Event>, i: nat)
    requires i < |events|
  {
    events[i].Seen? && !events[i].down && events[i].reading == STATUS_ACTIVE && ReadingBefore(events, i) != STATUS_ACTIVE
  }

  /** GSX was down at some look up to a position, and the service did not start anew since. */
  predicate DiedBefore(events: seq<Event>, n: nat)
    requires n <= |events|
  {
    exists i :: 0 <= i < n && DiedAt(events, i) && forall k | i < k < n :: !StartsAt(events, k) && !events[k].Turn?
  }

  predicate DiedAt(events: seq<Event>, i: nat)
    requires i < |events|
  {
    events[i].Seen? && events[i].down
  }

  /** The reading at a position completes the service. */
  predicate CompletesAt(events: seq<Event>, i: nat, endsSilently: bool)
    requires i < |events|
  {
    && events[i].Seen?
    && (events[i].reading == STATUS_COMPLETED
        || (IsIdle(events[i].reading)
            && if endsSilently then ReadingBefore(events, i) == STATUS_ACTIVE
               else IsRunning(ReadingBefore(events, i)) && !DiedBefore(events, i + 1)))
  }

  predicate CompletedBefore(events: seq<Event>, n: nat, endsSilently: bool)
    requires n <= |events|
  {
    exists i :: 0 <= i < n && CompletesAt(events, i, endsSilently) && forall k | i < k < n :: !events[k].Turn?
  }

  lemma {:induction false} ReadingBeforeOfMore(events: seq<Event>, e: Event, n: nat)
    requires n <= |events|
    ensures ReadingBefore(events + [e], n) == ReadingBefore(events, n)
  {
    if n > 0 {
      ReadingBeforeOfMore(events, e, n - 1);
    }
  }

  lemma DeathsOfMore(events: seq<Event>, e: Event)
    ensures var more := events + [e];
            DiedBefore(more, |more|) <==> DiedAt(more, |events|) || (DiedBefore(events, |events|) && !StartsAt(more, |events|) && !e.Turn?)
  {
    var more := events + [e];
    var n := |events|;
    forall i: nat | i < n ensures DiedAt(more, i) == DiedAt(events, i) && StartsAt(more, i) == StartsAt(events, i) && more[i] == events[i] {
      ReadingBeforeOfMore(events, e, i);
    }
    if DiedBefore(events, n) && !StartsAt(more, n) && !e.Turn? {
      var i :| 0 <= i < n && DiedAt(events, i) && forall k | i < k < n :: !StartsAt(events, k) && !events[k].Turn?;
      assert DiedAt(more, i);
    }
    if DiedBefore(more, n + 1) && !DiedAt(more, n) {
      var i :| 0 <= i < n + 1 && DiedAt(more, i) && forall k | i < k < n + 1 :: !StartsAt(more, k) && !more[k].Turn?;
      assert DiedAt(events, i);
      assert !StartsAt(more, n) && !more[n].Turn?;
    }
  }

  lemma DiedBeforeOfMore(events: seq<Event>, e: Event, n: nat)
    requires n <= |events|
    ensures DiedBefore(events + [e], n) <==> DiedBefore(events, n)
  {
    var more := events + [e];
    forall i: nat | i < n ensures DiedAt(more, i) == DiedAt(events, i) && StartsAt(more, i) == StartsAt(events, i) && more[i] == events[i] {
      ReadingBeforeOfMore(events, e, i);
    }
    if DiedBefore(events, n) {
      var i :| 0 <= i < n && DiedAt(events, i) && forall k | i < k < n :: !StartsAt(events, k) && !events[k].Turn?;
      assert DiedAt(more, i);
    }
    if DiedBefore(more, n) {
      var i :| 0 <= i < n && DiedAt(more, i) && forall k | i < k < n :: !StartsAt(more, k) && !more[k].Turn?;
      assert DiedAt(events, i);
    }
  }

  lemma CompletesAtOfMore(events: seq<Event>, e: Event, i: nat, endsSilently: bool)
    requires i < |events|
    ensures CompletesAt(events + [e], i, endsSilently) <==> CompletesAt(events, i, endsSilently)
  {
    assert (events + [e])[i] == events[i];
    ReadingBeforeOfMore(events, e, i);
    DiedBeforeOfMore(events, e, i + 1);
  }

  lemma CompletionsOfMore(events: seq<Event>, e: Event, endsSilently: bool)
    ensures var more := events + [e];
            CompletedBefore(more, |more|, endsSilently)
            <==> CompletesAt(more, |events|, endsSilently) || (CompletedBefore(events, |events|, endsSilently) && !e.Turn?)
  {
    var more := events + [e];
    var n := |events|;
    forall i: nat | i < n ensures CompletesAt(more, i, endsSilently) == CompletesAt(events, i, endsSilently) && more[i] == events[i] {
      CompletesAtOfMore(events, e, i, endsSilently);
    }
    if CompletedBefore(events, n, endsSilently) && !e.Turn? {
      var i :| 0 <= i < n && CompletesAt(events, i, endsSilently) && forall k | i < k < n :: !events[k].Turn?;
      assert CompletesAt(more, i, endsSilently);
    }
    if CompletedBefore(more, n + 1, endsSilently) && !CompletesAt(more, n, endsSilently) {
      var i :| 0 <= i < n + 1 && CompletesAt(more, i, endsSilently) && forall k | i < k < n + 1 :: !more[k].Turn?;
      assert CompletesAt(events, i, endsSilently);
      assert !more[n].Turn?;
    }
  }

  /**
    A service counts as completed exactly when some reading of this turnaround completed it: GSX said so, or
    the service went from running back to idle and GSX had not been down since the service last started.
  */
  lemma {:induction false} CompletionIsTheHistory(events: seq<Event>, endsSilently: bool)
    ensures var t := After(NEW_TRACK, events, endsSilently);
            && t.status == ReadingBefore(events, |events|) && t.resumption == NotResumed
            && t.couatlDied == DiedBefore(events, |events|)
            && t.completed == CompletedBefore(events, |events|, endsSilently)
  {
    if events != [] {
      var before, e := events[..|events| - 1], events[|events| - 1];
      assert events == before + [e];
      CompletionIsTheHistory(before, endsSilently);
      ReadingBeforeOfMore(before, e, |before|);
      DeathsOfMore(before, e);
      CompletionsOfMore(before, e, endsSilently);
      LastEventCounts(After(NEW_TRACK, before, endsSilently), before, e, endsSilently);
    }
  }

  lemma LastEventCounts(t: Track, before: seq<Event>, e: Event, endsSilently: bool)
    requires t.status == ReadingBefore(before + [e], |before|) && t.resumption == NotResumed && t.couatlDied == DiedBefore(before, |before|)
    requires DiedBefore(before + [e], |before| + 1)
             <==> DiedAt(before + [e], |before|) || (DiedBefore(before, |before|) && !StartsAt(before + [e], |before|) && !e.Turn?)
    ensures e.Seen? ==>
            var after := Observed(t, e.reading, e.down, endsSilently);
            && after.couatlDied == DiedBefore(before + [e], |before| + 1)
            && after.completed == (t.completed || CompletesAt(before + [e], |before|, endsSilently))
  {
  }

  // ----- Saving and restoring -----

  function StatusFromNumber(number: real): int {
    if STATUS_UNAVAILABLE as real <= number <= STATUS_COMPLETING as real then number.Floor else STATUS_UNAVAILABLE
  }

  function Saved(numbers: NumberText, t: Track): Entries {
    [Entry("completed", FlagText(t.completed)), Entry("status", numbers.print_(t.status as real)),
     Entry("couatlDiedDuringRun", FlagText(t.couatlDied))]
  }

  function Loaded(numbers: NumberText, entries: Entries, prefix: string, gsxRestarted: bool): Track {
    Track(StatusFromNumber(Number(numbers, entries, prefix + "status", 0.0)),
          Flag(entries, prefix + "completed", false),
          Flag(entries, prefix + "couatlDiedDuringRun", false),
          false,
          false,
          if gsxRestarted then AfterGsxRestart else OnSameGsx)
  }

  function Reloaded(t: Track, gsxRestarted: bool): Track {
    t.(firstReadingSeen := false, foundUnderway := false, resumption := if gsxRestarted then AfterGsxRestart else OnSameGsx)
  }

  lemma TrackRoundTrip(numbers: NumberText, entries: Entries, prefix: string, t: Track, gsxRestarted: bool)
    requires numbers.IsExactAt(t.status as real) && STATUS_UNAVAILABLE <= t.status <= STATUS_COMPLETING
    ensures Loaded(numbers, PutAll(entries, prefix, Saved(numbers, t)), prefix, gsxRestarted) == Reloaded(t, gsxRestarted)
  {
    var fields := Saved(numbers, t);
    var bag := PutAll(entries, prefix, fields);
    FindAfterPutAll(entries, prefix, fields, 0);
    FindAfterPutAll(entries, prefix, fields, 1);
    FindAfterPutAll(entries, prefix, fields, 2);
    HeldFlagIsRead(bag, prefix + fields[0].name, t.completed, false);
    HeldNumberIsRead(numbers, bag, prefix + fields[1].name, t.status as real, 0.0);
    HeldFlagIsRead(bag, prefix + fields[2].name, t.couatlDied, false);
    assert (t.status as real).Floor == t.status;
  }

  /** What the first reading after a restore on the same GSX makes different: only a first reading that is idle can. */
  predicate RestoreMatters(t: Track, reading: int, down: bool, endsSilently: bool) {
    && IsIdle(reading) && !t.completed
    && if endsSilently then t.status == STATUS_ACTIVE else t.status == STATUS_REQUESTED && !t.couatlDied && !down
  }

  predicate CompleteAlike(a: Track, b: Track) {
    a.status == b.status && a.completed == b.completed && a.couatlDied == b.couatlDied && a.resumption == b.resumption
  }

  lemma {:induction false} AlikeStaysAlike(a: Track, b: Track, events: seq<Event>, endsSilently: bool)
    requires CompleteAlike(a, b)
    ensures CompleteAlike(After(a, events, endsSilently), After(b, events, endsSilently))
  {
    if events != [] {
      AlikeStaysAlike(a, b, events[..|events| - 1], endsSilently);
    }
  }

  /**
    A save and a restore on the same GSX change no later completion, unless the first reading after them is idle
    and the service was only requested, or ends silently and was active; then they do change it.
  */
  lemma RestoringKeepsTheCompletion(t: Track, reading: int, down: bool, later: seq<Event>, endsSilently: bool)
    requires t.resumption == NotResumed
    ensures var once := Observed(t, reading, down, endsSilently);
            var again := Observed(Reloaded(t, false), reading, down, endsSilently);
            && (once.completed == again.completed <==> !RestoreMatters(t, reading, down, endsSilently))
            && (!RestoreMatters(t, reading, down, endsSilently) ==>
                  After(once, later, endsSilently).completed == After(again, later, endsSilently).completed)
  {
    var once := Observed(t, reading, down, endsSilently);
    var again := Observed(Reloaded(t, false), reading, down, endsSilently);
    if !RestoreMatters(t, reading, down, endsSilently) {
      AlikeStaysAlike(once, again, later, endsSilently);
    }
  }

  /** After a GSX restart a service that was under way is not completed by being idle, however long it stays so. */
  lemma {:induction false} RestartCompletesNothing(t: Track, events: seq<Event>)
    requires IsRequestedOrUnderway(t.status) && !t.completed
    requires forall e | e in events :: e.Seen? && e.reading != STATUS_COMPLETED && e.reading != STATUS_ACTIVE
    ensures var after := After(Reloaded(t, true), events, false);
            !after.completed && (events != [] ==> after.couatlDied && after.resumption == NotResumed)
  {
    if events != [] {
      var before := events[..|events| - 1];
      assert forall e | e in before :: e in events;
      RestartCompletesNothing(t, before);
      assert events[|events| - 1] in events;
    }
  }
}
