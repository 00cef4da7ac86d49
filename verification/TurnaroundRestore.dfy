/** What a checkpoint keeps of the turnaround's data, and what a resume makes of it (`TurnaroundRestore.cpp`). */
module TurnaroundRestores {
  import opened TurnaroundPhases
  import opened TurnaroundDatas

  datatype RefuelBy = Gsx | Self | Client

  /** What a resume reads of the aircraft. */
  datatype AircraftReadings = AircraftReadings(refuelBy: RefuelBy, currentFuelKg: real)

  datatype Facts = Facts(
    phase: Phase,
    loadingStarted: bool,
    refuelFinished: bool,
    boardingFinished: bool,
    departureDoorsHeld: bool,
    passengerDoorsHeld: bool,
    arrivalDoorsClosed: bool,
    gsxRestartedSinceSave: bool,
    plannedFuelKg: real,
    plannedZfwKg: real,
    emptyZfwKg: real,
    plannedPassengers: int)

  const FULL_PROGRESS := 100.0

  /** A checkpoint keeps the raw fields and nothing else. */
  function SavedFields(data: TurnaroundData): TurnaroundData {
    INITIAL.(raw := data.raw)
  }

  function RebuiltLoadedFuelKg(data: TurnaroundData, aircraft: AircraftReadings): real {
    if aircraft.refuelBy != Gsx && data.Has(RefuelFinished) then data.raw.plannedFuelKg
    else if aircraft.refuelBy == Self && data.Has(RefuelBaselined) then data.raw.initialFuelKg
    else aircraft.currentFuelKg
  }

  predicate DeboardingIsOver(phase: Phase) {
    Rank(phase) >= Rank(CabinServices)
  }

  predicate RepositionWasAsked(data: TurnaroundData, phase: Phase) {
    phase == RepositionAircraft && (data.Has(RepositionRequested) || data.Has(RepositionAttempted))
  }

  function RebuildFuelFigures(data: TurnaroundData, aircraft: AircraftReadings): TurnaroundData {
    data.(rebuilt := data.rebuilt.(
      loadedFuelKg := RebuiltLoadedFuelKg(data, aircraft),
      fuelProgress := if data.Has(RefuelFinished) then FULL_PROGRESS else data.rebuilt.fuelProgress))
  }

  function RebuildBoardingFigures(data: TurnaroundData): TurnaroundData {
    if !data.Has(BoardingFinished) then data
    else data.(rebuilt := data.rebuilt.(
      boardingProgress := FULL_PROGRESS,
      boardedPassengers := data.raw.plannedPassengers,
      loadedZfwKg := data.raw.plannedZfwKg))
  }

  function RebuildDeboardingFigures(data: TurnaroundData, phase: Phase): TurnaroundData {
    if !DeboardingIsOver(phase) then data
    else data.(rebuilt := data.rebuilt.(
      deboardingProgress := FULL_PROGRESS,
      deboardedPassengers := data.raw.plannedPassengers,
      loadedZfwKg := data.raw.initialZfwKg))
  }

  function TakeTheRepositionAsSeen(data: TurnaroundData, phase: Phase): TurnaroundData {
    if RepositionWasAsked(data, phase) then data.Raise(RepositionCompleted) else data
  }

  function MarkThePushbackLost(data: TurnaroundData, gsxRestarted: bool): TurnaroundData {
    if data.Has(PushbackPending) && gsxRestarted then data.Raise(PushbackLostToGsxRestart) else data
  }

  function RestoreTurnaroundData(saved: TurnaroundData, phase: Phase, aircraft: AircraftReadings, gsxRestarted: bool): TurnaroundData {
    var fuelled := RebuildFuelFigures(SavedFields(saved), aircraft);
    var figured := RebuildDeboardingFigures(RebuildBoardingFigures(fuelled), phase);
    MarkThePushbackLost(TakeTheRepositionAsSeen(figured, phase), gsxRestarted)
  }

  function BuildFacts(phase: Phase, data: TurnaroundData, gsxRestarted: bool): Facts {
    Facts(phase,
          data.Has(LoadingStartNotified),
          data.Has(RefuelFinished),
          data.Has(BoardingFinished),
          data.Has(BoardingFinished) && !data.Has(ArrivalDoorsClosed),
          data.Has(PassengerDoorsHeldClosed) && !data.Has(ArrivalDoorsClosed),
          data.Has(ArrivalDoorsClosed),
          gsxRestarted,
          data.raw.plannedFuelKg,
          data.raw.plannedZfwKg,
          data.raw.initialZfwKg,
          data.raw.plannedPassengers)
  }

  /** The figures are edited in place, one after another. */
  method RebuildFigures(data: TurnaroundData, phase: Phase, aircraft: AircraftReadings) returns (rebuilt: RebuiltFields)
    ensures data.(rebuilt := rebuilt) == RebuildDeboardingFigures(RebuildBoardingFigures(RebuildFuelFigures(data, aircraft)), phase)
  {
    rebuilt := data.rebuilt.(loadedFuelKg := RebuiltLoadedFuelKg(data, aircraft));
    if data.Has(RefuelFinished) {
      rebuilt := rebuilt.(fuelProgress := FULL_PROGRESS);
    }
    if data.Has(BoardingFinished) {
      rebuilt := rebuilt.(boardingProgress := FULL_PROGRESS);
      rebuilt := rebuilt.(boardedPassengers := data.raw.plannedPassengers);
      rebuilt := rebuilt.(loadedZfwKg := data.raw.plannedZfwKg);
    }
    if DeboardingIsOver(phase) {
      rebuilt := rebuilt.(deboardingProgress := FULL_PROGRESS);
      rebuilt := rebuilt.(deboardedPassengers := data.raw.plannedPassengers);
      rebuilt := rebuilt.(loadedZfwKg := data.raw.initialZfwKg);
    }
  }

  method Restore(saved: TurnaroundData, phase: Phase, aircraft: AircraftReadings, gsxRestarted: bool) returns (data: TurnaroundData)
    ensures data == RestoreTurnaroundData(saved, phase, aircraft, gsxRestarted)
  {
    data := SavedFields(saved);
    var rebuilt := RebuildFigures(data, phase, aircraft);
    data := data.(rebuilt := rebuilt);
    if RepositionWasAsked(data, phase) {
      data := data.Raise(RepositionCompleted);
    }
    if data.Has(PushbackPending) && gsxRestarted {
      data := data.Raise(PushbackLostToGsxRestart);
    }
  }

  // ----- What a resume changes -----

  lemma SavingTwiceIsSavingOnce(data: TurnaroundData)
    ensures SavedFields(SavedFields(data)) == SavedFields(data)
  {
  }

  /** The flags that a resume raises. */
  function RaisedBy(saved: TurnaroundData, phase: Phase, gsxRestarted: bool): set<Flag> {
    (if RepositionWasAsked(saved, phase) then {RepositionCompleted} else {})
    + (if saved.Has(PushbackPending) && gsxRestarted then {PushbackLostToGsxRestart} else {})
  }

  /**
    A checkpoint taken right after a resume holds what the checkpoint resumed from holds, except that the
    reposition may count as completed and the pushback as lost; both only ever from false to true.
  */
  lemma CheckpointAfterResume(saved: TurnaroundData, phase: Phase, aircraft: AircraftReadings, gsxRestarted: bool)
    ensures var again := SavedFields(RestoreTurnaroundData(saved, phase, aircraft, gsxRestarted));
            again == SavedFields(saved).(raw := saved.raw.(flags := saved.raw.flags + RaisedBy(saved, phase, gsxRestarted)))
  {
    assert saved.raw.flags + {} == saved.raw.flags;
  }

  /** The figures of resumed data: full where the service is over, empty where it is not, the fuel by who loads it. */
  lemma FiguresAfterResume(saved: TurnaroundData, phase: Phase, aircraft: AircraftReadings, gsxRestarted: bool)
    ensures var data := RestoreTurnaroundData(saved, phase, aircraft, gsxRestarted);
            && data.restarting == NO_RESTARTING && data.unsaved == NO_UNSAVED
            && data.rebuilt.loadedFuelKg == RebuiltLoadedFuelKg(saved, aircraft)
            && data.rebuilt.fuelProgress == (if saved.Has(RefuelFinished) then FULL_PROGRESS else 0.0)
            && (data.rebuilt.boardingProgress, data.rebuilt.boardedPassengers)
               == (if saved.Has(BoardingFinished) then (FULL_PROGRESS, saved.raw.plannedPassengers) else (0.0, 0))
            && (data.rebuilt.deboardingProgress, data.rebuilt.deboardedPassengers)
               == (if DeboardingIsOver(phase) then (FULL_PROGRESS, saved.raw.plannedPassengers) else (0.0, 0))
            && data.rebuilt.loadedZfwKg
               == (if DeboardingIsOver(phase) then saved.raw.initialZfwKg
                   else if saved.Has(BoardingFinished) then saved.raw.plannedZfwKg
                   else 0.0)
  {
  }

  /** Resuming uses the saved fields alone. */
  lemma OnlySavedFieldsMatter(a: TurnaroundData, b: TurnaroundData, phase: Phase, aircraft: AircraftReadings, gsxRestarted: bool)
    requires SavedFields(a) == SavedFields(b)
    ensures RestoreTurnaroundData(a, phase, aircraft, gsxRestarted) == RestoreTurnaroundData(b, phase, aircraft, gsxRestarted)
  {
  }

  /** Resuming twice from one checkpoint, with the same aircraft and the same restart mark, is resuming once. */
  lemma ResumingTwiceIsResumingOnce(saved: TurnaroundData, phase: Phase, aircraft: AircraftReadings, gsxRestarted: bool)
    ensures var once := RestoreTurnaroundData(saved, phase, aircraft, gsxRestarted);
            && RestoreTurnaroundData(once, phase, aircraft, gsxRestarted) == once
            && RestoreTurnaroundData(SavedFields(once), phase, aircraft, gsxRestarted) == once
  {
    var once := RestoreTurnaroundData(saved, phase, aircraft, gsxRestarted);
    CheckpointAfterResume(saved, phase, aircraft, gsxRestarted);
    CheckpointAfterResume(once, phase, aircraft, gsxRestarted);
    FiguresAfterResume(saved, phase, aircraft, gsxRestarted);
    FiguresAfterResume(once, phase, aircraft, gsxRestarted);
    assert RaisedBy(once, phase, gsxRestarted) == RaisedBy(saved, phase, gsxRestarted);
    assert once.raw.flags + RaisedBy(saved, phase, gsxRestarted) == once.raw.flags;
    OnlySavedFieldsMatter(once, SavedFields(once), phase, aircraft, gsxRestarted);
  }

  lemma FactsIgnoreTheMarks(a: TurnaroundData, b: TurnaroundData, raised: set<Flag>, phase: Phase, gsxRestarted: bool)
    requires a.raw == b.raw.(flags := b.raw.flags + raised)
    requires raised <= {RepositionCompleted, PushbackLostToGsxRestart}
    ensures BuildFacts(phase, a, gsxRestarted) == BuildFacts(phase, b, gsxRestarted)
  {
    forall flag | flag != RepositionCompleted && flag != PushbackLostToGsxRestart ensures a.Has(flag) == b.Has(flag) {
      assert flag !in raised;
    }
  }

  /** The facts the aircraft is told on a resume are those of the saved data. */
  lemma FactsOfTheResumed(saved: TurnaroundData, phase: Phase, aircraft: AircraftReadings, gsxRestarted: bool)
    ensures BuildFacts(phase, RestoreTurnaroundData(saved, phase, aircraft, gsxRestarted), gsxRestarted)
            == BuildFacts(phase, saved, gsxRestarted)
  {
    CheckpointAfterResume(saved, phase, aircraft, gsxRestarted);
    var restored := RestoreTurnaroundData(saved, phase, aircraft, gsxRestarted);
    FactsIgnoreTheMarks(restored, saved, RaisedBy(saved, phase, gsxRestarted), phase, gsxRestarted);
  }
}
