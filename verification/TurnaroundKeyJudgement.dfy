/** Whether a saved turnaround is the one now on screen (`TurnaroundKeyJudgement.cpp`). */
module KeyJudgement {
  import opened Options
  import opened TurnaroundPhases
  import opened TurnaroundDocuments

  datatype KeyVerdict = Same | OnlyCouatlDiffers | Different | NotYetJudgeable

  predicate DiffersWhenBothAreKnown(saved: string, live: string) {
    saved != "" && live != "" && saved != live
  }

  predicate HasFlownSinceTheSave(savedPhase: Option<Phase>) {
    savedPhase.Some? && Rank(WaitingDeparture) <= Rank(savedPhase.value) <= Rank(WaitingEngineShutdown)
  }

  predicate IsAnotherStand(saved: TurnaroundKey, live: TurnaroundKey) {
    DiffersWhenBothAreKnown(saved.airportIcao, live.airportIcao) || DiffersWhenBothAreKnown(saved.parkingName, live.parkingName)
  }

  predicate IsStillWaitingForTheStand(saved: TurnaroundKey, live: TurnaroundKey) {
    saved.parkingName != "" && live.parkingName == ""
  }

  function Judge(saved: TurnaroundKey, live: TurnaroundKey, savedPhase: Option<Phase>): KeyVerdict {
    if live.aircraftTitle == "" then NotYetJudgeable
    else if saved.aircraftTitle != live.aircraftTitle then Different
    else if live.aircraftId == "" then NotYetJudgeable
    else if saved.aircraftId != live.aircraftId then Different
    else if !HasFlownSinceTheSave(savedPhase) && IsAnotherStand(saved, live) then Different
    else if !HasFlownSinceTheSave(savedPhase) && IsStillWaitingForTheStand(saved, live) then NotYetJudgeable
    else if live.couatlId == "" then NotYetJudgeable
    else if saved.couatlId == live.couatlId then Same
    else OnlyCouatlDiffers
  }

  // ----- What more readings can change -----

  predicate IsFilledIn(part: string, later: string) {
    part == "" || later == part
  }

  /** A later reading of the same key: parts that were known are the same, parts that were empty may be filled. */
  predicate IsAFullerReading(live: TurnaroundKey, later: TurnaroundKey) {
    && IsFilledIn(live.couatlId, later.couatlId)
    && IsFilledIn(live.aircraftId, later.aircraftId)
    && IsFilledIn(live.aircraftTitle, later.aircraftTitle)
    && IsFilledIn(live.airportIcao, later.airportIcao)
    && IsFilledIn(live.parkingName, later.parkingName)
  }

  /** Discarding on Different is safe: no fuller reading would have said anything else. */
  lemma DifferentIsFinal(saved: TurnaroundKey, live: TurnaroundKey, later: TurnaroundKey, savedPhase: Option<Phase>)
    requires Judge(saved, live, savedPhase) == Different && IsAFullerReading(live, later)
    ensures Judge(saved, later, savedPhase) == Different
  {
  }

  /** The airport was not known when the key was judged, and it turns out to be another one. */
  predicate AirportTurnsOutDifferent(saved: TurnaroundKey, live: TurnaroundKey, later: TurnaroundKey, savedPhase: Option<Phase>) {
    !HasFlownSinceTheSave(savedPhase) && live.airportIcao == "" && DiffersWhenBothAreKnown(saved.airportIcao, later.airportIcao)
  }

  /** The other verdicts on a saved turnaround are final unless the airport was unknown and turns out to be another one. */
  lemma AcceptanceIsFinalUnlessTheAirportWasUnknown(saved: TurnaroundKey, live: TurnaroundKey, later: TurnaroundKey, savedPhase: Option<Phase>)
    requires Judge(saved, live, savedPhase) == Same || Judge(saved, live, savedPhase) == OnlyCouatlDiffers
    requires IsAFullerReading(live, later)
    ensures Judge(saved, later, savedPhase)
            == if AirportTurnsOutDifferent(saved, live, later, savedPhase) then Different else Judge(saved, live, savedPhase)
  {
  }

  /**
    What the caller can tell when it accepts: no fuller reading will change the verdict exactly when the turnaround
    has flown since the save, the live airport is known, or none was saved.
  */
  lemma AcceptanceIsFinal(saved: TurnaroundKey, live: TurnaroundKey, savedPhase: Option<Phase>)
    requires Judge(saved, live, savedPhase) == Same || Judge(saved, live, savedPhase) == OnlyCouatlDiffers
    ensures (forall later | IsAFullerReading(live, later) :: Judge(saved, later, savedPhase) == Judge(saved, live, savedPhase))
            <==> HasFlownSinceTheSave(savedPhase) || live.airportIcao != "" || saved.airportIcao == ""
  {
    forall later | IsAFullerReading(live, later)
      ensures Judge(saved, later, savedPhase)
              == if AirportTurnsOutDifferent(saved, live, later, savedPhase) then Different else Judge(saved, live, savedPhase)
    {
      AcceptanceIsFinalUnlessTheAirportWasUnknown(saved, live, later, savedPhase);
    }
    var elsewhere := live.(airportIcao := saved.airportIcao + "?");
    assert |elsewhere.airportIcao| == |saved.airportIcao| + 1;
    assert live.airportIcao == "" ==> IsAFullerReading(live, elsewhere);
  }

  /** So accepting with the airport unknown can be too early: this turnaround was saved at another airport. */
  lemma AcceptanceCanBeTooEarly()
    ensures var saved := TurnaroundKey("1", "a320", "Airbus", "LFPG", "");
            var live := TurnaroundKey("1", "a320", "Airbus", "", "Gate 1");
            var later := live.(airportIcao := "EDDF");
            && IsAFullerReading(live, later)
            && Judge(saved, live, None) == Same && Judge(saved, later, None) == Different
  {
    assert "LFPG"[0] != "EDDF"[0];
  }

  /** The live key agrees with the saved one as far as it matters for the saved phase. */
  predicate IsTheSameFlight(saved: TurnaroundKey, live: TurnaroundKey, savedPhase: Option<Phase>) {
    && live.aircraftTitle == saved.aircraftTitle != ""
    && live.aircraftId == saved.aircraftId != ""
    && (!HasFlownSinceTheSave(savedPhase) ==>
          && (saved.parkingName != "" ==> live.parkingName == saved.parkingName)
          && (saved.airportIcao != "" ==> live.airportIcao == "" || live.airportIcao == saved.airportIcao))
  }

  /** When a saved turnaround is taken over, and when as one of another GSX run. */
  lemma AcceptedExactlyForTheSameFlight(saved: TurnaroundKey, live: TurnaroundKey, savedPhase: Option<Phase>)
    ensures Judge(saved, live, savedPhase) == Same
            <==> IsTheSameFlight(saved, live, savedPhase) && live.couatlId == saved.couatlId != ""
    ensures Judge(saved, live, savedPhase) == OnlyCouatlDiffers
            <==> IsTheSameFlight(saved, live, savedPhase) && live.couatlId != "" && live.couatlId != saved.couatlId
  {
  }
}
