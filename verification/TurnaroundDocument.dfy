/** What is written to the checkpoint file (`TurnaroundDocument.h`, `TurnaroundCheckpoint.h`, `FlightPlan.h`). */
module TurnaroundDocuments {
  import opened Options
  import opened MemoryBags
  import opened TurnaroundPhases
  import opened TurnaroundDatas

  datatype TurnaroundKey = TurnaroundKey(
    couatlId: string,
    aircraftId: string,
    aircraftTitle: string,
    airportIcao: string,
    parkingName: string)

  datatype TurnaroundCheckpoint = TurnaroundCheckpoint(phase: Phase, data: TurnaroundData, aircraftMemory: Entries)

  /** The unit is the number the enumeration stores. */
  datatype FlightPlan = FlightPlan(
    fuelKg: real,
    zfwKg: real,
    passengers: int,
    unit: int,
    origin: string,
    destination: string,
    generatedEpoch: int,
    operatingEmptyKg: real,
    payloadKg: Option<real>,
    cargoKg: Option<real>)

  predicate IsKnownUnit(unit: int) {
    unit == 0 || unit == 1
  }

  datatype TurnaroundDocument = TurnaroundDocument(
    key: TurnaroundKey,
    checkpoint: Option<TurnaroundCheckpoint>,
    plan: Option<FlightPlan>,
    memoryByOwner: map<string, Entries>,
    repositioned: bool)
  {
    function PhaseOf(): Option<Phase> {
      match checkpoint
      case Some(taken) => Some(taken.phase)
      case None => None
    }

    /** What the store accepts: a phase that can be resumed, and a unit of weight that is known. */
    predicate CanBeReadBack() {
      && (checkpoint.Some? ==> IsResumable(checkpoint.value.phase))
      && (plan.Some? ==> IsKnownUnit(plan.value.unit))
    }

    predicate HasAnythingToRead() {
      checkpoint.Some? || repositioned
    }
  }
}
