/**
  The turnaround's data, grouped by what a resume does with a field: the raw fields are taken over from the
  checkpoint, the rebuilt ones are computed anew, the restarting and the unsaved ones begin again
  (`TurnaroundData.h`).
*/
module TurnaroundDatas {
  import opened Options

  datatype CargoLoader = NoLoader | Front | Rear | MainDeck

  datatype EngineConfirmationBlock = NoBlock | EnginesStopped | GsxNotAsking | ParkingBrakeReleased

  /** The raw fields that are flags. */
  datatype Flag =
    | LoadingConfirmed | LoadingStartNotified | RefuelBaselined | BoardingBaselined | PassengerDoorsHeldClosed
    | DeboardingBaselined | RefuelingRequested | FuelPlanOverCapacity | PlanOmitsCrew | FuelDidNotStay
    | FuelStayChecked | FuelStayDismissed | FuelTopUpStarted | EngineConfirmationSent | EngineWaitResumed
    | BoardingRequested | BoardingConfirmed | RefuelFinished | BoardingFinished | DeboardingRequested
    | PushbackRequested | PushbackPending | PushbackLostToGsxRestart | JetwayOrStairsRequested | GpuRequested
    | ChocksPlaced | ChocksRemoved | DoorsClosed | OwnGroundEquipmentCleared | ArrivalGpuRequested
    | ArrivalChocksPlaced | ArrivalDoorsClosed | CateringAsked | CateringRequested | GpuDismissRequested
    | LavatoryAsked | LavatoryRequested | LavatoryActiveSeen | WaterAsked | WaterRequested | WaterActiveSeen
    | CleaningAsked | CleaningRequested | CleaningActiveSeen | FlightPlanRequested | FlightPlanRefused
    | RepositionRequested | RepositionCompleted | RepositionAttempted

  /** The raw fields: the flags that are raised, and the figures. */
  datatype RawFields = RawFields(
    flags: set<Flag>,
    plannedFuelKg: real,
    plannedZfwKg: real,
    plannedPassengers: int,
    initialFuelKg: real,
    initialZfwKg: real,
    boardingCompletionAttempts: int,
    omittedCrewKg: real,
    operatingEmptyWithCrewKg: real,
    fuelShortfallKg: real,
    settledFuelKg: real,
    cateringWaitIntervals: int,
    cabinWaitIntervals: int)

  /** The fields a resume computes from raw ones and from the aircraft. */
  datatype RebuiltFields = RebuiltFields(
    boardedPassengers: int,
    deboardedPassengers: int,
    loadedFuelKg: real,
    loadedZfwKg: real,
    fuelProgress: real,
    boardingProgress: real,
    deboardingProgress: real)

  /** The fields that count anew after a resume. */
  datatype RestartingFields = RestartingFields(
    refuelStallSampleKg: real,
    refuelStallTicks: int,
    boardingStallTicks: int,
    loaderDoorWaitTicks: int,
    cargoFlagAfterServiceTicks: int,
    loaderAtHoldAfterServiceTicks: int,
    fuelRequestStallTicks: int,
    servicesOperatingTicks: int,
    stairsInPlaceTicks: int,
    arrivalGpuConfirmationTicks: int,
    arrivalEquipmentTicks: int,
    flightPlanRequestTicks: int,
    latestFlightPlanRequested: bool,
    differingFlightPlanTicks: int,
    stateTickCount: int,
    ruleHoldTicks: int,
    expiredRuleHolds: set<string>)

  /** The fields that no checkpoint holds. */
  datatype UnsavedFields = UnsavedFields(
    loaderAwaitingDoor: CargoLoader,
    loaderHoldingBoarding: CargoLoader,
    loaderDoorWaitSeconds: int,
    fuelRequestStalled: bool,
    engineConfirmationBlock: EngineConfirmationBlock,
    servicesStalled: bool,
    serviceInterrupted: bool,
    servicesWaitSeconds: int,
    deboardingAwaitsGsx: bool,
    groundEquipmentTimedOut: bool,
    jetwayOrStairsCompleted: bool,
    staleSimbriefGeneration: Option<int>,
    repositionedThisSession: bool)

  datatype TurnaroundData = TurnaroundData(
    raw: RawFields,
    rebuilt: RebuiltFields,
    restarting: RestartingFields,
    unsaved: UnsavedFields)
  {
    predicate Has(flag: Flag) {
      flag in raw.flags
    }

    function Raise(flag: Flag): TurnaroundData {
      this.(raw := raw.(flags := raw.flags + {flag}))
    }
  }

  // ----- Data that was just reset -----

  const NO_RAW := RawFields({}, 0.0, 0.0, 0, 0.0, 0.0, 0, 0.0, 0.0, 0.0, 0.0, 0, 0)
  const NO_REBUILT := RebuiltFields(0, 0, 0.0, 0.0, 0.0, 0.0, 0.0)
  const NO_RESTARTING := RestartingFields(0.0, 0, 0, 0, 0, 0, 0, 0, 0, 0, 0, 0, false, 0, 0, 0, {})
  const NO_UNSAVED := UnsavedFields(NoLoader, NoLoader, 0, false, NoBlock, false, false, 0, false, false, false, None, false)
  const INITIAL := TurnaroundData(NO_RAW, NO_REBUILT, NO_RESTARTING, NO_UNSAVED)

  // ----- The names of the flags -----

  /** The name a flag is saved under. */
  function NameOf(flag: Flag): string {
    match flag
    case LoadingConfirmed => "loadingConfirmed"
    case LoadingStartNotified => "loadingStartNotified"
    case RefuelBaselined => "refuelBaselined"
    case BoardingBaselined => "boardingBaselined"
    case PassengerDoorsHeldClosed => "passengerDoorsHeldClosed"
    case DeboardingBaselined => "deboardingBaselined"
    case RefuelingRequested => "refuelingRequested"
    case FuelPlanOverCapacity => "fuelPlanOverCapacity"
    case PlanOmitsCrew => "planOmitsCrew"
    case FuelDidNotStay => "fuelDidNotStay"
    case FuelStayChecked => "fuelStayChecked"
    case FuelStayDismissed => "fuelStayDismissed"
    case FuelTopUpStarted => "fuelTopUpStarted"
    case EngineConfirmationSent => "engineConfirmationSent"
    case EngineWaitResumed => "engineWaitResumed"
    case BoardingRequested => "boardingRequested"
    case BoardingConfirmed => "boardingConfirmed"
    case RefuelFinished => "refuelFinished"
    case BoardingFinished => "boardingFinished"
    case DeboardingRequested => "deboardingRequested"
    case PushbackRequested => "pushbackRequested"
    case PushbackPending => "pushbackPending"
    case PushbackLostToGsxRestart => "pushbackLostToGsxRestart"
    case JetwayOrStairsRequested => "jetwayOrStairsRequested"
    case GpuRequested => "gpuRequested"
    case ChocksPlaced => "chocksPlaced"
    case ChocksRemoved => "chocksRemoved"
    case DoorsClosed => "doorsClosed"
    case OwnGroundEquipmentCleared => "ownGroundEquipmentCleared"
    case ArrivalGpuRequested => "arrivalGpuRequested"
    case ArrivalChocksPlaced => "arrivalChocksPlaced"
    case ArrivalDoorsClosed => "arrivalDoorsClosed"
    case CateringAsked => "cateringAsked"
    case CateringRequested => "cateringRequested"
    case GpuDismissRequested => "gpuDismissRequested"
    case LavatoryAsked => "lavatory.asked"
    case LavatoryRequested => "lavatory.requested"
    case LavatoryActiveSeen => "lavatory.activeSeen"
    case WaterAsked => "water.asked"
    case WaterRequested => "water.requested"
    case WaterActiveSeen => "water.activeSeen"
    case CleaningAsked => "cleaning.asked"
    case CleaningRequested => "cleaning.requested"
    case CleaningActiveSeen => "cleaning.activeSeen"
    case FlightPlanRequested => "flightPlanRequested"
    case FlightPlanRefused => "flightPlanRefused"
    case RepositionRequested => "repositionRequested"
    case RepositionCompleted => "repositionCompleted"
    case RepositionAttempted => "repositionAttempted"
  }

  /** How long a flag's name is: names of different lengths are different names. */
  function LengthOf(flag: Flag): nat {
    match flag
    case DoorsClosed | WaterAsked => 11
    case GpuRequested | ChocksPlaced => 12
    case PlanOmitsCrew | ChocksRemoved | CateringAsked => 13
    case FuelDidNotStay | RefuelFinished | LavatoryAsked | CleaningAsked => 14
    case RefuelBaselined | FuelStayChecked | PushbackPending | WaterRequested => 15
    case LoadingConfirmed | FuelTopUpStarted | BoardingFinished | WaterActiveSeen => 16
    case BoardingBaselined | FuelStayDismissed | EngineWaitResumed | BoardingRequested | BoardingConfirmed |
      PushbackRequested | CateringRequested | FlightPlanRefused
      => 17
    case RefuelingRequested | ArrivalDoorsClosed | LavatoryRequested | CleaningRequested => 18
    case DeboardingBaselined | DeboardingRequested | ArrivalGpuRequested | ArrivalChocksPlaced | GpuDismissRequested |
      LavatoryActiveSeen | CleaningActiveSeen | FlightPlanRequested | RepositionRequested | RepositionCompleted |
      RepositionAttempted
      => 19
    case LoadingStartNotified | FuelPlanOverCapacity => 20
    case EngineConfirmationSent => 22
    case JetwayOrStairsRequested => 23
    case PassengerDoorsHeldClosed | PushbackLostToGsxRestart => 24
    case OwnGroundEquipmentCleared => 25
  }

  lemma ShortNames(flag: Flag)
    requires LengthOf(flag) <= 16
    ensures |NameOf(flag)| == LengthOf(flag)
  {
  }

  lemma MiddleNames(flag: Flag)
    requires 16 < LengthOf(flag) <= 18
    ensures |NameOf(flag)| == LengthOf(flag)
  {
  }

  lemma LongNames(flag: Flag)
    requires 18 < LengthOf(flag) <= 20
    ensures |NameOf(flag)| == LengthOf(flag)
  {
  }

  lemma LongestNames(flag: Flag)
    requires 20 < LengthOf(flag)
    ensures |NameOf(flag)| == LengthOf(flag)
  {
  }

  lemma NamesHaveTheirLengths(flag: Flag)
    ensures |NameOf(flag)| == LengthOf(flag)
  {
    if LengthOf(flag) <= 16 {
      ShortNames(flag);
    } else if LengthOf(flag) <= 18 {
      MiddleNames(flag);
    } else if LengthOf(flag) <= 20 {
      LongNames(flag);
    } else {
      LongestNames(flag);
    }
  }

  lemma ShortestNamesAreDistinct(a: Flag, b: Flag)
    requires LengthOf(a) == LengthOf(b) <= 14 && NameOf(a) == NameOf(b)
    ensures a == b
  {
  }

  lemma ShortNamesAreDistinct(a: Flag, b: Flag)
    requires 14 < LengthOf(a) == LengthOf(b) <= 16 && NameOf(a) == NameOf(b)
    ensures a == b
  {
  }

  lemma MiddleNamesAreDistinct(a: Flag, b: Flag)
    requires LengthOf(a) == LengthOf(b) == 17 && NameOf(a) == NameOf(b)
    ensures a == b
  {
  }

  lemma LongerNamesAreDistinct(a: Flag, b: Flag)
    requires LengthOf(a) == LengthOf(b) == 18 && NameOf(a) == NameOf(b)
    ensures a == b
  {
  }

  lemma LongNamesAreDistinct(a: Flag, b: Flag)
    requires 18 < LengthOf(a) == LengthOf(b) <= 20 && NameOf(a) == NameOf(b)
    ensures a == b
  {
  }

  lemma LongestNamesAreDistinct(a: Flag, b: Flag)
    requires 20 < LengthOf(a) == LengthOf(b) && NameOf(a) == NameOf(b)
    ensures a == b
  {
  }

  /** No two flags share a name. */
  lemma NamesAreDistinct(a: Flag, b: Flag)
    requires NameOf(a) == NameOf(b)
    ensures a == b
  {
    NamesHaveTheirLengths(a);
    NamesHaveTheirLengths(b);
    if LengthOf(a) <= 14 {
      ShortestNamesAreDistinct(a, b);
    } else if LengthOf(a) <= 16 {
      ShortNamesAreDistinct(a, b);
    } else if LengthOf(a) <= 17 {
      MiddleNamesAreDistinct(a, b);
    } else if LengthOf(a) <= 18 {
      LongerNamesAreDistinct(a, b);
    } else if LengthOf(a) <= 20 {
      LongNamesAreDistinct(a, b);
    } else {
      LongestNamesAreDistinct(a, b);
    }
  }

  /** The names of figures end in "Kg" or in an "s". */
  predicate EndsAsAFigure(name: string) {
    |name| >= 2 && (name[|name| - 1] == 's' || (name[|name| - 1] == 'g' && name[|name| - 2] == 'K'))
  }

  lemma ShortNamesEndAsFlags(flag: Flag)
    requires LengthOf(flag) <= 16
    ensures !EndsAsAFigure(NameOf(flag))
  {
  }

  lemma MiddleNamesEndAsFlags(flag: Flag)
    requires 16 < LengthOf(flag) <= 18
    ensures !EndsAsAFigure(NameOf(flag))
  {
  }

  lemma LongNamesEndAsFlags(flag: Flag)
    requires 18 < LengthOf(flag) <= 20
    ensures !EndsAsAFigure(NameOf(flag))
  {
  }

  lemma LongestNamesEndAsFlags(flag: Flag)
    requires 20 < LengthOf(flag)
    ensures !EndsAsAFigure(NameOf(flag))
  {
  }

  /** No flag's name ends as the names of figures end. */
  lemma NamesEndAsFlags(flag: Flag)
    ensures !EndsAsAFigure(NameOf(flag))
  {
    if LengthOf(flag) <= 16 {
      ShortNamesEndAsFlags(flag);
    } else if LengthOf(flag) <= 18 {
      MiddleNamesEndAsFlags(flag);
    } else if LengthOf(flag) <= 20 {
      LongNamesEndAsFlags(flag);
    } else {
      LongestNamesEndAsFlags(flag);
    }
  }
}
