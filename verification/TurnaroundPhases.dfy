/** The phases of a turnaround, in order, and their names (`TurnaroundPhase.h`). */
module TurnaroundPhases {
  import opened Options

  datatype Phase =
    | WaitingSupportedAircraft | WaitingAircraftReady | RepositionAircraft | PlaceGroundEquipment | CallServices
    | WaitingFlightPlan | WaitingPowerOn | CallCatering | RequestFuel | Loading | WaitingReadyToPush | WaitCatering
    | RemoveGroundEquipment | RequestPushback | WaitingPushbackToStart | WaitingForEngines | WaitingDeparture | OnFlight
    | WaitingEngineShutdown | PlaceArrivalGroundEquipment | RequestDeboarding | Deboarding | CabinServices | WaitingNewFlight

  const PHASE_COUNT := 24

  /** The place of a phase in the order. */
  function Rank(phase: Phase): (rank: nat)
    ensures rank < PHASE_COUNT
  {
    match phase
    case WaitingSupportedAircraft => 0
    case WaitingAircraftReady => 1
    case RepositionAircraft => 2
    case PlaceGroundEquipment => 3
    case CallServices => 4
    case WaitingFlightPlan => 5
    case WaitingPowerOn => 6
    case CallCatering => 7
    case RequestFuel => 8
    case Loading => 9
    case WaitingReadyToPush => 10
    case WaitCatering => 11
    case RemoveGroundEquipment => 12
    case RequestPushback => 13
    case WaitingPushbackToStart => 14
    case WaitingForEngines => 15
    case WaitingDeparture => 16
    case OnFlight => 17
    case WaitingEngineShutdown => 18
    case PlaceArrivalGroundEquipment => 19
    case RequestDeboarding => 20
    case Deboarding => 21
    case CabinServices => 22
    case WaitingNewFlight => 23
  }

  function PhaseAt(rank: nat): (phase: Phase)
    requires rank < PHASE_COUNT
    ensures Rank(phase) == rank
  {
    match rank
    case 0 => WaitingSupportedAircraft
    case 1 => WaitingAircraftReady
    case 2 => RepositionAircraft
    case 3 => PlaceGroundEquipment
    case 4 => CallServices
    case 5 => WaitingFlightPlan
    case 6 => WaitingPowerOn
    case 7 => CallCatering
    case 8 => RequestFuel
    case 9 => Loading
    case 10 => WaitingReadyToPush
    case 11 => WaitCatering
    case 12 => RemoveGroundEquipment
    case 13 => RequestPushback
    case 14 => WaitingPushbackToStart
    case 15 => WaitingForEngines
    case 16 => WaitingDeparture
    case 17 => OnFlight
    case 18 => WaitingEngineShutdown
    case 19 => PlaceArrivalGroundEquipment
    case 20 => RequestDeboarding
    case 21 => Deboarding
    case 22 => CabinServices
    case _ => WaitingNewFlight
  }

  predicate IsResumable(phase: Phase) {
    Rank(RepositionAircraft) <= Rank(phase) <= Rank(CabinServices)
  }

  function TextOf(phase: Phase): string {
    match phase
    case WaitingSupportedAircraft => "WaitingSupportedAircraft"
    case WaitingAircraftReady => "WaitingAircraftReady"
    case RepositionAircraft => "RepositionAircraft"
    case PlaceGroundEquipment => "PlaceGroundEquipment"
    case CallServices => "CallServices"
    case WaitingFlightPlan => "WaitingFlightPlan"
    case WaitingPowerOn => "WaitingPowerOn"
    case CallCatering => "CallCatering"
    case RequestFuel => "RequestFuel"
    case Loading => "Loading"
    case WaitingReadyToPush => "WaitingReadyToPush"
    case WaitCatering => "WaitCatering"
    case RemoveGroundEquipment => "RemoveGroundEquipment"
    case RequestPushback => "RequestPushback"
    case WaitingPushbackToStart => "WaitingPushbackToStart"
    case WaitingForEngines => "WaitingForEngines"
    case WaitingDeparture => "WaitingDeparture"
    case OnFlight => "OnFlight"
    case WaitingEngineShutdown => "WaitingEngineShutdown"
    case PlaceArrivalGroundEquipment => "PlaceArrivalGroundEquipment"
    case RequestDeboarding => "RequestDeboarding"
    case Deboarding => "Deboarding"
    case CabinServices => "CabinServices"
    case WaitingNewFlight => "WaitingNewFlight"
  }

  lemma TextsAreDistinct(a: Phase, b: Phase)
    requires TextOf(a) == TextOf(b)
    ensures a == b
  {
  }

  lemma RanksAreDistinct(a: Phase, b: Phase)
    requires Rank(a) == Rank(b)
    ensures a == b
  {
  }

  /** The first phase from a rank on with the text. */
  function PhaseNamed(text: string, from: nat): (phase: Option<Phase>)
    requires from <= PHASE_COUNT
    ensures phase.Some? ==> TextOf(phase.value) == text
    decreases PHASE_COUNT - from
  {
    if from == PHASE_COUNT then None
    else if TextOf(PhaseAt(from)) == text then Some(PhaseAt(from))
    else PhaseNamed(text, from + 1)
  }

  method FromString(text: string) returns (phase: Option<Phase>)
    ensures phase == PhaseNamed(text, 0)
  {
    for i := 0 to PHASE_COUNT
      invariant PhaseNamed(text, 0) == PhaseNamed(text, i)
    {
      if TextOf(PhaseAt(i)) == text {
        return Some(PhaseAt(i));
      }
    }
    return None;
  }

  lemma PhaseIsElsewhere(phase: Phase, rank: nat)
    requires rank < PHASE_COUNT && TextOf(PhaseAt(rank)) != TextOf(phase)
    ensures Rank(phase) != rank
  {
    if Rank(phase) == rank {
      RanksAreDistinct(PhaseAt(rank), phase);
    }
  }

  lemma {:induction false} PhaseIsFound(phase: Phase, from: nat)
    requires from <= Rank(phase)
    ensures PhaseNamed(TextOf(phase), from) == Some(phase)
    decreases Rank(phase) - from
  {
    var here := PhaseAt(from);
    if TextOf(here) == TextOf(phase) {
      TextsAreDistinct(here, phase);
    } else {
      PhaseIsElsewhere(phase, from);
      PhaseIsFound(phase, from + 1);
    }
  }

  /** Reading a phase's text gives the phase back. */
  lemma PhaseRoundTrip(phase: Phase)
    ensures PhaseNamed(TextOf(phase), 0) == Some(phase)
  {
    PhaseIsFound(phase, 0);
  }
}
