/**
  The step machine of a turnaround (`TurnaroundStateMachine.cpp`).  The bodies of the states are oracles: in
  every step they may change the data, use up the pilot's touch and ask for any transition.
*/
module StateMachineModel {
  import opened Options
  import opened MemoryBags
  import opened TurnaroundPhases
  import opened TurnaroundDatas
  import opened TurnaroundRestores
  import opened TurnaroundDocuments

  datatype Origin = Reading | Pilot

  datatype Transition = Transition(next: Phase, delayTicks: int, origin: Origin)

  /** What a state may touch of the context. */
  datatype Context = Context(data: TurnaroundData, pilotTouched: bool)

  datatype Evaluation = Evaluation(context: Context, transition: Option<Transition>)

  datatype AircraftState = AircraftState(fuelKg: real, switchTouched: bool)

  /** What a step meets: the aircraft, if one is attached, whether it is in the air, and the states' bodies. */
  datatype World = World(
    aircraft: Option<AircraftState>,
    airborne: bool,
    evaluate: (Phase, Context) -> Evaluation,
    actOnRules: (Phase, Context) -> Context)

  /** A transition made, as it is logged. */
  datatype Move = Move(from: Phase, next: Phase, origin: Origin)

  datatype Machine = Machine(
    phase: Phase,
    pendingPhase: Phase,
    pendingOrigin: Origin,
    lastOrigin: Origin,
    ticksRemaining: int,
    airborneTicks: int,
    appTouchPending: bool,
    context: Context,
    moves: seq<Move>)
  {
    predicate Valid() {
      && 0 <= airborneTicks < AIRBORNE_TICKS_TO_LEAVE
      && 0 <= ticksRemaining
      && (ticksRemaining > 0 ==> airborneTicks == 0)
    }
  }

  const AIRBORNE_TICKS_TO_LEAVE := 30

  const AT_REST := Machine(WaitingSupportedAircraft, WaitingSupportedAircraft, Reading, Reading, 0, 0, false, Context(INITIAL, false), [])

  predicate HasNoAirborneExitOfItsOwn(phase: Phase) {
    Rank(WaitingAircraftReady) <= Rank(phase) <= Rank(RequestPushback)
  }

  function WithData(m: Machine, data: TurnaroundData): Machine {
    m.(context := m.context.(data := data))
  }

  // ----- Transitions -----

  /** The data of the next turnaround: everything is new but whether this session repositioned. */
  function ResetData(data: TurnaroundData): TurnaroundData {
    INITIAL.(unsaved := NO_UNSAVED.(repositionedThisSession := data.unsaved.repositionedThisSession))
  }

  function DataEntering(data: TurnaroundData, phase: Phase): TurnaroundData {
    var begun := if phase == WaitingNewFlight then ResetData(data) else data;
    var unsaved := if phase == RemoveGroundEquipment then begun.unsaved.(groundEquipmentTimedOut := false) else begun.unsaved;
    begun.(restarting := begun.restarting.(stateTickCount := 0, ruleHoldTicks := 0, expiredRuleHolds := {}),
           unsaved := unsaved.(serviceInterrupted := false))
  }

  function TransitionTo(m: Machine, phase: Phase, origin: Origin): Machine {
    WithData(m, DataEntering(m.context.data, phase)).(
      lastOrigin := origin,
      phase := phase,
      airborneTicks := 0,
      moves := m.moves + [Move(m.phase, phase, origin)])
  }

  // ----- A step -----

  function FollowTheFuel(m: Machine, w: World): Machine {
    if w.aircraft.Some? && !m.context.data.Has(RefuelBaselined) then
      WithData(m, m.context.data.(rebuilt := m.context.data.rebuilt.(loadedFuelKg := w.aircraft.value.fuelKg)))
    else m
  }

  predicate IsTouched(m: Machine, w: World) {
    m.appTouchPending || (w.aircraft.Some? && w.aircraft.value.switchTouched)
  }

  function ResolvePilotTouch(m: Machine, w: World): Machine {
    m.(appTouchPending := false, context := m.context.(pilotTouched := IsTouched(m, w)))
  }

  predicate IsAirborneWithoutAnExit(m: Machine, w: World) {
    HasNoAirborneExitOfItsOwn(m.phase) && w.airborne
  }

  function CountTheAirborneTick(m: Machine): (Machine, Option<Transition>) {
    var counted := m.(airborneTicks := m.airborneTicks + 1);
    (counted, if counted.airborneTicks < AIRBORNE_TICKS_TO_LEAVE then None else Some(Transition(OnFlight, 0, Reading)))
  }

  function EvaluateCurrentPhase(m: Machine, w: World): (Machine, Option<Transition>) {
    if IsAirborneWithoutAnExit(m, w) then CountTheAirborneTick(m)
    else
      var evaluation := w.evaluate(m.phase, m.context);
      (m.(airborneTicks := 0, context := evaluation.context), evaluation.transition)
  }

  function CountTheTick(m: Machine): Machine {
    var data := m.context.data;
    WithData(m, data.(restarting := data.restarting.(stateTickCount := data.restarting.stateTickCount + 1)))
  }

  function EvaluateAndMove(m: Machine, w: World): Machine {
    var (evaluated, transition) := EvaluateCurrentPhase(m, w);
    match transition
    case None => CountTheTick(evaluated)
    case Some(t) =>
      if t.delayTicks > 0 then evaluated.(pendingPhase := t.next, pendingOrigin := t.origin, ticksRemaining := t.delayTicks)
      else TransitionTo(evaluated, t.next, t.origin)
  }

  function Prepared(m: Machine, w: World): Machine {
    ResolvePilotTouch(FollowTheFuel(m, w), w)
  }

  function Step(m: Machine, w: World): Machine {
    var ready := Prepared(m, w);
    if ready.ticksRemaining > 1 then
      ready.(ticksRemaining := ready.ticksRemaining - 1, context := w.actOnRules(ready.phase, ready.context))
    else if ready.ticksRemaining == 1 then
      EvaluateAndMove(TransitionTo(ready.(ticksRemaining := 0), ready.pendingPhase, ready.pendingOrigin), w)
    else EvaluateAndMove(ready, w)
  }

  // ----- Starting over, saving and resuming -----

  function StandAt(m: Machine, phase: Phase): Machine {
    m.(context := m.context.(pilotTouched := false), appTouchPending := false, phase := phase, airborneTicks := 0,
       pendingPhase := phase, pendingOrigin := Reading, lastOrigin := Reading, ticksRemaining := 0)
  }

  function Reset(m: Machine): Machine {
    StandAt(WithData(m, INITIAL), WaitingSupportedAircraft)
  }

  function TakeCheckpoint(m: Machine, aircraftMemory: Entries): Option<TurnaroundCheckpoint> {
    if IsResumable(m.phase) then Some(TurnaroundCheckpoint(m.phase, SavedFields(m.context.data), aircraftMemory)) else None
  }

  datatype ResumeOutcome = Resumed | AircraftNotReachable | UnknownPhase

  /** Resuming also tells the aircraft the facts of the turnaround, and which doors stay closed. */
  datatype Resumption = Resumption(machine: Machine, outcome: ResumeOutcome, facts: Option<Facts>)

  function ResumeFrom(m: Machine, checkpoint: TurnaroundCheckpoint, aircraft: AircraftReadings, isReachable: bool, gsxRestarted: bool): Resumption {
    if !IsResumable(checkpoint.phase) then Resumption(m, UnknownPhase, None)
    else if !isReachable then Resumption(m, AircraftNotReachable, None)
    else
      var restored := RestoreTurnaroundData(checkpoint.data, checkpoint.phase, aircraft, gsxRestarted);
      var kept := restored.(unsaved := restored.unsaved.(repositionedThisSession := m.context.data.unsaved.repositionedThisSession));
      Resumption(StandAt(WithData(m, kept), checkpoint.phase), Resumed, Some(BuildFacts(checkpoint.phase, kept, gsxRestarted)))
  }

  // ----- Runs -----

  function NoteRepositioned(m: Machine, repositioned: bool): Machine {
    var data := m.context.data;
    WithData(m, data.(unsaved := data.unsaved.(repositionedThisSession := repositioned)))
  }

  /** What happens to the machine: steps, touches of the app, and what the runtime does to it between them. */
  datatype Event =
    | Stepped(world: World)
    | AppTouched
    | Noted(repositioned: bool)
    | StartedOver
    | ResumedFrom(checkpoint: TurnaroundCheckpoint, aircraft: AircraftReadings, isReachable: bool, gsxRestarted: bool)

  function Take(m: Machine, e: Event): Machine {
    match e
    case Stepped(world) => Step(m, world)
    case AppTouched => m.(appTouchPending := true)
    case Noted(repositioned) => NoteRepositioned(m, repositioned)
    case StartedOver => Reset(m)
    case ResumedFrom(checkpoint, aircraft, isReachable, gsxRestarted) =>
      ResumeFrom(m, checkpoint, aircraft, isReachable, gsxRestarted).machine
  }

  function RunFrom(m: Machine, events: seq<Event>): Machine {
    if events == [] then m else Take(RunFrom(m, events[..|events| - 1]), events[|events| - 1])
  }

  function Run(events: seq<Event>): Machine {
    RunFrom(AT_REST, events)
  }
}
