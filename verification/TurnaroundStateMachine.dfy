/** The step machine as the object it is; the states' bodies come in with every step. */
module StateMachine {
  import opened Options
  import opened MemoryBags
  import opened TurnaroundPhases
  import opened TurnaroundDatas
  import opened TurnaroundRestores
  import opened TurnaroundDocuments
  import opened StateMachineModel

  class TurnaroundStateMachine {
    var phase: Phase
    var pendingPhase: Phase
    var pendingOrigin: Origin
    var lastOrigin: Origin
    var ticksRemaining: int
    var airborneTicks: int
    var appTouchPending: bool
    var context: Context
    ghost var moves: seq<Move>

    ghost function View(): Machine
      reads this
    {
      Machine(phase, pendingPhase, pendingOrigin, lastOrigin, ticksRemaining, airborneTicks, appTouchPending, context, moves)
    }

    constructor ()
      ensures View() == AT_REST
    {
      phase, pendingPhase, pendingOrigin, lastOrigin := WaitingSupportedAircraft, WaitingSupportedAircraft, Reading, Reading;
      ticksRemaining, airborneTicks, appTouchPending := 0, 0, false;
      context, moves := Context(INITIAL, false), [];
    }

    method AcceptAppTouch()
      modifies `appTouchPending
      ensures View() == old(View()).(appTouchPending := true)
    {
      appTouchPending := true;
    }

    method NoteRepositioned(repositioned: bool)
      modifies `context
      ensures View() == StateMachineModel.NoteRepositioned(old(View()), repositioned)
    {
      var data := context.data;
      context := context.(data := data.(unsaved := data.unsaved.(repositionedThisSession := repositioned)));
    }

    method ResolvePilotTouch(w: World)
      modifies this
      ensures View() == StateMachineModel.ResolvePilotTouch(old(View()), w)
    {
      var fromSwitch := w.aircraft.Some? && w.aircraft.value.switchTouched;
      var fromApp := appTouchPending;
      appTouchPending := false;
      context := context.(pilotTouched := fromSwitch || fromApp);
    }

    method EnterData(next: Phase)
      modifies `context
      ensures context == old(context).(data := DataEntering(old(context).data, next))
    {
      var data := context.data;
      if next == WaitingNewFlight {
        var repositionedThisSession := data.unsaved.repositionedThisSession;
        data := INITIAL;
        data := data.(unsaved := data.unsaved.(repositionedThisSession := repositionedThisSession));
      }
      if next == RemoveGroundEquipment {
        data := data.(unsaved := data.unsaved.(groundEquipmentTimedOut := false));
      }
      data := data.(restarting := data.restarting.(stateTickCount := 0, ruleHoldTicks := 0, expiredRuleHolds := {}));
      data := data.(unsaved := data.unsaved.(serviceInterrupted := false));
      context := context.(data := data);
    }

    method TransitionTo(next: Phase, origin: Origin)
      modifies this
      ensures View() == StateMachineModel.TransitionTo(old(View()), next, origin)
    {
      lastOrigin := origin;
      EnterData(next);
      moves := moves + [Move(phase, next, origin)];
      phase := next;
      airborneTicks := 0;
    }

    method EvaluateCurrentPhase(w: World) returns (transition: Option<Transition>)
      modifies this
      ensures (View(), transition) == StateMachineModel.EvaluateCurrentPhase(old(View()), w)
    {
      if HasNoAirborneExitOfItsOwn(phase) && w.airborne {
        airborneTicks := airborneTicks + 1;
        return if airborneTicks < AIRBORNE_TICKS_TO_LEAVE then None else Some(Transition(OnFlight, 0, Reading));
      }
      airborneTicks := 0;
      var evaluation := w.evaluate(phase, context);
      context := evaluation.context;
      return evaluation.transition;
    }

    method EvaluateAndMove(w: World)
      modifies this
      ensures View() == StateMachineModel.EvaluateAndMove(old(View()), w)
    {
      var transition := EvaluateCurrentPhase(w);
      match transition {
        case None =>
          var restarting := context.data.restarting;
          context := context.(data := context.data.(restarting := restarting.(stateTickCount := restarting.stateTickCount + 1)));
        case Some(t) =>
          if t.delayTicks > 0 {
            pendingPhase := t.next;
            pendingOrigin := t.origin;
            ticksRemaining := t.delayTicks;
          } else {
            TransitionTo(t.next, t.origin);
          }
      }
    }

    method Step(w: World)
      requires ticksRemaining >= 0
      modifies this
      ensures View() == StateMachineModel.Step(old(View()), w)
    {
      if w.aircraft.Some? && !context.data.Has(RefuelBaselined) {
        context := context.(data := context.data.(rebuilt := context.data.rebuilt.(loadedFuelKg := w.aircraft.value.fuelKg)));
      }
      ResolvePilotTouch(w);
      if ticksRemaining > 0 {
        ticksRemaining := ticksRemaining - 1;
        if ticksRemaining > 0 {
          context := w.actOnRules(phase, context);
          return;
        }
        TransitionTo(pendingPhase, pendingOrigin);
      }
      EvaluateAndMove(w);
    }

    method StandAt(at: Phase)
      modifies this
      ensures View() == StateMachineModel.StandAt(old(View()), at)
    {
      context := context.(pilotTouched := false);
      appTouchPending := false;
      phase := at;
      airborneTicks := 0;
      pendingPhase := at;
      pendingOrigin := Reading;
      lastOrigin := Reading;
      ticksRemaining := 0;
    }

    method Reset()
      modifies this
      ensures View() == StateMachineModel.Reset(old(View()))
    {
      context := context.(data := INITIAL);
      StandAt(WaitingSupportedAircraft);
    }

    method TakeCheckpoint(aircraftMemory: Entries) returns (checkpoint: Option<TurnaroundCheckpoint>)
      ensures checkpoint == StateMachineModel.TakeCheckpoint(View(), aircraftMemory)
    {
      if !IsResumable(phase) {
        return None;
      }
      return Some(TurnaroundCheckpoint(phase, SavedFields(context.data), aircraftMemory));
    }

    method ResumeFrom(checkpoint: TurnaroundCheckpoint, aircraft: AircraftReadings, isReachable: bool, gsxRestarted: bool)
      returns (outcome: ResumeOutcome, facts: Option<Facts>)
      modifies this
      ensures StateMachineModel.Resumption(View(), outcome, facts)
              == StateMachineModel.ResumeFrom(old(View()), checkpoint, aircraft, isReachable, gsxRestarted)
    {
      if !IsResumable(checkpoint.phase) {
        return UnknownPhase, None;
      }
      if !isReachable {
        return AircraftNotReachable, None;
      }
      var repositionedThisSession := context.data.unsaved.repositionedThisSession;
      var data := TurnaroundRestores.Restore(checkpoint.data, checkpoint.phase, aircraft, gsxRestarted);
      data := data.(unsaved := data.unsaved.(repositionedThisSession := repositionedThisSession));
      context := context.(data := data);
      StandAt(checkpoint.phase);
      return Resumed, Some(BuildFacts(phase, context.data, gsxRestarted));
    }
  }
}
