/** What every run of the step machine keeps, whatever the states' bodies do. */
module StateMachineProperties {
  import opened Options
  import opened MemoryBags
  import opened TurnaroundPhases
  import opened TurnaroundDatas
  import opened TurnaroundRestores
  import opened TurnaroundDocuments
  import opened StateMachineModel

  // ----- One step -----

  /**
    A step keeps the airborne count below thirty, makes at most two transitions, makes two only when a delay
    runs out, and leaves no touch of the app behind.
  */
  lemma StepIsBounded(m: Machine, w: World)
    requires m.Valid()
    ensures var after := Step(m, w);
            && after.Valid() && !after.appTouchPending
            && |m.moves| <= |after.moves| <= |m.moves| + (if m.ticksRemaining == 1 then 2 else if m.ticksRemaining == 0 then 1 else 0)
            && after.moves[..|m.moves|] == m.moves
  {
    var ready := Prepared(m, w);
    if m.ticksRemaining == 1 {
      EvaluationIsBounded(TransitionTo(ready.(ticksRemaining := 0), ready.pendingPhase, ready.pendingOrigin), w);
    } else if m.ticksRemaining == 0 {
      EvaluationIsBounded(ready, w);
    }
  }

  lemma EvaluationIsBounded(m: Machine, w: World)
    requires m.Valid() && m.ticksRemaining == 0
    ensures var after := EvaluateAndMove(m, w);
            && after.Valid() && after.appTouchPending == m.appTouchPending
            && |m.moves| <= |after.moves| <= |m.moves| + 1 && after.moves[..|m.moves|] == m.moves
  {
  }

  lemma EvaluationMovesOnce(m: Machine, w: World)
    ensures var after := EvaluateAndMove(m, w);
            || (after.moves == m.moves && after.phase == m.phase)
            || (after.moves == m.moves + [Move(m.phase, after.phase, after.lastOrigin)])
  {
  }

  /** The moves of a step lead, one after the other, from the phase before it to the phase after it. */
  lemma MovesLead(m: Machine, w: World)
    requires m.Valid()
    ensures var after := Step(m, w);
            || (after.moves == m.moves && after.phase == m.phase)
            || (exists origin :: after.moves == m.moves + [Move(m.phase, after.phase, origin)])
            || (exists between, fired, origin ::
                  after.moves == m.moves + [Move(m.phase, between, fired)] + [Move(between, after.phase, origin)])
  {
    var ready := Prepared(m, w);
    if m.ticksRemaining == 1 {
      var fired := TransitionTo(ready.(ticksRemaining := 0), ready.pendingPhase, ready.pendingOrigin);
      EvaluationMovesOnce(fired, w);
    } else if m.ticksRemaining == 0 {
      EvaluationMovesOnce(ready, w);
    }
  }

  /** Two machines that differ in nothing but the data of their turnarounds, and not in whether the session repositioned. */
  predicate DifferInTheTurnaround(a: Machine, b: Machine) {
    && a == b.(context := b.context.(data := a.context.data))
    && a.context.data.unsaved.repositionedThisSession == b.context.data.unsaved.repositionedThisSession
  }

  /**
    Nothing of the last turnaround matters once the wait for a new flight is entered: whatever happens then happens
    alike, and ends alike, after any two turnarounds.  Only whether this session repositioned is carried over.
  */
  lemma NothingOfTheLastTurnaroundMatters(a: Machine, b: Machine, origin: Origin, later: seq<Event>)
    requires DifferInTheTurnaround(a, b)
    ensures RunFrom(TransitionTo(a, WaitingNewFlight, origin), later) == RunFrom(TransitionTo(b, WaitingNewFlight, origin), later)
    ensures var entered := TransitionTo(a, WaitingNewFlight, origin);
            entered.context.data.unsaved.repositionedThisSession == a.context.data.unsaved.repositionedThisSession
  {
    assert TransitionTo(a, WaitingNewFlight, origin) == TransitionTo(b, WaitingNewFlight, origin);
  }

  // ----- Runs -----

  lemma TakingKeepsValid(m: Machine, e: Event)
    requires m.Valid()
    ensures Take(m, e).Valid()
  {
    if e.Stepped? {
      StepIsBounded(m, e.world);
    }
  }

  /** In every run the airborne count stays within 0 and 29 between the steps, and no delay runs while it counts. */
  lemma {:induction false} EveryRunIsValid(events: seq<Event>)
    ensures Run(events).Valid()
  {
    if events != [] {
      EveryRunIsValid(events[..|events| - 1]);
      TakingKeepsValid(Run(events[..|events| - 1]), events[|events| - 1]);
    }
  }

  // ----- Delays -----

  function Steps(m: Machine, worlds: seq<World>): Machine {
    if worlds == [] then m else Step(Steps(m, worlds[..|worlds| - 1]), worlds[|worlds| - 1])
  }

  /** While a delay runs, nothing moves and the delay is what the steps leave of it. */
  lemma {:induction false} NothingMovesDuringADelay(m: Machine, worlds: seq<World>)
    requires m.Valid() && |worlds| < m.ticksRemaining
    ensures var after := Steps(m, worlds);
            && after.Valid() && after.phase == m.phase && after.moves == m.moves
            && after.ticksRemaining == m.ticksRemaining - |worlds|
            && after.pendingPhase == m.pendingPhase && after.pendingOrigin == m.pendingOrigin
  {
    if worlds != [] {
      NothingMovesDuringADelay(m, worlds[..|worlds| - 1]);
    }
  }

  /** A transition delayed by n ticks is the first thing that moves, on the n-th step after it was asked for. */
  lemma DelayedTransitionFires(m: Machine, asking: World, worlds: seq<World>)
    requires m.Valid() && m.ticksRemaining == 0
    requires var transition := EvaluateCurrentPhase(Prepared(m, asking), asking).1;
             transition.Some? && transition.value.delayTicks == |worlds| > 0
    ensures var transition := EvaluateCurrentPhase(Prepared(m, asking), asking).1.value;
            var asked := Step(m, asking);
            var waited := Steps(asked, worlds[..|worlds| - 1]);
            var fired := Steps(asked, worlds);
            && asked.phase == m.phase && asked.moves == m.moves
            && waited.phase == m.phase && waited.moves == m.moves
            && |fired.moves| > |m.moves|
            && fired.moves[|m.moves|] == Move(m.phase, transition.next, transition.origin)
  {
    var asked := Step(m, asking);
    StepIsBounded(m, asking);
    assert !IsAirborneWithoutAnExit(Prepared(m, asking), asking);
    NothingMovesDuringADelay(asked, worlds[..|worlds| - 1]);
    FiringMovesFirst(Steps(asked, worlds[..|worlds| - 1]), worlds[|worlds| - 1]);
  }

  lemma FiringMovesFirst(m: Machine, w: World)
    requires m.Valid() && m.ticksRemaining == 1
    ensures |Step(m, w).moves| > |m.moves|
    ensures Step(m, w).moves[|m.moves|] == Move(m.phase, m.pendingPhase, m.pendingOrigin)
  {
  }

  // ----- The airborne escape -----

  /** One more step in the air, in a phase that does not leave for the flight by itself. */
  lemma AirborneStep(m: Machine, w: World)
    requires m.Valid() && m.ticksRemaining == 0 && HasNoAirborneExitOfItsOwn(m.phase) && w.airborne
    ensures var after := Step(m, w);
            if m.airborneTicks + 1 < AIRBORNE_TICKS_TO_LEAVE then
              after.phase == m.phase && after.moves == m.moves && after.airborneTicks == m.airborneTicks + 1 && after.ticksRemaining == 0
            else
              after.phase == OnFlight && after.moves == m.moves + [Move(m.phase, OnFlight, Reading)] && after.airborneTicks == 0
  {
  }

  /** Thirty steps in the air end in the flight, and fewer leave the phase as it is, whatever the states do. */
  lemma {:induction false} ThirtyAirborneStepsEndInTheFlight(m: Machine, worlds: seq<World>)
    requires m.Valid() && m.ticksRemaining == 0 && m.airborneTicks == 0 && HasNoAirborneExitOfItsOwn(m.phase)
    requires forall w | w in worlds :: w.airborne
    requires |worlds| <= AIRBORNE_TICKS_TO_LEAVE
    ensures var after := Steps(m, worlds);
            && after.Valid()
            && if |worlds| < AIRBORNE_TICKS_TO_LEAVE then
                 after.phase == m.phase && after.moves == m.moves && after.airborneTicks == |worlds| && after.ticksRemaining == 0
               else
                 after.phase == OnFlight && after.moves == m.moves + [Move(m.phase, OnFlight, Reading)]
  {
    if worlds != [] {
      var n := |worlds| - 1;
      ThirtyAirborneStepsEndInTheFlight(m, worlds[..n]);
      AirborneStep(Steps(m, worlds[..n]), worlds[n]);
      StepIsBounded(Steps(m, worlds[..n]), worlds[n]);
    }
  }

  /** The machine was put to stand somewhere: it started over or resumed. */
  predicate Stands(e: Event) {
    e.StartedOver? || (e.ResumedFrom? && IsResumable(e.checkpoint.phase) && e.isReachable)
  }

  /**
    A run ends with n steps in the air and nothing that made the machine stand between them; from the second of the
    steps on the machine was in the phase it is in at the end.
  */
  predicate EndsInTheAir(events: seq<Event>, n: nat, phase: Phase) {
    n == 0
    || (events != []
        && var before, e := events[..|events| - 1], events[|events| - 1];
           if e.Stepped? then e.world.airborne && (n > 1 ==> Run(before).phase == phase) && EndsInTheAir(before, n - 1, phase)
           else !Stands(e) && EndsInTheAir(before, n, phase))
  }

  lemma CountGrowsByOneInTheAir(m: Machine, w: World)
    requires m.Valid() && Step(m, w).airborneTicks > 0
    ensures var after := Step(m, w);
            && w.airborne && HasNoAirborneExitOfItsOwn(after.phase)
            && (after.airborneTicks > 1 ==> after.phase == m.phase && after.airborneTicks == m.airborneTicks + 1)
            && (m.ticksRemaining == 0 ==> after.phase == m.phase && after.airborneTicks == m.airborneTicks + 1)
  {
  }

  lemma OnlyStepsCount(m: Machine, e: Event)
    requires !e.Stepped?
    ensures Stands(e) ==> Take(m, e).airborneTicks == 0
    ensures !Stands(e) ==> Take(m, e).airborneTicks == m.airborneTicks && Take(m, e).phase == m.phase
  {
  }

  /** In every run the airborne count is covered by that many last steps in the air, in this phase. */
  lemma {:induction false} AirborneCountIsTheStepsInTheAir(events: seq<Event>)
    ensures Run(events).Valid() && EndsInTheAir(events, Run(events).airborneTicks, Run(events).phase)
  {
    EveryRunIsValid(events);
    if events != [] {
      var before, e := events[..|events| - 1], events[|events| - 1];
      AirborneCountIsTheStepsInTheAir(before);
      EveryRunIsValid(before);
      if e.Stepped? {
        if Run(events).airborneTicks > 0 {
          CountGrowsByOneInTheAir(Run(before), e.world);
        }
      } else {
        OnlyStepsCount(Run(before), e);
      }
    }
  }

  /**
    The escape is never early: in every run a step in the air that takes a phase without an exit of its own to the
    flight has twenty-nine steps in the air before it, and from the second of them on they were all in that phase.
  */
  lemma EscapeTakesThirtySteps(events: seq<Event>, last: World)
    requires var before := Run(events);
             && before.ticksRemaining == 0 && HasNoAirborneExitOfItsOwn(before.phase) && last.airborne
             && Step(before, last).phase != before.phase
    ensures EndsInTheAir(events, AIRBORNE_TICKS_TO_LEAVE - 1, Run(events).phase)
  {
    AirborneCountIsTheStepsInTheAir(events);
    EveryRunIsValid(events);
    AirborneStep(Run(events), last);
  }

  // ----- The pilot's touch -----

  /** The app was touched, and the touch not yet seen by a step nor forgotten. */
  predicate TouchIsOpen(events: seq<Event>) {
    exists i | 0 <= i < |events| :: events[i].AppTouched? && forall k | i < k < |events| :: !events[k].Stepped? && !Stands(events[k])
  }

  lemma OpenTouchOfOneMore(events: seq<Event>, e: Event)
    ensures TouchIsOpen(events + [e]) <==> e.AppTouched? || (TouchIsOpen(events) && !e.Stepped? && !Stands(e))
  {
    var more := events + [e];
    if e.AppTouched? {
      assert more[|events|].AppTouched?;
    } else if TouchIsOpen(events) && !e.Stepped? && !Stands(e) {
      var i :| 0 <= i < |events| && events[i].AppTouched? && forall k | i < k < |events| :: !events[k].Stepped? && !Stands(events[k]);
      assert more[i].AppTouched?;
    }
    if TouchIsOpen(more) && !e.AppTouched? {
      var i :| 0 <= i < |more| && more[i].AppTouched? && forall k | i < k < |more| :: !more[k].Stepped? && !Stands(more[k]);
      assert i < |events| && events[i].AppTouched?;
      assert !more[|events|].Stepped? && !Stands(more[|events|]);
      assert forall k | i < k < |events| :: events[k] == more[k];
    }
  }

  /** In every run a touch of the app waits for exactly one step, unless the machine is made to stand before it. */
  lemma {:induction false} TouchOfEveryRun(events: seq<Event>)
    ensures Run(events).appTouchPending <==> TouchIsOpen(events)
  {
    if events != [] {
      var before, e := events[..|events| - 1], events[|events| - 1];
      TouchOfEveryRun(before);
      OpenTouchOfOneMore(before, e);
      assert events == before + [e];
      if e.Stepped? {
        EveryRunIsValid(before);
        StepIsBounded(Run(before), e.world);
      }
    }
  }

  /**
    In every run the states' bodies see a touch in a step exactly when the aircraft's switch was touched or a touch of
    the app is open; so no touch is seen by two steps.
  */
  lemma TouchIsSeenOnce(events: seq<Event>, w: World)
    ensures Prepared(Run(events), w).context.pilotTouched
            <==> (w.aircraft.Some? && w.aircraft.value.switchTouched) || TouchIsOpen(events)
    ensures !TouchIsOpen(events + [Stepped(w)])
  {
    TouchOfEveryRun(events);
    OpenTouchOfOneMore(events, Stepped(w));
  }

  // ----- Saving and resuming -----

  /** Marks that a resume may raise do not count; everything else of the checkpoint is as it was. */
  function Resaved(checkpoint: TurnaroundCheckpoint, gsxRestarted: bool, aircraftMemory: Entries): TurnaroundCheckpoint {
    var data := checkpoint.data;
    TurnaroundCheckpoint(
      checkpoint.phase,
      SavedFields(data).(raw := data.raw.(flags := data.raw.flags + RaisedBy(data, checkpoint.phase, gsxRestarted))),
      aircraftMemory)
  }

  /**
    A machine that resumes stands at the saved phase with nothing pending and no touch, keeps whether its session
    repositioned, and would save at once what it resumed from, up to the two marks.
  */
  lemma ResumeStandsAtTheCheckpoint(m: Machine, checkpoint: TurnaroundCheckpoint, aircraft: AircraftReadings, isReachable: bool,
                                    gsxRestarted: bool, aircraftMemory: Entries)
    requires ResumeFrom(m, checkpoint, aircraft, isReachable, gsxRestarted).outcome == Resumed
    ensures var resumed := ResumeFrom(m, checkpoint, aircraft, isReachable, gsxRestarted);
            var machine := resumed.machine;
            && machine.Valid() && machine.phase == machine.pendingPhase == checkpoint.phase
            && machine.ticksRemaining == 0 && machine.airborneTicks == 0 && !machine.appTouchPending && !machine.context.pilotTouched
            && machine.context.data.unsaved.repositionedThisSession == m.context.data.unsaved.repositionedThisSession
            && TakeCheckpoint(machine, aircraftMemory) == Some(Resaved(checkpoint, gsxRestarted, aircraftMemory))
            && resumed.facts == Some(BuildFacts(checkpoint.phase, checkpoint.data, gsxRestarted))
  {
    CheckpointAfterResume(checkpoint.data, checkpoint.phase, aircraft, gsxRestarted);
    FactsOfTheResumed(checkpoint.data, checkpoint.phase, aircraft, gsxRestarted);
    var restored := RestoreTurnaroundData(checkpoint.data, checkpoint.phase, aircraft, gsxRestarted);
    var kept := restored.(unsaved := restored.unsaved.(repositionedThisSession := m.context.data.unsaved.repositionedThisSession));
    assert kept.raw == restored.raw;
    SameRawSameFacts(kept, restored, checkpoint.phase, gsxRestarted);
  }

  lemma SameRawSameFacts(a: TurnaroundData, b: TurnaroundData, phase: Phase, gsxRestarted: bool)
    requires a.raw == b.raw
    ensures BuildFacts(phase, a, gsxRestarted) == BuildFacts(phase, b, gsxRestarted)
  {
  }

  /**
    What a machine saves in any run another one can resume from in any run, as soon as its aircraft is in reach; as
    long as it is not, nothing changes and trying loses nothing.
  */
  lemma WhatIsSavedCanBeResumed(saving: seq<Event>, resuming: seq<Event>, memory: Entries, aircraft: AircraftReadings, gsxRestarted: bool)
    requires TakeCheckpoint(Run(saving), memory).Some?
    ensures var checkpoint := TakeCheckpoint(Run(saving), memory).value;
            var tried := ResumeFrom(Run(resuming), checkpoint, aircraft, false, gsxRestarted);
            var resumed := ResumeFrom(Run(resuming), checkpoint, aircraft, true, gsxRestarted);
            && tried.outcome == AircraftNotReachable && tried.machine == Run(resuming) && tried.facts.None?
            && ResumeFrom(tried.machine, checkpoint, aircraft, true, gsxRestarted) == resumed
            && resumed.outcome == Resumed && resumed.machine.phase == Run(saving).phase
            && TakeCheckpoint(resumed.machine, memory) == Some(Resaved(checkpoint, gsxRestarted, memory))
            && resumed.facts == Some(BuildFacts(Run(saving).phase, Run(saving).context.data, gsxRestarted))
  {
    var checkpoint := TakeCheckpoint(Run(saving), memory).value;
    ResumeStandsAtTheCheckpoint(Run(resuming), checkpoint, aircraft, true, gsxRestarted, memory);
    SameRawSameFacts(checkpoint.data, Run(saving).context.data, checkpoint.phase, gsxRestarted);
  }
}
