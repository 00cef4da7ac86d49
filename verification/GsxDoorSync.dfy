/** The door reconciliation as the object it is, with the doors' records in an array that each pass updates in place. */
module DoorReconciliation {
  import opened MemoryBags
  import opened DoorModel

  class GsxDoorSync {
    const slots: array<Slot>
    var heldForDeparture: bool
    var passengerDoorsHeld: bool
    var seenStarted: bool
    var restarting: bool
    var inherited: map<Vehicle, real>
    var awaiting: set<Vehicle>

    function View(): DoorSync
      reads this, slots
    {
      DoorSync(slots[..], heldForDeparture, passengerDoorsHeld, seenStarted, restarting, Trust(inherited, awaiting))
    }

    predicate Valid()
      reads this, slots
    {
      slots.Length == DOOR_COUNT
    }

    constructor ()
      ensures Valid() && fresh(slots) && View() == NEW_SYNC
    {
      slots := new Slot[DOOR_COUNT](_ => NEW_SLOT);
      heldForDeparture, passengerDoorsHeld, seenStarted, restarting := false, false, false, false;
      inherited, awaiting := map[], {};
      new;
      assert slots[..] == NEW_SYNC.slots;
    }

    // ----- Trust -----

    method InheritArrivedVehicles(vehicles: map<Vehicle, real>)
      modifies `inherited, `awaiting
      ensures Trust(inherited, awaiting) == Inherit(old(Trust(inherited, awaiting)), vehicles)
    {
      var unseen := awaiting;
      while unseen != {}
        invariant unseen <= old(awaiting)
        invariant awaiting == unseen + (old(awaiting) - vehicles.Keys)
        invariant inherited.Keys == old(inherited).Keys + ((old(awaiting) - unseen) * vehicles.Keys)
        invariant forall v | v in inherited :: inherited[v] == if v in old(inherited) then old(inherited)[v] else vehicles[v]
        decreases unseen
      {
        var vehicle :| vehicle in unseen;
        unseen := unseen - {vehicle};
        if vehicle in vehicles {
          if vehicle !in inherited {
            inherited := inherited[vehicle := vehicles[vehicle]];
          }
          awaiting := awaiting - {vehicle};
        }
      }
      assert inherited == Inherit(old(Trust(inherited, awaiting)), vehicles).inherited;
    }

    method DistrustEveryVehicle(vehicles: map<Vehicle, real>)
      modifies `inherited, `awaiting
      ensures Trust(inherited, awaiting) == Distrust(vehicles)
    {
      inherited := map[];
      awaiting := EVERY_VEHICLE;
      InheritArrivedVehicles(vehicles);
    }

    method VehicleState(vehicle: Vehicle, vehicles: map<Vehicle, real>) returns (state: real)
      modifies `inherited, `awaiting
      ensures (Trust(inherited, awaiting), state) == Look(old(Trust(inherited, awaiting)), vehicles, vehicle)
    {
      InheritArrivedVehicles(vehicles);
      var value := Shown(vehicles, vehicle);
      if vehicle !in inherited {
        return value;
      }
      if inherited[vehicle] != value {
        inherited := inherited - {vehicle};
        return value;
      }
      return Absent(vehicle);
    }

    method IsDesiredOpen(door: GsxDoor, held: bool, vehicles: map<Vehicle, real>) returns (wantsOpen: bool)
      modifies `inherited, `awaiting
      ensures (Trust(inherited, awaiting), wantsOpen) == DesiredOpen(old(Trust(inherited, awaiting)), vehicles, door, held)
    {
      if held {
        return false;
      }
      var asked := DrivingVehicles(door);
      for i := 0 to |asked|
        invariant AnyServes(Trust(inherited, awaiting), vehicles, asked[i..]) == AnyServes(old(Trust(inherited, awaiting)), vehicles, asked)
      {
        var state := VehicleState(asked[i], vehicles);
        if Serves(asked[i], state) {
          return true;
        }
      }
      return false;
    }

    // ----- One door -----

    method RecordTarget(i: nat, open: bool)
      requires Valid() && i < DOOR_COUNT
      modifies slots
      ensures slots[..] == old(slots[..])[i := DoorModel.RecordTarget(old(slots[i]), open)]
    {
      slots[i] := slots[i].(lastTarget := TargetOf(open), inherited := false);
    }

    method RecordWrite(i: nat, open: bool)
      requires Valid() && i < DOOR_COUNT
      modifies slots
      ensures slots[..] == old(slots[..])[i := DoorModel.RecordWrite(old(slots[i]), open)]
    {
      RecordTarget(i, open);
      slots[i] := slots[i].(transit := 0);
    }

    method AgeTransit(i: nat, position: DoorPosition)
      requires Valid() && i < DOOR_COUNT
      modifies slots
      ensures slots[..] == old(slots[..])[i := Aged(old(slots[i]), position)]
    {
      var ticks := slots[i].transit;
      if ticks == NO_TRANSIT {
        assert slots[..] == old(slots[..])[i := slots[i]];
        return;
      }
      if position == slots[i].lastTarget.Position() {
        slots[i] := slots[i].(transit := NO_TRANSIT);
        return;
      }
      ticks := ticks + 1;
      slots[i] := slots[i].(transit := if ticks <= TRANSIT_BOUND then ticks else NO_TRANSIT);
    }

    method SettlesWithoutWriting(i: nat, position: DoorPosition, wantsOpen: bool) returns (settles: bool, ghost outcome: Outcome)
      requires Valid() && i < DOOR_COUNT
      requires ChangeIsDue(slots[i].lastTarget, wantsOpen) && !slots[i].exit.moving
      modifies slots
      ensures outcome == (if TransitHolds(old(slots[i]).transit, position, old(slots[i]).lastTarget.Position()) then InTransit
                          else if position == Pending then Unread
                          else if position == TargetOf(wantsOpen).Position() then AlreadyThere
                          else Written(wantsOpen))
      ensures settles == !outcome.Written?
      ensures slots[..] == if settles then old(slots[..])[i := Settled(old(slots[i]), wantsOpen, outcome)] else old(slots[..])
    {
      settles := true;
      var slot := slots[i];
      assert slots[..] == old(slots[..])[i := slot];
      if TransitHolds(slot.transit, position, slot.lastTarget.Position()) {
        outcome := InTransit;
      } else if position == Pending {
        outcome := Unread;
      } else if position == TargetOf(wantsOpen).Position() {
        outcome := AlreadyThere;
        RecordTarget(i, wantsOpen);
      } else {
        outcome := Written(wantsOpen);
        settles := false;
      }
    }

    /** Whether a door's vehicles want it open, once its transit is a pass older. */
    method LookAtDoor(i: nat, held: bool, vehicles: map<Vehicle, real>, position: DoorPosition) returns (wantsOpen: bool)
      requires Valid() && i < DOOR_COUNT
      modifies `inherited, `awaiting, slots
      ensures slots[..] == old(slots[..])[i := Disinherited(Aged(old(slots[i]), position), ALL_DOORS[i], vehicles)]
      ensures (Trust(inherited, awaiting), wantsOpen) == DesiredOpen(old(Trust(inherited, awaiting)), vehicles, ALL_DOORS[i], held)
    {
      var door := ALL_DOORS[i];
      AgeTransit(i, position);
      slots[i] := slots[i].(inherited := slots[i].inherited && !HaveVehiclesArrived(door, vehicles));
      wantsOpen := IsDesiredOpen(door, held, vehicles);
    }

    method MoveDoor(i: nat, held: bool, position: DoorPosition, wantsOpen: bool) returns (writes: seq<DoorWrite>)
      requires Valid() && i < DOOR_COUNT
      modifies slots
      ensures var outcome := OutcomeOf(old(slots[i]), wantsOpen, held, position);
              && slots[..] == old(slots[..])[i := Settled(old(slots[i]), wantsOpen, outcome)]
              && writes == WritesOf(outcome, ALL_DOORS[i])
    {
      writes := [];
      var waits := !wantsOpen && slots[i].inherited && !held;
      assert slots[..] == old(slots[..])[i := slots[i]];
      if !ChangeIsDue(slots[i].lastTarget, wantsOpen) || waits || slots[i].exit.moving {
        return;
      }
      var settles, _ := SettlesWithoutWriting(i, position, wantsOpen);
      if !settles {
        writes := [DoorWrite(ALL_DOORS[i], wantsOpen)];
        RecordWrite(i, wantsOpen);
      }
    }

    method SyncOne(i: nat, held: bool, vehicles: map<Vehicle, real>, position: DoorPosition) returns (writes: seq<DoorWrite>)
      requires Valid() && i < DOOR_COUNT
      modifies `inherited, `awaiting, slots
      ensures var r := SyncDoor(old(slots[i]), old(Trust(inherited, awaiting)), vehicles, ALL_DOORS[i], held, position);
              && slots[..] == old(slots[..])[i := r.slot]
              && Trust(inherited, awaiting) == r.trust
              && writes == WritesOf(r.outcome, ALL_DOORS[i])
    {
      var wantsOpen := LookAtDoor(i, held, vehicles, position);
      writes := MoveDoor(i, held, position, wantsOpen);
    }

    // ----- Passes -----

    predicate IsHeldClosed(door: GsxDoor)
      reads this, slots
      ensures IsHeldClosed(door) <==> View().IsHeldClosed(door)
    {
      (heldForDeparture && ClosesForDeparture(door)) || (passengerDoorsHeld && IsPassengerDoor(door))
    }

    static ghost predicate IsSyncedUpTo(was: DoorSync, vehicles: map<Vehicle, real>, positions: Positions, now: seq<Slot>, n: nat) {
      && n <= DOOR_COUNT == |was.slots| == |now|
      && (forall j | 0 <= j < n :: now[j] == SyncedAt(was, vehicles, positions, j).slot)
      && (forall j | n <= j < DOOR_COUNT :: now[j] == was.slots[j])
    }

    static lemma OneMoreIsSynced(was: DoorSync, vehicles: map<Vehicle, real>, positions: Positions, before: seq<Slot>, i: nat, slot: Slot)
      requires i < DOOR_COUNT && IsSyncedUpTo(was, vehicles, positions, before, i)
      requires slot == SyncedAt(was, vehicles, positions, i).slot
      ensures IsSyncedUpTo(was, vehicles, positions, before[i := slot], i + 1)
    {
    }

    method SyncEveryDoor(vehicles: map<Vehicle, real>, positions: Positions) returns (writes: seq<DoorWrite>)
      requires Valid()
      modifies `inherited, `awaiting, slots
      ensures IsSyncedUpTo(old(View()), vehicles, positions, slots[..], DOOR_COUNT)
      ensures Trust(inherited, awaiting) == TrustBefore(old(View()), vehicles, positions, DOOR_COUNT)
      ensures writes == SyncWrites(old(View()), vehicles, positions, DOOR_COUNT)
    {
      writes := [];
      ghost var was := View();
      for i := 0 to DOOR_COUNT
        invariant Trust(inherited, awaiting) == TrustBefore(was, vehicles, positions, i)
        invariant IsSyncedUpTo(was, vehicles, positions, slots[..], i)
        invariant writes == SyncWrites(was, vehicles, positions, i)
      {
        ghost var before := slots[..];
        assert before[i] == was.slots[i];
        var written := SyncOne(i, IsHeldClosed(ALL_DOORS[i]), vehicles, positions[i]);
        OneMoreIsSynced(was, vehicles, positions, before, i, slots[i]);
        writes := writes + written;
      }
    }

    method Sync(readings: Readings, positions: Positions) returns (writes: seq<DoorWrite>)
      requires Valid()
      modifies `inherited, `awaiting, slots
      ensures View() == DoorModel.Sync(old(View()), readings, positions)
      ensures writes == if readings.started then SyncWrites(old(View()), readings.vehicles, positions, DOOR_COUNT) else []
    {
      writes := [];
      if !readings.started {
        return;
      }
      writes := SyncEveryDoor(readings.vehicles, positions);
      assert slots[..] == DoorModel.Sync(old(View()), readings, positions).slots;
    }

    method CloseOne(i: nat, position: DoorPosition) returns (writes: seq<DoorWrite>)
      requires Valid() && i < DOOR_COUNT
      modifies slots
      ensures slots[..] == old(slots[..])[i := ClosedDoor(old(slots[i]), position)]
      ensures writes == if IsClosedAlready(old(slots[i]), position) then [] else [DoorWrite(ALL_DOORS[i], false)]
    {
      if IsClosedAlready(slots[i], position) {
        RecordTarget(i, false);
        return [];
      }
      writes := [DoorWrite(ALL_DOORS[i], false)];
      RecordWrite(i, false);
    }

    method CloseAll(positions: Positions) returns (writes: seq<DoorWrite>)
      requires Valid()
      modifies slots
      ensures View() == DoorModel.CloseAll(old(View()), positions)
      ensures writes == CloseWrites(old(View()), positions, DOOR_COUNT)
    {
      writes := [];
      ghost var was := View();
      for i := 0 to DOOR_COUNT
        invariant |slots[..]| == DOOR_COUNT
        invariant forall j | 0 <= j < DOOR_COUNT :: slots[..][j] == if j < i then ClosedDoor(was.slots[j], positions[j]) else was.slots[j]
        invariant writes == CloseWrites(was, positions, i)
      {
        var written := CloseOne(i, positions[i]);
        writes := writes + written;
      }
      assert slots[..] == DoorModel.CloseAll(was, positions).slots;
    }

    // ----- Watching GSX -----

    method WatchExit(door: GsxDoor, index: int)
      requires Valid()
      modifies slots
      ensures View() == DoorModel.WatchExit(old(View()), door, index)
    {
      ghost var was := View();
      var i := IndexOf(door);
      slots[i] := slots[i].(exit := NO_EXIT.(index := index));
      assert slots[..] == DoorModel.WatchExit(was, door, index).slots;
    }

    method SampleExits(exits: map<int, real>)
      requires Valid()
      modifies slots
      ensures slots[..] == SampledSlots(old(slots[..]), exits)
    {
      for i := 0 to DOOR_COUNT
        invariant forall j | 0 <= j < DOOR_COUNT ::
                    slots[j] == if j < i then old(slots[j]).(exit := Sampled(old(slots[j]).exit, exits)) else old(slots[j])
      {
        var exit := slots[i].exit;
        if exit.index >= 0 {
          if exit.index !in exits {
            slots[i] := slots[i].(exit := exit.(moving := false));
          } else {
            var position := exits[exit.index];
            slots[i] := slots[i].(exit := exit.(moving := exit.sampled && position != exit.lastPosition,
                                                lastPosition := position, sampled := true));
          }
        }
      }
    }

    method Observe(readings: Readings)
      requires Valid()
      modifies `inherited, `awaiting, `restarting, `seenStarted, slots
      ensures View() == DoorModel.Observe(old(View()), readings)
    {
      SampleExits(readings.exits);
      if !readings.started {
        restarting := seenStarted;
        return;
      }
      if restarting {
        restarting := false;
        DistrustEveryVehicle(readings.vehicles);
      }
      InheritArrivedVehicles(readings.vehicles);
      seenStarted := true;
    }

    method HoldClosedForDeparture(hold: bool)
      modifies `heldForDeparture, `passengerDoorsHeld
      ensures View() == DoorModel.HoldClosedForDeparture(old(View()), hold)
    {
      heldForDeparture := hold;
      if !hold {
        passengerDoorsHeld := false;
      }
    }

    // ----- Saving and restoring -----

    method AppendMemory(memory: MemoryBag)
      requires Valid()
      modifies memory
      ensures memory.entries == DoorModel.AppendMemory(old(memory.entries), slots[..], DOOR_COUNT)
    {
      for i := 0 to DOOR_COUNT
        invariant memory.entries == DoorModel.AppendMemory(old(memory.entries), slots[..], i)
      {
        if slots[i].lastTarget != Unknown {
          memory.PutText(MemoryName(ALL_DOORS[i]), TargetText(slots[i].lastTarget));
        }
      }
    }

    method RestoreMemory(memory: Entries, gsxRestarted: bool, vehicles: map<Vehicle, real>)
      requires Valid()
      modifies `inherited, `awaiting, slots
      ensures View() == DoorModel.RestoreMemory(old(View()), memory, gsxRestarted, vehicles)
    {
      ghost var was := View();
      for i := 0 to DOOR_COUNT
        invariant forall j | 0 <= j < DOOR_COUNT ::
                    slots[j] == if j < i then RestoredSlot(was.slots[j], memory, ALL_DOORS[j]) else was.slots[j]
      {
        var target := TargetFromText(Text(memory, MemoryName(ALL_DOORS[i]), ""));
        slots[i] := slots[i].(lastTarget := target, inherited := target == ToOpen, transit := NO_TRANSIT);
      }
      assert slots[..] == DoorModel.RestoreMemory(was, memory, gsxRestarted, vehicles).slots;
      if gsxRestarted {
        DistrustEveryVehicle(vehicles);
      } else {
        inherited := map[];
        awaiting := {};
      }
    }
  }
}
