/** How the doors follow the vehicles of GSX (`GsxDoorSync.cpp`): what each operation leaves behind. */
module DoorModel {
  import opened MemoryBags

  // ----- Vehicles and how far their readings are trusted -----

  datatype Vehicle =
    | Jetway | StairsFront | StairsMiddle | StairsRear | CateringFront | CateringRear
    | LoaderFront | LoaderRear | LoaderMain

  const EVERY_VEHICLE: set<Vehicle> := {
    Jetway, StairsFront, StairsMiddle, StairsRear, CateringFront, CateringRear, LoaderFront, LoaderRear, LoaderMain
  }

  /** The readings at one moment: what was received of the vehicles and of the exits, and whether GSX is up. */
  datatype Readings = Readings(started: bool, vehicles: map<Vehicle, real>, exits: map<int, real>)

  const JETWAY_DOCKED := 5.0
  const JETWAY_UNAVAILABLE := 2.0
  const VEHICLE_APPROACHING := 5.0
  const WAITING_FOR_DOOR := 6.0
  const STAIRS_FINAL_POSITION := 3.0
  const CATERING_IN_PROGRESS := 7.0
  const LOADER_UNLOADING := 7.0
  const LOADER_IN_POSITION := 8.0
  const LOADER_LOADING := 9.0

  /** The state of a vehicle that is not there. */
  function Absent(vehicle: Vehicle): real {
    if vehicle == Jetway then JETWAY_UNAVAILABLE else 0.0
  }

  /** The states in which a vehicle wants its door open. */
  predicate Serves(vehicle: Vehicle, state: real) {
    match vehicle
    case Jetway => state == JETWAY_DOCKED
    case StairsFront | StairsMiddle | StairsRear =>
      state == VEHICLE_APPROACHING || state == WAITING_FOR_DOOR || state == STAIRS_FINAL_POSITION
    case CateringFront | CateringRear =>
      state == VEHICLE_APPROACHING || state == WAITING_FOR_DOOR || state == CATERING_IN_PROGRESS
    case LoaderFront | LoaderRear | LoaderMain =>
      state == WAITING_FOR_DOOR || state == LOADER_UNLOADING || state == LOADER_IN_POSITION || state == LOADER_LOADING
  }

  /** The first values since GSX restarted, and the vehicles of which none has come in yet. */
  datatype Trust = Trust(inherited: map<Vehicle, real>, awaiting: set<Vehicle>)

  const FULL_TRUST := Trust(map[], {})

  function Shown(vehicles: map<Vehicle, real>, vehicle: Vehicle): real {
    if vehicle in vehicles then vehicles[vehicle] else Absent(vehicle)
  }

  /** The values that have arrived are taken as those GSX had before the restart. */
  function Inherit(t: Trust, vehicles: map<Vehicle, real>): Trust {
    Trust(map v | v in t.inherited.Keys + (t.awaiting * vehicles.Keys) :: if v in t.inherited then t.inherited[v] else vehicles[v],
          t.awaiting - vehicles.Keys)
  }

  function Distrust(vehicles: map<Vehicle, real>): Trust {
    Inherit(Trust(map[], EVERY_VEHICLE), vehicles)
  }

  /** A vehicle's state: absent as long as its reading is the one from before the restart. */
  function Look(t: Trust, vehicles: map<Vehicle, real>, vehicle: Vehicle): (Trust, real) {
    var t := Inherit(t, vehicles);
    var value := Shown(vehicles, vehicle);
    if vehicle !in t.inherited then (t, value)
    else if t.inherited[vehicle] != value then (t.(inherited := t.inherited - {vehicle}), value)
    else (t, Absent(vehicle))
  }

  /** Whether one of the vehicles serves; looking stops at the first that does. */
  function AnyServes(t: Trust, vehicles: map<Vehicle, real>, asked: seq<Vehicle>): (Trust, bool)
    decreases |asked|
  {
    if asked == [] then (t, false)
    else
      var (looked, state) := Look(t, vehicles, asked[0]);
      if Serves(asked[0], state) then (looked, true) else AnyServes(looked, vehicles, asked[1..])
  }

  // ----- Doors -----

  datatype GsxDoor = FwdPax | MidPax | AftPax | FwdCatering | AftCatering | FwdCargo | AftCargo

  const ALL_DOORS: seq<GsxDoor> := [FwdPax, MidPax, AftPax, FwdCatering, AftCatering, FwdCargo, AftCargo]
  const DOOR_COUNT := 7

  function DrivingVehicles(door: GsxDoor): (vehicles: seq<Vehicle>)
    ensures vehicles != []
  {
    match door
    case FwdPax => [Jetway, StairsFront]
    case MidPax => [StairsMiddle]
    case AftPax => [StairsRear]
    case FwdCatering => [CateringFront]
    case AftCatering => [CateringRear]
    case FwdCargo => [LoaderFront]
    case AftCargo => [LoaderRear]
  }

  predicate IsPassengerDoor(door: GsxDoor) {
    door == FwdPax || door == MidPax || door == AftPax
  }

  predicate ClosesForDeparture(door: GsxDoor) {
    IsPassengerDoor(door) || door == FwdCargo || door == AftCargo
  }

  datatype DoorPosition = NotRead | Pending | Open | Closed

  /** What every door reads, door by door. */
  type Positions = positions: seq<DoorPosition> | |positions| == DOOR_COUNT
    witness [NotRead, NotRead, NotRead, NotRead, NotRead, NotRead, NotRead]

  datatype Target = Unknown | ToOpen | ToClosed
  {
    function Position(): DoorPosition {
      match this
      case Unknown => NotRead
      case ToOpen => Open
      case ToClosed => Closed
    }
  }

  function TargetOf(open: bool): Target {
    if open then ToOpen else ToClosed
  }

  predicate IsPlaced(position: DoorPosition) {
    position == Open || position == Closed
  }

  const TRANSIT_BOUND := 30
  const NO_TRANSIT := -1

  predicate TransitHolds(ticks: int, reading: DoorPosition, target: DoorPosition) {
    ticks != NO_TRANSIT && IsPlaced(reading) && IsPlaced(target) && reading != target
  }

  function AgedTransit(ticks: int, reading: DoorPosition, target: DoorPosition): int {
    if ticks == NO_TRANSIT || reading == target || ticks + 1 > TRANSIT_BOUND then NO_TRANSIT else ticks + 1
  }

  datatype ExitWatch = ExitWatch(index: int, lastPosition: real, sampled: bool, moving: bool)

  const NO_EXIT := ExitWatch(-1, 0.0, false, false)

  function Sampled(exit: ExitWatch, exits: map<int, real>): ExitWatch {
    if exit.index < 0 then exit
    else if exit.index !in exits then exit.(moving := false)
    else
      var position := exits[exit.index];
      exit.(moving := exit.sampled && position != exit.lastPosition, lastPosition := position, sampled := true)
  }

  datatype Slot = Slot(lastTarget: Target, inherited: bool, transit: int, exit: ExitWatch)

  const NEW_SLOT := Slot(Unknown, false, NO_TRANSIT, NO_EXIT)

  datatype DoorSync = DoorSync(
    slots: seq<Slot>,
    heldForDeparture: bool,
    passengerDoorsHeld: bool,
    seenStarted: bool,
    restarting: bool,
    trust: Trust)
  {
    predicate Valid() {
      |slots| == DOOR_COUNT && forall i | 0 <= i < DOOR_COUNT :: NO_TRANSIT <= slots[i].transit <= TRANSIT_BOUND
    }

    predicate IsHeldClosed(door: GsxDoor) {
      (heldForDeparture && ClosesForDeparture(door)) || (passengerDoorsHeld && IsPassengerDoor(door))
    }
  }

  const NEW_SYNC := DoorSync([NEW_SLOT, NEW_SLOT, NEW_SLOT, NEW_SLOT, NEW_SLOT, NEW_SLOT, NEW_SLOT], false, false, false, false, FULL_TRUST)

  predicate HaveVehiclesArrived(door: GsxDoor, vehicles: map<Vehicle, real>) {
    forall v | v in DrivingVehicles(door) :: v in vehicles
  }

  /** A door that is held closed asks no vehicle. */
  function DesiredOpen(t: Trust, vehicles: map<Vehicle, real>, door: GsxDoor, held: bool): (Trust, bool) {
    if held then (t, false) else AnyServes(t, vehicles, DrivingVehicles(door))
  }

  // ----- One door in a pass -----

  /** What a pass does with a door.  Written names the position that is commanded. */
  datatype Outcome = Agrees | WaitsForVehicles | Moves | InTransit | Unread | AlreadyThere | Written(open: bool)

  function Aged(slot: Slot, position: DoorPosition): Slot {
    slot.(transit := AgedTransit(slot.transit, position, slot.lastTarget.Position()))
  }

  function Disinherited(slot: Slot, door: GsxDoor, vehicles: map<Vehicle, real>): Slot {
    slot.(inherited := slot.inherited && !HaveVehiclesArrived(door, vehicles))
  }

  predicate ChangeIsDue(target: Target, wantsOpen: bool) {
    if wantsOpen then target != ToOpen else target == ToOpen
  }

  function OutcomeOf(slot: Slot, wantsOpen: bool, held: bool, position: DoorPosition): Outcome {
    if !ChangeIsDue(slot.lastTarget, wantsOpen) then Agrees
    else if !wantsOpen && slot.inherited && !held then WaitsForVehicles
    else if slot.exit.moving then Moves
    else if TransitHolds(slot.transit, position, slot.lastTarget.Position()) then InTransit
    else if position == Pending then Unread
    else if position == TargetOf(wantsOpen).Position() then AlreadyThere
    else Written(wantsOpen)
  }

  function RecordTarget(slot: Slot, open: bool): Slot {
    slot.(lastTarget := TargetOf(open), inherited := false)
  }

  function RecordWrite(slot: Slot, open: bool): Slot {
    RecordTarget(slot, open).(transit := 0)
  }

  function Settled(slot: Slot, wantsOpen: bool, outcome: Outcome): Slot {
    match outcome
    case AlreadyThere => RecordTarget(slot, wantsOpen)
    case Written(_) => RecordWrite(slot, wantsOpen)
    case _ => slot
  }

  datatype Synced = Synced(slot: Slot, trust: Trust, wantsOpen: bool, outcome: Outcome)

  function SyncDoor(slot: Slot, t: Trust, vehicles: map<Vehicle, real>, door: GsxDoor, held: bool, position: DoorPosition): Synced {
    var looked := Disinherited(Aged(slot, position), door, vehicles);
    var (t, wantsOpen) := DesiredOpen(t, vehicles, door, held);
    var outcome := OutcomeOf(looked, wantsOpen, held, position);
    Synced(Settled(looked, wantsOpen, outcome), t, wantsOpen, outcome)
  }

  // ----- Whole passes -----

  /** The trust when a pass over the doors comes to the i-th of them. */
  function TrustBefore(s: DoorSync, vehicles: map<Vehicle, real>, positions: seq<DoorPosition>, i: nat): Trust
    requires i <= DOOR_COUNT == |s.slots| == |positions|
    decreases i, 0
  {
    if i == 0 then s.trust else SyncedAt(s, vehicles, positions, i - 1).trust
  }

  /** What a pass does with the i-th door. */
  function SyncedAt(s: DoorSync, vehicles: map<Vehicle, real>, positions: seq<DoorPosition>, i: nat): Synced
    requires i < DOOR_COUNT == |s.slots| == |positions|
    decreases i, 1
  {
    SyncDoor(s.slots[i], TrustBefore(s, vehicles, positions, i), vehicles, ALL_DOORS[i], s.IsHeldClosed(ALL_DOORS[i]), positions[i])
  }

  datatype DoorWrite = DoorWrite(door: GsxDoor, open: bool)

  function WritesOf(outcome: Outcome, door: GsxDoor): seq<DoorWrite> {
    if outcome.Written? then [DoorWrite(door, outcome.open)] else []
  }

  /** What a pass commands of the first n doors. */
  function SyncWrites(s: DoorSync, vehicles: map<Vehicle, real>, positions: seq<DoorPosition>, n: nat): seq<DoorWrite>
    requires n <= DOOR_COUNT == |s.slots| == |positions|
  {
    if n == 0 then []
    else SyncWrites(s, vehicles, positions, n - 1) + WritesOf(SyncedAt(s, vehicles, positions, n - 1).outcome, ALL_DOORS[n - 1])
  }

  function Sync(s: DoorSync, readings: Readings, positions: seq<DoorPosition>): DoorSync
    requires DOOR_COUNT == |s.slots| == |positions|
  {
    if !readings.started then s
    else s.(slots := seq(DOOR_COUNT, i requires 0 <= i < DOOR_COUNT => SyncedAt(s, readings.vehicles, positions, i).slot),
            trust := TrustBefore(s, readings.vehicles, positions, DOOR_COUNT))
  }

  /** A door that reads closed and is not on its way anywhere is left alone; every other door is commanded closed. */
  predicate IsClosedAlready(slot: Slot, position: DoorPosition) {
    position == Closed && !TransitHolds(slot.transit, position, slot.lastTarget.Position())
  }

  function ClosedDoor(slot: Slot, position: DoorPosition): Slot {
    if IsClosedAlready(slot, position) then RecordTarget(slot, false) else RecordWrite(slot, false)
  }

  function CloseAll(s: DoorSync, positions: seq<DoorPosition>): DoorSync
    requires |s.slots| == |positions| == DOOR_COUNT
  {
    s.(slots := seq(DOOR_COUNT, i requires 0 <= i < DOOR_COUNT => ClosedDoor(s.slots[i], positions[i])))
  }

  function CloseWrites(s: DoorSync, positions: seq<DoorPosition>, n: nat): seq<DoorWrite>
    requires n <= DOOR_COUNT == |s.slots| == |positions|
  {
    if n == 0 then []
    else CloseWrites(s, positions, n - 1)
         + if IsClosedAlready(s.slots[n - 1], positions[n - 1]) then [] else [DoorWrite(ALL_DOORS[n - 1], false)]
  }

  // ----- Watching GSX -----

  /** Where a door stands among all doors. */
  function IndexOf(door: GsxDoor): (i: nat)
    ensures i < DOOR_COUNT && ALL_DOORS[i] == door
  {
    match door
    case FwdPax => 0
    case MidPax => 1
    case AftPax => 2
    case FwdCatering => 3
    case AftCatering => 4
    case FwdCargo => 5
    case AftCargo => 6
  }

  function WatchExit(s: DoorSync, door: GsxDoor, index: int): DoorSync
    requires |s.slots| == DOOR_COUNT
  {
    var i := IndexOf(door);
    s.(slots := s.slots[i := s.slots[i].(exit := NO_EXIT.(index := index))])
  }

  function SampledSlots(slots: seq<Slot>, exits: map<int, real>): seq<Slot> {
    seq(|slots|, i requires 0 <= i < |slots| => slots[i].(exit := Sampled(slots[i].exit, exits)))
  }

  function Observe(s: DoorSync, readings: Readings): DoorSync {
    var sampled := s.(slots := SampledSlots(s.slots, readings.exits));
    if !readings.started then sampled.(restarting := s.seenStarted)
    else
      var distrusted := if s.restarting then Distrust(readings.vehicles) else s.trust;
      sampled.(restarting := false, seenStarted := true, trust := Inherit(distrusted, readings.vehicles))
  }

  function HoldClosedForDeparture(s: DoorSync, hold: bool): DoorSync {
    s.(heldForDeparture := hold, passengerDoorsHeld := hold && s.passengerDoorsHeld)
  }

  // ----- Saving and restoring -----

  const MEMORY_PREFIX := "doorSync."

  function DoorName(door: GsxDoor): string {
    match door
    case FwdPax => "FwdPax"
    case MidPax => "MidPax"
    case AftPax => "AftPax"
    case FwdCatering => "FwdCatering"
    case AftCatering => "AftCatering"
    case FwdCargo => "FwdCargo"
    case AftCargo => "AftCargo"
  }

  function MemoryName(door: GsxDoor): string {
    MEMORY_PREFIX + DoorName(door)
  }

  const OPEN_TEXT := "open"
  const CLOSED_TEXT := "closed"

  function TargetText(target: Target): string {
    if target == ToOpen then OPEN_TEXT else CLOSED_TEXT
  }

  function TargetFromText(text: string): Target {
    if text == OPEN_TEXT then ToOpen else if text == CLOSED_TEXT then ToClosed else Unknown
  }

  function AppendTarget(memory: Entries, door: GsxDoor, target: Target): Entries {
    if target == Unknown then memory else MemoryBags.Put(memory, MemoryName(door), TargetText(target))
  }

  /** The targets of the first n doors added to a bag. */
  function AppendMemory(memory: Entries, slots: seq<Slot>, n: nat): Entries
    requires n <= DOOR_COUNT == |slots|
  {
    if n == 0 then memory else AppendTarget(AppendMemory(memory, slots, n - 1), ALL_DOORS[n - 1], slots[n - 1].lastTarget)
  }

  function RestoredSlot(slot: Slot, memory: Entries, door: GsxDoor): Slot {
    var target := TargetFromText(Text(memory, MemoryName(door), ""));
    slot.(lastTarget := target, inherited := target == ToOpen, transit := NO_TRANSIT)
  }

  function RestoreMemory(s: DoorSync, memory: Entries, gsxRestarted: bool, vehicles: map<Vehicle, real>): DoorSync
    requires |s.slots| == DOOR_COUNT
  {
    s.(slots := seq(DOOR_COUNT, i requires 0 <= i < DOOR_COUNT => RestoredSlot(s.slots[i], memory, ALL_DOORS[i])),
       trust := if gsxRestarted then Distrust(vehicles) else FULL_TRUST)
  }
}
